# Weapon upgrade state machine

A model of the weapon-upgrade state machine of `test1java`, in its two
versions.

- The refactored design (package `sol`). A `WeaponBuilder` collects an
  initial state, an initial durability and a registry mapping each
  `WeaponState` to a handler, keyed by the handler's own
  `supportedState()`. `build()` refuses to produce a `WeaponStateMachine`
  unless an IDLE handler is registered. `processEvent` looks up the handler
  for the current state, lets it validate and compute a
  `TransitionResult(newState, durabilityChange)`, and only then commits
  both fields. The abstract base handler keeps a durability counter of its
  own and offers two checks: the event is in an allow-list, and the own
  counter reaches a floor. `IdleStateHandler` accepts only UPGRADE_START,
  needs its own counter at 10 or more, takes 10 off that counter and yields
  (UPGRADING, -10).
- The original monolithic `Weapon`. A string state and a durability
  counter are changed by one nested conditional. It silently ignores every
  (state, event) pair it does not match.

Modules, and the Java files each one covers (paths under `src/main/java/org/kolmanfreecss/test1java/`):

- `WeaponTypes` (`weapon_types.dfy`): the enums `WeaponState` and
  `WeaponEvent` and the record `TransitionResult`, which the handlers and
  the machine use but which are defined outside the files modelled here;
  the error kinds of `sol/IllegalEventException.java`,
  `sol/MissingHandlerException.java` and `IllegalStateException`; and
  `Result`/`Outcome` for calls that may throw.
- `IdleState` (`idle_state.dfy`): `sol/IdleStateHandler.java`, as values.
  It gives what `handleEvent` answers and what it leaves in the handler's
  own counter, as functions, with lemmas about them.
- `StateHandlers` (`state_handlers.dfy`): `sol/IStateHandler.java`,
  `sol/AbstractStateHandler.java` and the class side of
  `sol/IdleStateHandler.java`, as the one class `StateHandler`. It holds the
  own counter, `ValidateDurability`, `ValidateEvent`, `SupportedState` and
  `HandleEvent`. A constant `behaviour` says which concrete handler an object
  is: `IdleBehaviour`, or `Given(state, respond)`. `Given` is a handler
  supplied by an integrator whose answer to each event is a given function.
  The code defines no handler for UPGRADING, ENHANCED or BROKEN, so the
  model invents none.
- `StateMachine` (`weapon_state_machine.dfy`): `sol/WeaponStateMachine.java`.
- `Builder` (`weapon_builder.dfy`): `sol/WeaponBuilder.java`.
- `LegacyWeapon` (`legacy_weapon.dfy`): `Weapon.java`: the class, its step
  and run functions, and the reachability lemmas.
- `Comparison` (`comparison.dfy`): no single file; it relates
  `sol/IdleStateHandler.java` to the IDLE branch of `Weapon.java`.
- `Scenarios` (`scenarios.dfy`): no single file; client methods that drive
  `sol/WeaponBuilder.java` and `sol/WeaponStateMachine.java` on concrete
  objects and show what a caller can conclude from the contracts alone.

Points worth knowing about the code:

- There are two durability counters. Each handler has its own, and the
  machine has another. The IDLE handler checks and decrements its own
  counter. The machine adds the returned delta to its counter. A handler
  built with 5 therefore fails UPGRADE_START with `IllegalState` while the
  machine keeps the builder's 100 (`Scenarios.HandlerFloorUsesOwnCounter`).
  The floor guards only the handler's counter, so the machine's durability
  can go negative: built at 5 with an IDLE handler at 100, it ends at -5
  (`Scenarios.MachineDurabilityCanGoNegative`).
- The durability floor and the missing IDLE handler both throw
  `IllegalStateException`, so the model gives them one kind, `IllegalState`.
- The registry the machine receives is a copy of the builder's map. The
  handler objects in it are shared, though. Two machines built from one
  builder share one IDLE handler and its counter
  (`Scenarios.SharedHandlerObject`).

## Model

| member | source | states |
|---|---|---|
| `StateMachine.WeaponStateMachine.constructor` | src/main/java/org/kolmanfreecss/test1java/sol/WeaponStateMachine.java:11-17 | the machine starts with exactly the given state, durability and registry |
| `StateMachine.WeaponStateMachine.ProcessEvent` | src/main/java/org/kolmanfreecss/test1java/sol/WeaponStateMachine.java:19-28 | with no handler for the current state, the call fails with MissingHandler(current state) for every event, and state and durability stay unchanged; otherwise the handler keyed by the current state is consulted; its failure is passed on with state and durability unchanged; its success sets the new state and adds the delta to the machine's durability; only that handler's own counter changes, as its handleEvent says; the registry is a constant |
| `StateMachine.WeaponStateMachine.GetDurability` | src/main/java/org/kolmanfreecss/test1java/sol/WeaponStateMachine.java:30-32 | returns the committed durability and changes nothing |
| `StateMachine.WeaponStateMachine.GetCurrentState` | src/main/java/org/kolmanfreecss/test1java/sol/WeaponStateMachine.java:34-36 | returns the committed state and changes nothing |
| `Builder.WeaponBuilder.constructor` | src/main/java/org/kolmanfreecss/test1java/sol/WeaponBuilder.java:8-10 | a new builder has IDLE, durability 100 and an empty, consistent registry |
| `Builder.WeaponBuilder.WithInitialState` | src/main/java/org/kolmanfreecss/test1java/sol/WeaponBuilder.java:12-15 | sets only the initial state and returns the same builder |
| `Builder.WeaponBuilder.WithInitialDurability` | src/main/java/org/kolmanfreecss/test1java/sol/WeaponBuilder.java:17-20 | sets only the initial durability and returns the same builder |
| `Builder.WeaponBuilder.WithHandler` | src/main/java/org/kolmanfreecss/test1java/sol/WeaponBuilder.java:22-25 | stores the handler under its own supported state and replaces any earlier one there (last write wins); every other entry and both other fields are unchanged; every key still matches its handler's supported state; returns the same builder |
| `Builder.WeaponBuilder.ValidateHandlers` | src/main/java/org/kolmanfreecss/test1java/sol/WeaponBuilder.java:36-40 | passes if and only if IDLE has a handler, and fails with IllegalState otherwise |
| `Builder.WeaponBuilder.Build` | src/main/java/org/kolmanfreecss/test1java/sol/WeaponBuilder.java:27-34 | fails, with IllegalState, if and only if IDLE has no handler, whatever the initial state; on success the machine is new, starts with the configured state and durability, and holds a consistent registry equal to the builder's at that moment, as a value |
| `StateHandlers.StateHandler.ForIdle` | src/main/java/org/kolmanfreecss/test1java/sol/AbstractStateHandler.java:9-11 | a new IDLE handler's own counter is the given initial durability |
| `StateHandlers.StateHandler.ValidateDurability` | src/main/java/org/kolmanfreecss/test1java/sol/AbstractStateHandler.java:13-17 | passes if and only if the own counter is at least the minimum, and fails with IllegalState otherwise; it only reads |
| `StateHandlers.StateHandler.ValidateEvent` | src/main/java/org/kolmanfreecss/test1java/sol/AbstractStateHandler.java:19-24 | passes if and only if the event occurs in the allow-list, so only membership matters, not order or repetition; otherwise fails with IllegalEvent(event); an empty list rejects every event; changes nothing |
| `StateHandlers.StateHandler.SupportedState` | src/main/java/org/kolmanfreecss/test1java/sol/IdleStateHandler.java:18-21 | an IDLE handler always reports IDLE; a supplied handler reports its given state |
| `StateHandlers.StateHandler.HandleEvent` | src/main/java/org/kolmanfreecss/test1java/sol/IdleStateHandler.java:9-16 | the result is the handler's answer for its counter before the call; an IDLE handler's own counter ends as `IdleState.CounterAfter` says and stays non-negative if it started so |
| `IdleState.IdleResponse` | src/main/java/org/kolmanfreecss/test1java/sol/IdleStateHandler.java:10-16 | the answer of the IDLE handler's handleEvent for a counter value and an event; a failure is always IllegalEvent(event) or IllegalState, never MissingHandler |
| `IdleState.CounterAfter` | src/main/java/org/kolmanfreecss/test1java/sol/IdleStateHandler.java:12-14 | the IDLE handler's own counter after handleEvent: either unchanged or lowered by exactly 10, never raised |
| `IdleState.IdleRejectsOtherEvents` | src/main/java/org/kolmanfreecss/test1java/sol/IdleStateHandler.java:11-12 | every event but UPGRADE_START fails with IllegalEvent, even when the counter is below the floor (the event check comes first), and the counter is unchanged |
| `IdleState.IdleDurabilityFloor` | src/main/java/org/kolmanfreecss/test1java/sol/IdleStateHandler.java:12 | UPGRADE_START with the own counter below 10 fails with IllegalState and leaves the counter unchanged |
| `IdleState.IdleSucceedsExactly` | src/main/java/org/kolmanfreecss/test1java/sol/IdleStateHandler.java:11-15 | the call completes if and only if the event is UPGRADE_START and the counter is at least 10; it then yields (UPGRADING, -10) and takes exactly 10 off the own counter |
| `IdleState.ReportedDeltaMatchesOwnCounter` | src/main/java/org/kolmanfreecss/test1java/sol/IdleStateHandler.java:14-15 | the delta returned to the machine equals the change made to the handler's own counter (zero on failure) |
| `IdleState.IdleKeepsCounterNonNegative` | src/main/java/org/kolmanfreecss/test1java/sol/IdleStateHandler.java:12-14 | a counter that starts at 0 or more is still at 0 or more after any call |
| `LegacyWeapon.Weapon.constructor` | src/main/java/org/kolmanfreecss/test1java/Weapon.java:5-6 | a new weapon is IDLE with durability 100, which is a reachable pair |
| `LegacyWeapon.Weapon.HandleEvent` | src/main/java/org/kolmanfreecss/test1java/Weapon.java:8-25 | the fields become `Step` of their old values and the event; a reachable pair stays reachable |
| `LegacyWeapon.Step` | src/main/java/org/kolmanfreecss/test1java/Weapon.java:8-25 | the effect of handleEvent on (state, durability); durability changes only together with the state, and the state moves at most one stage along IDLE, UPGRADING, ENHANCED-or-BROKEN, never back |
| `LegacyWeapon.Run` | src/main/java/org/kolmanfreecss/test1java/Weapon.java:8-25 | the effect of a sequence of handleEvent calls; the stage never decreases, and a run that ends in its starting state has not changed the durability |
| `LegacyWeapon.IdleStartUpgrades` | src/main/java/org/kolmanfreecss/test1java/Weapon.java:9-14 | IDLE + UPGRADE_START gives UPGRADING with durability minus 10 |
| `LegacyWeapon.UpgradingResolves` | src/main/java/org/kolmanfreecss/test1java/Weapon.java:15-22 | UPGRADING + UPGRADE_SUCCESS gives ENHANCED with durability plus 20; UPGRADING + UPGRADE_FAIL gives BROKEN with durability 0 |
| `LegacyWeapon.UnmatchedEventsIgnored` | src/main/java/org/kolmanfreecss/test1java/Weapon.java:9-24 | every other (state, event) pair leaves state and durability unchanged, including any event in ENHANCED or BROKEN and any unknown string |
| `LegacyWeapon.StepKeepsReachable` | src/main/java/org/kolmanfreecss/test1java/Weapon.java:9-23 | one event keeps the pair among (IDLE,100), (UPGRADING,90), (ENHANCED,110), (BROKEN,0) |
| `LegacyWeapon.RunKeepsReachable` | src/main/java/org/kolmanfreecss/test1java/Weapon.java:8-25 | any sequence of events keeps a reachable pair reachable |
| `LegacyWeapon.InitialRunsReachable` | src/main/java/org/kolmanfreecss/test1java/Weapon.java:5-25 | from a new weapon, every sequence of events ends with durability 100, 90, 110 or 0, in the matching state |
| `LegacyWeapon.TerminalStatesAbsorb` | src/main/java/org/kolmanfreecss/test1java/Weapon.java:9-24 | from ENHANCED or BROKEN no sequence of events changes state or durability |
| `LegacyWeapon.RunStageBounded` | src/main/java/org/kolmanfreecss/test1java/Weapon.java:8-25 | along any sequence of events the stage never decreases and advances by at most the number of events |
| `Comparison.IdleHandlerMatchesLegacy` | src/main/java/org/kolmanfreecss/test1java/sol/IdleStateHandler.java:10-16 | where the IDLE handler completes, the legacy IDLE branch makes the same transition and durability change; where it rejects the event, the legacy class ignores it; where its floor fails the call, the legacy class still upgrades |
| `Scenarios.UpgradeFromIdle` | src/main/java/org/kolmanfreecss/test1java/sol/WeaponStateMachine.java:19-28 | a default machine with an IDLE handler at 100 goes to UPGRADING at 90 on UPGRADE_START, and the handler's own counter is also 90 |
| `Scenarios.IllegalEventInIdle` | src/main/java/org/kolmanfreecss/test1java/sol/AbstractStateHandler.java:19-24 | UPGRADE_SUCCESS in IDLE fails with IllegalEvent(UPGRADE_SUCCESS); state, durability and the handler's counter stay IDLE, 100, 100 |
| `Scenarios.HandlerFloorUsesOwnCounter` | src/main/java/org/kolmanfreecss/test1java/sol/IdleStateHandler.java:12 | an IDLE handler at 5 fails UPGRADE_START with IllegalState although the machine's durability is 100; both counters keep their values |
| `Scenarios.MachineDurabilityCanGoNegative` | src/main/java/org/kolmanfreecss/test1java/sol/WeaponStateMachine.java:25-27 | a machine built at durability 5 with an IDLE handler at 100 completes UPGRADE_START and ends at -5, with the handler at 90 |
| `Scenarios.MissingHandlerAfterUpgrade` | src/main/java/org/kolmanfreecss/test1java/sol/WeaponStateMachine.java:20-23 | with only an IDLE handler, every event after the upgrade fails with MissingHandler(UPGRADING) and leaves UPGRADING at 90 |
| `Scenarios.BuildWithoutIdleFails` | src/main/java/org/kolmanfreecss/test1java/sol/WeaponBuilder.java:36-40 | a builder with only an UPGRADING handler, even with UPGRADING as initial state, fails to build with IllegalState |
| `Scenarios.BuildIgnoresInitialState` | src/main/java/org/kolmanfreecss/test1java/sol/WeaponBuilder.java:27-34 | a machine starting in BROKEN with only an IDLE handler is built, and its first event fails with MissingHandler(BROKEN) |
| `Scenarios.LastRegistrationWins` | src/main/java/org/kolmanfreecss/test1java/sol/WeaponBuilder.java:22-25 | of two IDLE handlers registered in turn, the machine consults the second; the first is never touched |
| `Scenarios.BuiltRegistryIsCopy` | src/main/java/org/kolmanfreecss/test1java/sol/WeaponBuilder.java:32 | a handler registered after build is in the builder's registry and not in the machine's |
| `Scenarios.SharedHandlerObject` | src/main/java/org/kolmanfreecss/test1java/sol/WeaponBuilder.java:32 | two machines from one builder share its IDLE handler: after the first upgrades (counter 15 to 5), the second fails the floor with IllegalState while its own durability is still 100 |

## Left out

- Concurrency: `synchronized` on `processEvent` and the `AtomicInteger` counters are modelled as plain fields updated by one caller at a time. The all-or-nothing commit is therefore a sequential postcondition of `ProcessEvent`.
- 32-bit arithmetic: the durability counters of the machine and of the handlers are unbounded integers, so Java's `int` wrap-around on `addAndGet` is not modelled. The legacy `Weapon` only ever holds 100, 90, 110 or 0 (its `Valid` invariant), so no wrap can happen there.
- Console output: the `println` in `Weapon.handleEvent` and `Weapon.printStatus` are omitted.
- Exception messages: the exceptions are modelled by their kind and their constructor argument (the event, the state); the message strings are dropped.
- `null`: a `null` event, a `null` handler passed to `withHandler`, a `null` state passed to `withInitialState` (the build then succeeds when IDLE is registered, and the first `processEvent` throws `MissingHandlerException(null)` because the map has no entry for `null`), and a `null` string given to the legacy `handleEvent` (which throws `NullPointerException` in IDLE and UPGRADING) are not modelled, because Dafny values and non-null references cannot be null.
- `IStateHandler`: there is no interface in the model; the constant `behaviour` of `StateHandler` picks the concrete handler, and only IDLE has a concrete one.
- StateHandlers.StateHandler.HandleEvent: a supplied (`Given`) handler answers with a fixed function of the event and keeps its own counter. A Java handler written by an integrator could also read or change its own counter; such handlers are not modelled.
- The Spring example (`test2spring/UserService.java`, `test2spring/UserController.java`) is not part of this model: it is REST and persistence glue with no state machine.
