/** Clients of the builder and the machine on concrete objects: what a
    caller can conclude from the contracts alone about the IDLE transition,
    illegal events, the handler's own durability floor, missing handlers,
    replacement in the registry, the registry copy taken by build, and
    handler objects shared between machines. */
module Scenarios {
  import opened WeaponTypes
  import opened StateHandlers
  import opened StateMachine
  import opened Builder

  /** A default builder with one IDLE handler whose own counter holds
      `handlerDurability`, and the machine it builds. */
  method BuildIdleOnly(handlerDurability: int) returns (b: WeaponBuilder, m: WeaponStateMachine, h: StateHandler)
    ensures fresh(b) && fresh(m) && fresh(h) && b.Valid()
    ensures h.behaviour.IdleBehaviour? && h.durability == handlerDurability
    ensures b.initialState == Idle && b.initialDurability == 100 && b.handlers == map[Idle := h]
    ensures m.currentState == Idle && m.durability == 100 && m.handlers == map[Idle := h]
  {
    h := new StateHandler.ForIdle(handlerDurability);
    b := new WeaponBuilder();
    var self := b.WithHandler(h);
    var built := b.Build();
    m := built.value;
  }

  /** From IDLE with durability 100, UPGRADE_START completes: the machine
      is UPGRADING at 90, and the handler's own counter is also at 90. */
  method UpgradeFromIdle() returns (o: Outcome, state: WeaponState, durability: int, handlerDurability: int)
    ensures o == Pass && state == Upgrading && durability == 90 && handlerDurability == 90
  {
    var b, m, h := BuildIdleOnly(100);
    o := m.ProcessEvent(UpgradeStart);
    state := m.GetCurrentState();
    durability := m.GetDurability();
    handlerDurability := h.durability;
  }

  /** From IDLE, UPGRADE_SUCCESS is an illegal event and nothing moves. */
  method IllegalEventInIdle() returns (o: Outcome, state: WeaponState, durability: int, handlerDurability: int)
    ensures o == Fail(IllegalEvent(UpgradeSuccess))
    ensures state == Idle && durability == 100 && handlerDurability == 100
  {
    var b, m, h := BuildIdleOnly(100);
    o := m.ProcessEvent(UpgradeSuccess);
    state := m.GetCurrentState();
    durability := m.GetDurability();
    handlerDurability := h.durability;
  }

  /** The floor is checked on the handler's own counter (5), not on the
      machine's (100): UPGRADE_START fails with IllegalState and both
      counters keep their values. */
  method HandlerFloorUsesOwnCounter() returns (o: Outcome, state: WeaponState, durability: int, handlerDurability: int)
    ensures o == Fail(IllegalState)
    ensures state == Idle && durability == 100 && handlerDurability == 5
  {
    var b, m, h := BuildIdleOnly(5);
    o := m.ProcessEvent(UpgradeStart);
    state := m.GetCurrentState();
    durability := m.GetDurability();
    handlerDurability := h.durability;
  }

  /** The floor guards only the handler's own counter, so the machine's
      durability can go negative: built with durability 5 and an IDLE
      handler at 100, UPGRADE_START completes and leaves the machine at -5
      and the handler at 90. */
  method MachineDurabilityCanGoNegative() returns (o: Outcome, durability: int, handlerDurability: int)
    ensures o == Pass && durability == -5 && handlerDurability == 90
  {
    var h := new StateHandler.ForIdle(100);
    var b := new WeaponBuilder();
    var self := b.WithInitialDurability(5);
    self := b.WithHandler(h);
    var r := b.Build();
    var m := r.value;
    o := m.ProcessEvent(UpgradeStart);
    durability := m.GetDurability();
    handlerDurability := h.durability;
  }

  /** With only an IDLE handler, once the machine is UPGRADING every event
      fails with MissingHandler(UPGRADING) and nothing moves again. */
  method MissingHandlerAfterUpgrade(event: WeaponEvent) returns (o: Outcome, state: WeaponState, durability: int)
    ensures o == Fail(MissingHandler(Upgrading))
    ensures state == Upgrading && durability == 90
  {
    var b, m, h := BuildIdleOnly(100);
    var first := m.ProcessEvent(UpgradeStart);
    o := m.ProcessEvent(event);
    state := m.GetCurrentState();
    durability := m.GetDurability();
  }

  /** build refuses a registry without an IDLE handler, even when the
      initial state has a handler of its own. */
  method BuildWithoutIdleFails() returns (r: Result<WeaponStateMachine>)
    ensures r == Failure(IllegalState)
  {
    var h := new StateHandler.ForState(Upgrading, 100, e => Failure(IllegalEvent(e)));
    var b := new WeaponBuilder();
    var self := b.WithInitialState(Upgrading);
    self := b.WithHandler(h);
    r := b.Build();
  }

  /** build does not ask for a handler for the initial state: a machine
      starting in BROKEN with only an IDLE handler is built, and its first
      event fails with MissingHandler(BROKEN). */
  method BuildIgnoresInitialState(event: WeaponEvent) returns (built: bool, o: Outcome)
    ensures built && o == Fail(MissingHandler(Broken))
  {
    var h := new StateHandler.ForIdle(100);
    var b := new WeaponBuilder();
    var self := b.WithInitialState(Broken);
    self := b.WithHandler(h);
    var r := b.Build();
    built := r.Success?;
    o := r.value.ProcessEvent(event);
  }

  /** Registering two IDLE handlers keeps the last one: the machine
      consults the second handler (own counter 5) and fails the floor,
      while the first handler (own counter 100) is never touched. */
  method LastRegistrationWins() returns (o: Outcome, firstCounter: int, secondCounter: int)
    ensures o == Fail(IllegalState) && firstCounter == 100 && secondCounter == 5
  {
    var first := new StateHandler.ForIdle(100);
    var second := new StateHandler.ForIdle(5);
    var b := new WeaponBuilder();
    var self := b.WithHandler(first);
    self := b.WithHandler(second);
    var r := b.Build();
    o := r.value.ProcessEvent(UpgradeStart);
    firstCounter := first.durability;
    secondCounter := second.durability;
  }

  /** build hands the machine a copy of the registry: a handler registered
      on the builder afterwards is in the builder's registry and not in the
      machine's. */
  method BuiltRegistryIsCopy() returns (inBuilder: bool, inMachine: bool)
    ensures inBuilder && !inMachine
  {
    var b, m, h := BuildIdleOnly(100);
    var later := new StateHandler.ForState(Upgrading, 100, e => Failure(IllegalEvent(e)));
    var self := b.WithHandler(later);
    inBuilder := Upgrading in b.handlers;
    inMachine := Upgrading in m.handlers;
  }

  /** Two machines built from one builder share its IDLE handler object:
      the first machine's upgrade takes its counter from 15 to 5, so the
      second machine's upgrade then fails the floor although the second
      machine's own durability is still 100. */
  method SharedHandlerObject() returns (o1: Outcome, o2: Outcome, durability2: int, handlerDurability: int)
    ensures o1 == Pass && o2 == Fail(IllegalState)
    ensures durability2 == 100 && handlerDurability == 5
  {
    var b, m1, h := BuildIdleOnly(15);
    var r := b.Build();
    var m2 := r.value;
    o1 := m1.ProcessEvent(UpgradeStart);
    o2 := m2.ProcessEvent(UpgradeStart);
    durability2 := m2.GetDurability();
    handlerDurability := h.durability;
  }
}
