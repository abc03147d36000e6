/** The per-state handlers of the refactored machine: the capability every
    handler offers (supportedState, handleEvent), the validation helpers and
    the per-handler durability counter of the abstract base class, and the
    IDLE handler. Without inheritance, one class carries all of them; its
    constant `behaviour` says which concrete handler an object is. */
module StateHandlers {
  import opened WeaponTypes
  import IdleState

  /** Which concrete handler an object is. `IdleBehaviour` is
      IdleStateHandler. `Given` is any other handler an integrator supplies:
      it supports `supported`, and its answer to each event is `respond`. */
  datatype Behaviour =
    | IdleBehaviour
    | Given(supported: WeaponState, respond: WeaponEvent -> Result<TransitionResult>)

  class StateHandler {
    /** The concrete handler this object is; fixed at construction. */
    const behaviour: Behaviour
    /** The handler's own durability counter, distinct from the machine's. */
    var durability: int

    /** `new IdleStateHandler(initialDurability)`. */
    constructor ForIdle(initialDurability: int)
      ensures behaviour.IdleBehaviour?
      ensures durability == initialDurability
    {
      behaviour := IdleBehaviour;
      durability := initialDurability;
    }

    /** A handler for `state` supplied by an integrator, answering `respond`. */
    constructor ForState(state: WeaponState, initialDurability: int,
                         respond: WeaponEvent -> Result<TransitionResult>)
      ensures behaviour.Given? && behaviour.supported == state && behaviour.respond == respond
      ensures durability == initialDurability
    {
      behaviour := Given(state, respond);
      durability := initialDurability;
    }

    /** The state this handler is registered under; it never changes. */
    function SupportedState(): (s: WeaponState)
      ensures behaviour.IdleBehaviour? ==> s == Idle
      ensures behaviour.Given? ==> s == behaviour.supported
    {
      match behaviour
      case IdleBehaviour => Idle
      case Given(state, _) => state
    }

    /** validateDurability: throws IllegalStateException exactly when the
        handler's own counter is below `minValue`. Being a function, it
        cannot change the counter. */
    function ValidateDurability(minValue: int): (o: Outcome)
      reads this
      ensures o.Pass? <==> minValue <= durability
      ensures o.Fail? ==> o.error == IllegalState
    {
      if durability < minValue then Fail(IllegalState) else Pass
    }

    /** validateEvent: scans the allow-list and returns at the first entry
        equal to `event`; throws IllegalEventException if none is. The
        result depends only on whether `event` occurs in `allowed`, not on
        order or repetition, and an empty list rejects every event. The
        method has no modifies clause, so it changes nothing. */
    method ValidateEvent(event: WeaponEvent, allowed: seq<WeaponEvent>) returns (o: Outcome)
      ensures o.Pass? <==> event in allowed
      ensures o.Fail? ==> o == Fail(IllegalEvent(event))
      ensures allowed == [] ==> o == Fail(IllegalEvent(event))
    {
      for i := 0 to |allowed|
        invariant event !in allowed[..i]
      {
        if allowed[i] == event {
          return Pass;
        }
      }
      assert allowed[..|allowed|] == allowed;
      return Fail(IllegalEvent(event));
    }

    /** What `handleEvent(event)` returns or throws, read off the current
        value of the handler's own counter. */
    function Response(event: WeaponEvent): Result<TransitionResult>
      reads this
    {
      match behaviour
      case IdleBehaviour => IdleState.IdleResponse(durability, event)
      case Given(_, respond) => respond(event)
    }

    /** handleEvent. For the IDLE handler: validate the event against
        [UPGRADE_START], then the own counter against 10, then take 10 off
        the own counter and return (UPGRADING, -10). A supplied handler
        answers with its `respond` and keeps its counter. */
    method HandleEvent(event: WeaponEvent) returns (r: Result<TransitionResult>)
      modifies this
      ensures r == old(Response(event))
      ensures behaviour.IdleBehaviour? ==>
                durability == IdleState.CounterAfter(old(durability), event)
      ensures behaviour.Given? ==> durability == old(durability)
      ensures behaviour.IdleBehaviour? && old(durability) >= 0 ==> durability >= 0
    {
      match behaviour
      case IdleBehaviour =>
        var eventCheck := ValidateEvent(event, IdleState.AllowedEvents);
        if eventCheck.Fail? {
          return Failure(eventCheck.error);
        }
        var durabilityCheck := ValidateDurability(IdleState.MinDurability);
        if durabilityCheck.Fail? {
          return Failure(durabilityCheck.error);
        }
        durability := durability - IdleState.UpgradeCost;
        IdleState.IdleKeepsCounterNonNegative(old(durability), event);
        return Success(TransitionResult(Upgrading, -IdleState.UpgradeCost));
      case Given(_, respond) =>
        r := respond(event);
    }
  }

  /** A registry is consistent when every handler is stored under the state
      it supports. */
  ghost predicate Consistent(registry: map<WeaponState, StateHandler>)
  {
    forall s :: s in registry ==> registry[s].SupportedState() == s
  }
}
