/** WeaponStateMachine: the current state, the machine's own durability
    counter and the registry of handlers. Each event is delegated to the
    handler registered for the current state, and the machine commits the
    returned transition only after the handler has completed. */
module StateMachine {
  import opened WeaponTypes
  import opened StateHandlers
  import IdleState

  class WeaponStateMachine {
    var currentState: WeaponState
    /** The machine's durability, separate from every handler's own counter. */
    var durability: int
    /** The registry; the field is final and only ever read. The handler
        objects it holds are shared with whoever else holds them. */
    const handlers: map<WeaponState, StateHandler>

    constructor (initialState: WeaponState, initialDurability: int,
                 handlers: map<WeaponState, StateHandler>)
      ensures currentState == initialState
      ensures durability == initialDurability
      ensures this.handlers == handlers
    {
      currentState := initialState;
      durability := initialDurability;
      this.handlers := handlers;
    }

    /** The handler that `ProcessEvent` consults: the one keyed by the
        current state, if any. It is the only object besides the machine
        that a call may change. */
    function Consulted(): set<StateHandler>
      reads this
    {
      if currentState in handlers then {handlers[currentState]} else {}
    }

    /** processEvent. A missing handler for the current state throws
        MissingHandler whatever the event. Otherwise the handler's answer,
        computed from its counter before the call, decides: a failure
        propagates with the machine's state and durability untouched; a
        success moves to the new state and adds the delta to the machine's
        durability. The consulted handler updates its own counter as its
        handleEvent does; the registry, a constant, is never changed. */
    method ProcessEvent(event: WeaponEvent) returns (o: Outcome)
      modifies this, Consulted()
      ensures old(currentState) !in handlers ==>
                o == Fail(MissingHandler(old(currentState)))
                && currentState == old(currentState) && durability == old(durability)
      ensures old(currentState) in handlers ==>
                var h := handlers[old(currentState)];
                match old(h.Response(event))
                case Failure(e) =>
                  o == Fail(e) && currentState == old(currentState) && durability == old(durability)
                case Success(t) =>
                  o == Pass && currentState == t.newState
                  && durability == old(durability) + t.durabilityChange
      ensures old(currentState) in handlers ==>
                var h := handlers[old(currentState)];
                (h.behaviour.IdleBehaviour? ==>
                   h.durability == IdleState.CounterAfter(old(h.durability), event))
                && (h.behaviour.Given? ==> h.durability == old(h.durability))
    {
      if currentState !in handlers {
        return Fail(MissingHandler(currentState));
      }
      var handler := handlers[currentState];
      var result := handler.HandleEvent(event);
      if result.Failure? {
        return Fail(result.error);
      }
      durability := durability + result.value.durabilityChange;
      currentState := result.value.newState;
      return Pass;
    }

    /** getDurability: the committed machine durability. */
    method GetDurability() returns (d: int)
      ensures d == durability
    {
      d := durability;
    }

    /** getCurrentState: the committed state. */
    method GetCurrentState() returns (s: WeaponState)
      ensures s == currentState
    {
      s := currentState;
    }
  }
}
