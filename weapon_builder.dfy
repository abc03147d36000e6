/** WeaponBuilder: accumulates an initial state, an initial durability and
    a registry of handlers keyed by their own supported state, and builds a
    machine only when an IDLE handler is registered. */
module Builder {
  import opened WeaponTypes
  import opened StateHandlers
  import opened StateMachine

  class WeaponBuilder {
    var initialState: WeaponState
    var initialDurability: int
    /** The Java field is a final HashMap updated in place by `put`. */
    var handlers: map<WeaponState, StateHandler>

    /** Every handler is registered under the state it supports. */
    ghost predicate Valid()
      reads this
    {
      Consistent(handlers)
    }

    /** A fresh builder: IDLE, durability 100, no handlers. */
    constructor ()
      ensures initialState == Idle && initialDurability == 100 && handlers == map[]
      ensures Valid()
    {
      initialState := Idle;
      initialDurability := 100;
      handlers := map[];
    }

    /** withInitialState: sets only the initial state; returns this builder. */
    method WithInitialState(state: WeaponState) returns (self: WeaponBuilder)
      modifies this
      ensures self == this
      ensures initialState == state
      ensures initialDurability == old(initialDurability) && handlers == old(handlers)
    {
      initialState := state;
      return this;
    }

    /** withInitialDurability: sets only the initial durability; returns
        this builder. */
    method WithInitialDurability(durability: int) returns (self: WeaponBuilder)
      modifies this
      ensures self == this
      ensures initialDurability == durability
      ensures initialState == old(initialState) && handlers == old(handlers)
    {
      initialDurability := durability;
      return this;
    }

    /** withHandler: stores `handler` under its own supported state,
        replacing any handler registered there before (last write wins);
        every other entry stays as it was. Returns this builder. */
    method WithHandler(handler: StateHandler) returns (self: WeaponBuilder)
      requires Valid()
      modifies this
      ensures Valid()
      ensures self == this
      ensures handlers == old(handlers)[handler.SupportedState() := handler]
      ensures handler.SupportedState() in handlers && handlers[handler.SupportedState()] == handler
      ensures forall s :: s in old(handlers) && s != handler.SupportedState() ==>
                s in handlers && handlers[s] == old(handlers)[s]
      ensures initialState == old(initialState) && initialDurability == old(initialDurability)
    {
      handlers := handlers[handler.SupportedState() := handler];
      return this;
    }

    /** validateHandlers: throws IllegalStateException exactly when no
        handler is registered for IDLE. */
    function ValidateHandlers(): (o: Outcome)
      reads this
      ensures o.Pass? <==> Idle in handlers
      ensures o.Fail? ==> o.error == IllegalState
    {
      if Idle !in handlers then Fail(IllegalState) else Pass
    }

    /** build: fails exactly when IDLE has no handler, even if the initial
        state is another state without one. Otherwise a new machine starts
        with the configured state and durability and its own copy of the
        registry, which later registrations on this builder cannot reach;
        the handler objects in it are the builder's own, shared. */
    method Build() returns (r: Result<WeaponStateMachine>)
      requires Valid()
      ensures r.Failure? <==> Idle !in handlers
      ensures r.Failure? ==> r.error == IllegalState
      ensures r.Success? ==>
                fresh(r.value)
                && r.value.currentState == initialState
                && r.value.durability == initialDurability
                && r.value.handlers == handlers
                && Consistent(r.value.handlers)
    {
      var check := ValidateHandlers();
      if check.Fail? {
        return Failure(check.error);
      }
      var machine := new WeaponStateMachine(initialState, initialDurability, handlers);
      return Success(machine);
    }
  }
}
