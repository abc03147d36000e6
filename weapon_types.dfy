/** The vocabulary shared by the refactored weapon state machine: its states,
    its events, the record a handler returns, and the failures a call can end
    with. The handlers and the machine use WeaponState, WeaponEvent and
    TransitionResult; they are defined here from those uses. */
module WeaponTypes {

  /** WeaponState: the four modes of a weapon. */
  datatype WeaponState = Idle | Upgrading | Enhanced | Broken

  /** WeaponEvent: the three stimuli a weapon reacts to. */
  datatype WeaponEvent = UpgradeStart | UpgradeSuccess | UpgradeFail

  /** TransitionResult: the next state and the delta the machine adds to
      its own durability counter. */
  datatype TransitionResult = TransitionResult(newState: WeaponState, durabilityChange: int)

  /** The three kinds of exception the core throws. `IllegalState` stands
      for java.lang.IllegalStateException, thrown both by the durability
      floor of a handler and by the builder when no IDLE handler is
      registered; the exception messages are not modelled. */
  datatype Error =
    | IllegalEvent(event: WeaponEvent)
    | MissingHandler(state: WeaponState)
    | IllegalState

  /** A call that returns a value or throws. */
  datatype Result<T> = Success(value: T) | Failure(error: Error)

  /** A `void` call that completes normally or throws. */
  datatype Outcome = Pass | Fail(error: Error)
}
