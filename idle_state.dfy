/** The behaviour of IdleStateHandler as values: what a call of its
    `handleEvent` returns or throws, and what it leaves in the handler's own
    durability counter, both as functions of that counter and the event.
    The class `StateHandlers.StateHandler` is proved to do exactly this. */
module IdleState {
  import opened WeaponTypes

  /** The only event the IDLE handler accepts. */
  const AllowedEvents: seq<WeaponEvent> := [UpgradeStart]

  /** The handler's own durability must be at least this to start an upgrade. */
  const MinDurability: int := 10

  /** What starting an upgrade takes off the handler's counter, and the
      (negated) delta it reports to the machine. */
  const UpgradeCost: int := 10

  /** The outcome of `handleEvent(event)` on an IDLE handler whose own
      counter holds `durability`: the event check comes first, then the
      durability floor, then the transition to UPGRADING. It never reports
      a missing handler. */
  function IdleResponse(durability: int, event: WeaponEvent): (r: Result<TransitionResult>)
    ensures r.Failure? ==> r.error == IllegalEvent(event) || r.error == IllegalState
  {
    if event !in AllowedEvents then Failure(IllegalEvent(event))
    else if durability < MinDurability then Failure(IllegalState)
    else Success(TransitionResult(Upgrading, -UpgradeCost))
  }

  /** The handler's own counter after `handleEvent(event)`: decremented by
      the upgrade cost when, and only when, the call completes; it never
      rises. */
  function CounterAfter(durability: int, event: WeaponEvent): (c: int)
    ensures c == durability || c == durability - UpgradeCost
  {
    if IdleResponse(durability, event).Success? then durability - UpgradeCost else durability
  }

  /** Any event other than UPGRADE_START is rejected as an illegal event,
      whatever the counter holds: the event check precedes the durability
      check, so a wrong event on a worn handler still reports IllegalEvent. */
  lemma IdleRejectsOtherEvents(durability: int, event: WeaponEvent)
    requires event != UpgradeStart
    ensures IdleResponse(durability, event) == Failure(IllegalEvent(event))
    ensures CounterAfter(durability, event) == durability
  {
  }

  /** UPGRADE_START on a handler whose counter is below the floor throws
      IllegalStateException and leaves the counter alone. */
  lemma IdleDurabilityFloor(durability: int)
    requires durability < MinDurability
    ensures IdleResponse(durability, UpgradeStart) == Failure(IllegalState)
    ensures CounterAfter(durability, UpgradeStart) == durability
  {
  }

  /** The call completes exactly when the event is UPGRADE_START and the
      counter reaches the floor; it then yields (UPGRADING, -10) and takes
      10 off the handler's own counter. */
  lemma IdleSucceedsExactly(durability: int, event: WeaponEvent)
    ensures IdleResponse(durability, event).Success?
        <==> event == UpgradeStart && durability >= MinDurability
    ensures IdleResponse(durability, event).Success? ==>
              IdleResponse(durability, event).value == TransitionResult(Upgrading, -10)
              && CounterAfter(durability, event) == durability - 10
  {
  }

  /** The delta reported to the machine is the change the handler made to
      its own counter; on failure neither changes. */
  lemma ReportedDeltaMatchesOwnCounter(durability: int, event: WeaponEvent)
    ensures CounterAfter(durability, event) - durability
         == (match IdleResponse(durability, event)
             case Success(t) => t.durabilityChange
             case Failure(_) => 0)
  {
  }

  /** A handler whose counter starts non-negative never drives it below
      zero, because the floor (10) covers the cost (10). */
  lemma IdleKeepsCounterNonNegative(durability: int, event: WeaponEvent)
    requires durability >= 0
    ensures CounterAfter(durability, event) >= 0
  {
  }
}
