/** How the refactored IDLE handler relates to the legacy Weapon's IDLE
    branch, with states and events named as the Java enum constants are. */
module Comparison {
  import opened WeaponTypes
  import IdleState
  import LegacyWeapon

  /** The `name()` of a WeaponState constant. */
  function StateName(s: WeaponState): string
  {
    match s
    case Idle => "IDLE"
    case Upgrading => "UPGRADING"
    case Enhanced => "ENHANCED"
    case Broken => "BROKEN"
  }

  /** The `name()` of a WeaponEvent constant. */
  function EventName(e: WeaponEvent): string
  {
    match e
    case UpgradeStart => "UPGRADE_START"
    case UpgradeSuccess => "UPGRADE_SUCCESS"
    case UpgradeFail => "UPGRADE_FAIL"
  }

  /** Where the IDLE handler completes, the legacy weapon in IDLE makes the
      same transition with the same durability change. Where the handler
      rejects an event, the legacy weapon ignores it silently. Where the
      handler's floor applies (counter below 10), the legacy weapon still
      upgrades, because it has no floor at all. */
  lemma IdleHandlerMatchesLegacy(durability: int, event: WeaponEvent)
    ensures IdleState.IdleResponse(durability, event).Success? ==>
              var t := IdleState.IdleResponse(durability, event).value;
              LegacyWeapon.Step("IDLE", durability, EventName(event))
                == (StateName(t.newState), durability + t.durabilityChange)
    ensures IdleState.IdleResponse(durability, event).Failure?
            && IdleState.IdleResponse(durability, event).error.IllegalEvent? ==>
              LegacyWeapon.Step("IDLE", durability, EventName(event)) == ("IDLE", durability)
    ensures IdleState.IdleResponse(durability, event) == Failure(IllegalState) ==>
              LegacyWeapon.Step("IDLE", durability, EventName(event)) == ("UPGRADING", durability - 10)
  {
  }
}
