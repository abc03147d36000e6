/** The original monolithic Weapon: a string-valued state and a durability
    counter, changed by one nested conditional; any (state, event) pair the
    conditional does not match is silently ignored. */
module LegacyWeapon {

  /** The effect of `handleEvent(event)` on (state, durability). The
      durability changes only together with the state, and one event moves
      the state at most one stage along the path, never back. */
  function Step(state: string, durability: int, event: string): (r: (string, int))
    ensures r.0 == state ==> r.1 == durability
    ensures Stage(r.0) == Stage(state) || (r.0 != state && Stage(r.0) == Stage(state) + 1)
  {
    if state == "IDLE" then
      if event == "UPGRADE_START" then ("UPGRADING", durability - 10)
      else (state, durability)
    else if state == "UPGRADING" then
      if event == "UPGRADE_SUCCESS" then ("ENHANCED", durability + 20)
      else if event == "UPGRADE_FAIL" then ("BROKEN", 0)
      else (state, durability)
    else (state, durability)
  }

  /** The effect of feeding `events` to `handleEvent` one after another.
      The stage never goes back, so a run that ends in the state it started
      from has not changed the durability either. */
  function Run(state: string, durability: int, events: seq<string>): (r: (string, int))
    ensures Stage(state) <= Stage(r.0)
    ensures r.0 == state ==> r.1 == durability
    decreases |events|
  {
    if events == [] then (state, durability)
    else
      var (s, d) := Step(state, durability, events[0]);
      Run(s, d, events[1..])
  }

  /** The only (state, durability) pairs a weapon built by the constructor
      can ever hold. */
  predicate Reachable(state: string, durability: int)
  {
    (state, durability) in {("IDLE", 100), ("UPGRADING", 90), ("ENHANCED", 110), ("BROKEN", 0)}
  }

  /** How far along the upgrade path a state is: IDLE, then UPGRADING, then
      ENHANCED or BROKEN; any other string is outside the path. */
  function Stage(state: string): int
  {
    if state == "IDLE" then 0
    else if state == "UPGRADING" then 1
    else if state == "ENHANCED" || state == "BROKEN" then 2
    else -1
  }

  class Weapon {
    var state: string
    var durability: int

    /** The object invariant: the fields hold a reachable pair. It also
        keeps durability far inside Java's 32-bit range. */
    ghost predicate Valid()
      reads this
    {
      Reachable(state, durability)
    }

    /** A new weapon is IDLE with durability 100. */
    constructor ()
      ensures state == "IDLE" && durability == 100
      ensures Valid()
    {
      state := "IDLE";
      durability := 100;
    }

    /** handleEvent: the nested conditional on the two fields. */
    method HandleEvent(event: string)
      modifies this
      ensures (state, durability) == Step(old(state), old(durability), event)
      ensures old(Valid()) ==> Valid()
    {
      if state == "IDLE" {
        if event == "UPGRADE_START" {
          state := "UPGRADING";
          durability := durability - 10;
        }
      } else if state == "UPGRADING" {
        if event == "UPGRADE_SUCCESS" {
          state := "ENHANCED";
          durability := durability + 20;
        } else if event == "UPGRADE_FAIL" {
          state := "BROKEN";
          durability := 0;
        }
      }
      if old(Valid()) {
        StepKeepsReachable(old(state), old(durability), event);
      }
    }
  }

  /** IDLE + UPGRADE_START: UPGRADING, durability down by 10. */
  lemma IdleStartUpgrades(durability: int)
    ensures Step("IDLE", durability, "UPGRADE_START") == ("UPGRADING", durability - 10)
  {
  }

  /** UPGRADING + UPGRADE_SUCCESS: ENHANCED, durability up by 20;
      UPGRADING + UPGRADE_FAIL: BROKEN, durability set to 0. */
  lemma UpgradingResolves(durability: int)
    ensures Step("UPGRADING", durability, "UPGRADE_SUCCESS") == ("ENHANCED", durability + 20)
    ensures Step("UPGRADING", durability, "UPGRADE_FAIL") == ("BROKEN", 0)
  {
  }

  /** Every pair other than the three above, including every event in
      ENHANCED or BROKEN and every unknown string, changes nothing. */
  lemma UnmatchedEventsIgnored(state: string, durability: int, event: string)
    requires !(state == "IDLE" && event == "UPGRADE_START")
    requires !(state == "UPGRADING" && (event == "UPGRADE_SUCCESS" || event == "UPGRADE_FAIL"))
    ensures Step(state, durability, event) == (state, durability)
  {
  }

  /** One event keeps a reachable pair reachable. */
  lemma StepKeepsReachable(state: string, durability: int, event: string)
    requires Reachable(state, durability)
    ensures var (s, d) := Step(state, durability, event);
            Reachable(s, d)
  {
  }

  /** Any sequence of events keeps a reachable pair reachable. */
  lemma {:induction false} RunKeepsReachable(state: string, durability: int, events: seq<string>)
    requires Reachable(state, durability)
    ensures var (s, d) := Run(state, durability, events);
            Reachable(s, d)
    decreases |events|
  {
    if events != [] {
      var (s, d) := Step(state, durability, events[0]);
      StepKeepsReachable(state, durability, events[0]);
      RunKeepsReachable(s, d, events[1..]);
    }
  }

  /** From a new weapon, every sequence of events ends at durability 100,
      90, 110 or 0, in the state that goes with it. */
  lemma InitialRunsReachable(events: seq<string>)
    ensures var (s, d) := Run("IDLE", 100, events);
            Reachable(s, d) && d in {100, 90, 110, 0}
  {
    RunKeepsReachable("IDLE", 100, events);
  }

  /** ENHANCED and BROKEN are terminal: no sequence of events leaves them
      or changes the durability. */
  lemma {:induction false} TerminalStatesAbsorb(state: string, durability: int, events: seq<string>)
    requires state == "ENHANCED" || state == "BROKEN"
    ensures Run(state, durability, events) == (state, durability)
    decreases |events|
  {
    if events != [] {
      TerminalStatesAbsorb(state, durability, events[1..]);
    }
  }

  /** Along any sequence of events the stage never decreases and ends no
      further than the number of events past where it started. */
  lemma {:induction false} RunStageBounded(state: string, durability: int, events: seq<string>)
    ensures var (s, _) := Run(state, durability, events);
            Stage(state) <= Stage(s) <= Stage(state) + |events|
    decreases |events|
  {
    if events != [] {
      var (s, d) := Step(state, durability, events[0]);
      RunStageBounded(s, d, events[1..]);
    }
  }
}
