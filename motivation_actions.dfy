// Candidate actions for the active goal, gated by what the environment offers.
module MotivationActions {
  import opened Motivation

  /** `ActionCandidatesFor`. */
  function ActionCandidatesFor(goal: Drive, c: ActionConstraints): (r: seq<Action>)
    ensures r != []
    ensures goal == DriveEnergy ==> (ActionEat in r <==> c.hasFood) && (ActionRest in r <==> c.canRest)
    ensures goal == DriveEnergy ==> ActionHydrate in r
    ensures ActionReachOut in r <==> goal == DriveSocialConnection && c.hasPeopleNearby
    ensures ActionEat in r <==> goal == DriveEnergy && c.hasFood
    ensures goal == DriveSafety ==> (ActionRest in r <==> c.hasQuietSpace)
    ensures goal == DriveSafety ==> |r| >= 2 && r[..2] == [ActionBreathe, ActionScanArea]
    ensures goal == DriveStimulation ==> (ActionScanArea in r <==> c.canExplore) && r[0] == ActionMicroTask
    ensures goal == DriveIdentityCoherence ==> r[0] == ActionJournal && (ActionBreathe in r <==> c.hasQuietSpace)
    ensures goal !in DrivePriority ==> r == [ActionBreathe]
  {
    if goal == DriveEnergy then
      (if c.hasFood then [ActionEat] else []) + (if c.canRest then [ActionRest] else []) + [ActionHydrate]
    else if goal == DriveSocialConnection then
      (if c.hasPeopleNearby then [ActionReachOut] else []) + [ActionJournal]
    else if goal == DriveStimulation then
      if c.canExplore then [ActionMicroTask, ActionScanArea] else [ActionMicroTask]
    else if goal == DriveSafety then
      [ActionBreathe, ActionScanArea] + (if c.hasQuietSpace then [ActionRest] else [])
    else if goal == DriveIdentityCoherence then
      [ActionJournal] + (if c.hasQuietSpace then [ActionBreathe] else [])
    else [ActionBreathe]
  }

  /** Every candidate for a drive is one of the ten known actions. */
  lemma CandidatesAreKnownActions(goal: Drive, c: ActionConstraints, i: nat)
    requires i < |ActionCandidatesFor(goal, c)|
    ensures ActionCandidatesFor(goal, c)[i] in
      [ActionRest, ActionEat, ActionHydrate, ActionReachOut, ActionJournal,
       ActionBreathe, ActionScanArea, ActionSeekWarm, ActionSeekCool, ActionMicroTask]
  {
  }

  /** Without food nearby, an energy goal with all else available offers rest and hydrate. */
  lemma NoFoodNoEat()
    ensures ActionCandidatesFor(DriveEnergy, ActionConstraints(false, true, true, false, true))
         == [ActionRest, ActionHydrate]
  {
  }
}
