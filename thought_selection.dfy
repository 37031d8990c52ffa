// Spontaneous thoughts: on scheduled ticks the most urgent drive surfaces as a
// thought; when no drive is pressing, an associative drift surfaces instead.
module ThoughtSelection {
  import opened Wrappers
  import opened BioState
  import opened Motivation
  import opened ConsciousnessTypes
  import opened DriveOverrides

  const DriftText: string := "A loose associative thread drifts into awareness."

  /** `TickSchedule.due`: only positive ticks on a positive period fire. */
  predicate Due(schedule: TickSchedule, tick: int)
  {
    if schedule.everyTicks <= 0 || tick <= 0 then false
    else tick % schedule.everyTicks == 0
  }

  /** Firing happens exactly on the positive multiples of a positive period. */
  lemma DueIffMultiple(schedule: TickSchedule, tick: int)
    ensures Due(schedule, tick) <==>
      schedule.everyTicks > 0 && tick > 0 && tick == (tick / schedule.everyTicks) * schedule.everyTicks
  {
  }

  /** A period of 3 fires on tick 6 but a period of 4 not on tick 3; tick 0 never fires. */
  lemma DueExamples(schedule: TickSchedule)
    ensures Due(TickSchedule(3), 6) && !Due(TickSchedule(4), 3)
    ensures !Due(schedule, 0) && !Due(TickSchedule(0), 6)
  {
  }

  const FallbackDriveText: string := "A regulatory need keeps resurfacing."

  /** `driveThoughtText`: each of the five drives has its own text; only an unknown drive gets the fallback. */
  function DriveThoughtText(d: Drive): (text: string)
    ensures text == FallbackDriveText <==> d !in DrivePriority
  {
    if d == DriveEnergy then "Food and recovery keep intruding into thought."
    else if d == DriveSocialConnection then "The need for contact keeps returning to mind."
    else if d == DriveStimulation then "A search for novelty keeps tugging at attention."
    else if d == DriveSafety then "Threat-checking keeps cycling through awareness."
    else if d == DriveIdentityCoherence then "A need to make sense of self keeps pressing forward."
    else FallbackDriveText
  }

  /** `SelectSpontaneousThought`; `None` stands for the `false` flag. */
  function SelectSpontaneousThought(m: MotivationState, schedule: TickSchedule, tick: int): (r: Option<Thought>)
    ensures r.None? <==> !Due(schedule, tick)
    ensures r.Some? && RankedDrives(m)[0].urgency <= 0.0 ==>
      r.value == Thought(ThoughtCategoryAssociativeDrift, "", DriftText)
    ensures r.Some? && RankedDrives(m)[0].urgency > 0.0 ==>
      r.value == Thought(ThoughtCategoryDrive, RankedDrives(m)[0].drive, DriveThoughtText(RankedDrives(m)[0].drive))
  {
    if !Due(schedule, tick) then None
    else
      var ordered := RankedDrives(m);
      if |ordered| == 0 || ordered[0].urgency <= 0.0 then
        Some(Thought(ThoughtCategoryAssociativeDrift, "", DriftText))
      else
        var top := ordered[0];
        Some(Thought(ThoughtCategoryDrive, top.drive, DriveThoughtText(top.drive)))
  }

  /** The urgencies clamped to [0,1], the goal fields untouched. */
  function ClampedUrgencies(m: MotivationState): (c: MotivationState)
    ensures InUnit(c.energyUrgency) && InUnit(c.socialUrgency) && InUnit(c.stimulationUrgency)
    ensures InUnit(c.safetyUrgency) && InUnit(c.identityUrgency)
  {
    m.(energyUrgency := Clamp01(m.energyUrgency),
       socialUrgency := Clamp01(m.socialUrgency),
       stimulationUrgency := Clamp01(m.stimulationUrgency),
       safetyUrgency := Clamp01(m.safetyUrgency),
       identityUrgency := Clamp01(m.identityUrgency))
  }

  /**
   * A drive thought is about the first drive, in priority order, of highest
   * clamped urgency; drift comes exactly when no clamped urgency is positive.
   */
  lemma ThoughtFollowsTopDrive(m: MotivationState, schedule: TickSchedule, tick: int)
    requires Due(schedule, tick)
    ensures var r := SelectSpontaneousThought(m, schedule, tick);
      r.Some? && (r.value.category == ThoughtCategoryDrive <==>
        exists k :: 0 <= k < |DrivePriority| && Urgency(ClampedUrgencies(m), DrivePriority[k]) > 0.0)
    ensures var r := SelectSpontaneousThought(m, schedule, tick);
      r.value.category == ThoughtCategoryDrive ==>
        IsActiveGoal(ClampedUrgencies(m), r.value.drive, Urgency(ClampedUrgencies(m), r.value.drive))
  {
    var c := ClampedUrgencies(m);
    var ordered := RankedDrives(m);
    assert RankEntries(c) == RankEntries(m);
    RankedHeadIsActiveGoal(c, ordered);
    var top := ordered[0];
    if exists k :: 0 <= k < |DrivePriority| && Urgency(c, DrivePriority[k]) > 0.0 {
      var k :| 0 <= k < |DrivePriority| && Urgency(c, DrivePriority[k]) > 0.0;
      assert Urgency(c, DrivePriority[k]) <= top.urgency;
    } else {
      assert Urgency(c, top.drive) == top.urgency;
      assert top.drive == DrivePriority[PriorityIndex(top.drive)];
    }
  }

  /** When no urgency is positive, a due tick yields associative drift. */
  lemma NoPressingDriveDrifts(m: MotivationState, schedule: TickSchedule, tick: int)
    requires Due(schedule, tick)
    requires m.energyUrgency <= 0.0 && m.socialUrgency <= 0.0 && m.stimulationUrgency <= 0.0
    requires m.safetyUrgency <= 0.0 && m.identityUrgency <= 0.0
    ensures SelectSpontaneousThought(m, schedule, tick) == Some(Thought(ThoughtCategoryAssociativeDrift, "", DriftText))
  {
    ThoughtFollowsTopDrive(m, schedule, tick);
    var c := ClampedUrgencies(m);
    assert forall k :: 0 <= k < |DrivePriority| ==> Urgency(c, DrivePriority[k]) == 0.0;
  }

  /** A positive drive strictly above the other four (after clamping) surfaces as the thought. */
  lemma StrictlyTopDriveSurfaces(m: MotivationState, schedule: TickSchedule, tick: int, d: Drive)
    requires Due(schedule, tick) && d in DrivePriority
    requires Urgency(m, d) > 0.0
    requires forall k :: 0 <= k < |DrivePriority| && DrivePriority[k] != d ==>
      Clamp01(Urgency(m, DrivePriority[k])) < Clamp01(Urgency(m, d))
    ensures SelectSpontaneousThought(m, schedule, tick) == Some(Thought(ThoughtCategoryDrive, d, DriveThoughtText(d)))
  {
    ThoughtFollowsTopDrive(m, schedule, tick);
    var c := ClampedUrgencies(m);
    var k := PriorityIndex(d);
    ClampedUrgency(m, d);
    assert Urgency(c, DrivePriority[k]) > 0.0;
    var g := SelectSpontaneousThought(m, schedule, tick).value;
    assert g.category == ThoughtCategoryDrive;
    if g.drive != d {
      ClampedUrgency(m, g.drive);
      assert false;
    }
  }

  lemma ClampedUrgency(m: MotivationState, d: Drive)
    ensures d in DrivePriority ==> Urgency(ClampedUrgencies(m), d) == Clamp01(Urgency(m, d))
  {
  }

  /** Safety at 0.9 against 0.1 elsewhere, on tick 6 of a period of 3, surfaces a safety thought. */
  lemma SafetyThoughtExample(m: MotivationState)
    requires m == MotivationState(0.1, 0.1, 0.1, 0.9, 0.1, DriveSafety, 0.9)
    ensures SelectSpontaneousThought(m, TickSchedule(3), 6)
      == Some(Thought(ThoughtCategoryDrive, DriveSafety, "Threat-checking keeps cycling through awareness."))
  {
    StrictlyTopDriveSurfaces(m, TickSchedule(3), 6, DriveSafety);
  }

  /** Tick 3 is not due on a period of 4. */
  lemma OffTickSilentExample(m: MotivationState)
    ensures SelectSpontaneousThought(m, TickSchedule(4), 3) == None
  {
  }
}
