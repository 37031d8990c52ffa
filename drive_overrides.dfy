// Perceived drive overrides reported by the model: an override may raise a
// drive freely but can lower it only to half of its raw value. The drives
// are then ranked, and the top one becomes the active goal.
module DriveOverrides {
  import opened BioState
  import opened Motivation

  datatype RankedDrive = RankedDrive(drive: Drive, urgency: real, priority: int)

  /** The tie-break priority map; a string that is no drive reads as 0. */
  function PriorityOf(d: Drive): (p: int)
    ensures d in DrivePriority ==> p == PriorityIndex(d)
    ensures d !in DrivePriority ==> p == 0
  {
    if d == DriveSafety then 0
    else if d == DriveEnergy then 1
    else if d == DriveSocialConnection then 2
    else if d == DriveIdentityCoherence then 3
    else if d == DriveStimulation then 4
    else 0
  }

  /** `effectiveDrive`. */
  function EffectiveDrive(raw: real, overrides: map<Drive, real>, d: Drive): (r: real)
    ensures InUnit(r)
    ensures d !in overrides ==> r == Clamp01(raw)
    ensures d in overrides ==> r >= Clamp01(overrides[d]) && r >= 0.5 * Clamp01(raw)
    ensures d in overrides ==> r == Clamp01(overrides[d]) || r == 0.5 * Clamp01(raw)
  {
    var rawClamped := Clamp01(raw);
    if d !in overrides then rawClamped
    else
      var overrideClamped := Clamp01(overrides[d]);
      var floor := rawClamped * 0.5;
      if overrideClamped > floor then overrideClamped else floor
  }

  /** The `sort.Slice` comparator: higher urgency first, then lower priority. */
  predicate Before(a: RankedDrive, b: RankedDrive)
  {
    if a.urgency == b.urgency then a.priority < b.priority else a.urgency > b.urgency
  }

  lemma NotBeforeTransitive(a: RankedDrive, b: RankedDrive, c: RankedDrive)
    requires !Before(a, b) && !Before(b, c)
    ensures !Before(a, c)
  {
  }

  predicate Sorted(s: seq<RankedDrive>)
  {
    forall i, j :: 0 <= i < j < |s| ==> !Before(s[j], s[i])
  }

  /** Insert into a sorted list before the first entry it ranks ahead of. */
  function Insert(x: RankedDrive, s: seq<RankedDrive>): (r: seq<RankedDrive>)
    requires Sorted(s)
    ensures Sorted(r)
    ensures multiset(r) == multiset(s) + multiset{x}
    decreases |s|
  {
    if s == [] || Before(x, s[0]) then
      InsertFrontSorted(x, s);
      [x] + s
    else
      var rest := Insert(x, s[1..]);
      InsertBehindHead(x, s, rest);
      assert s == [s[0]] + s[1..];
      [s[0]] + rest
  }

  lemma InsertFrontSorted(x: RankedDrive, s: seq<RankedDrive>)
    requires Sorted(s)
    requires s == [] || Before(x, s[0])
    ensures Sorted([x] + s)
  {
    if s != [] {
      forall j | 0 <= j < |s|
        ensures !Before(s[j], x)
      {
        if j > 0 {
          assert !Before(s[j], s[0]);
        }
      }
    }
  }

  lemma InsertBehindHead(x: RankedDrive, s: seq<RankedDrive>, rest: seq<RankedDrive>)
    requires Sorted(s) && s != [] && !Before(x, s[0])
    requires Sorted(rest) && multiset(rest) == multiset(s[1..]) + multiset{x}
    ensures Sorted([s[0]] + rest)
  {
    forall j | 0 <= j < |rest|
      ensures !Before(rest[j], s[0])
    {
      assert rest[j] in multiset(rest);
      if rest[j] != x {
        assert rest[j] in multiset(s[1..]);
        var k :| 0 <= k < |s[1..]| && s[1..][k] == rest[j];
        assert s[k + 1] == rest[j];
      }
    }
  }

  /** Insertion sort by the comparator. */
  function SortRanked(s: seq<RankedDrive>): (r: seq<RankedDrive>)
    ensures Sorted(r)
    ensures multiset(r) == multiset(s)
    decreases |s|
  {
    if s == [] then []
    else
      assert s == [s[0]] + s[1..];
      Insert(s[0], SortRanked(s[1..]))
  }

  /** The five drives with clamped urgencies, in declaration order. */
  function RankEntries(m: MotivationState): seq<RankedDrive>
  {
    [RankedDrive(DriveEnergy, Clamp01(m.energyUrgency), PriorityOf(DriveEnergy)),
     RankedDrive(DriveSocialConnection, Clamp01(m.socialUrgency), PriorityOf(DriveSocialConnection)),
     RankedDrive(DriveStimulation, Clamp01(m.stimulationUrgency), PriorityOf(DriveStimulation)),
     RankedDrive(DriveSafety, Clamp01(m.safetyUrgency), PriorityOf(DriveSafety)),
     RankedDrive(DriveIdentityCoherence, Clamp01(m.identityUrgency), PriorityOf(DriveIdentityCoherence))]
  }

  /** `rankedDrives`: the five entries, sorted. */
  function RankedDrives(m: MotivationState): (r: seq<RankedDrive>)
    ensures Sorted(r)
    ensures multiset(r) == multiset(RankEntries(m))
    ensures |r| == 5
  {
    var r := SortRanked(RankEntries(m));
    assert |r| == |multiset(r)| == |multiset(RankEntries(m))| == 5;
    r
  }

  /** Higher urgency first; on equal urgency the lower priority index first. */
  lemma RankedDrivesOrder(m: MotivationState, i: int, j: int)
    requires 0 <= i < j < 5
    ensures RankedDrives(m)[i].urgency >= RankedDrives(m)[j].urgency
    ensures RankedDrives(m)[i].urgency == RankedDrives(m)[j].urgency ==>
      RankedDrives(m)[i].priority <= RankedDrives(m)[j].priority
  {
    assert !Before(RankedDrives(m)[j], RankedDrives(m)[i]);
  }

  lemma NotBeforeSelf(e: RankedDrive)
    ensures !Before(e, e)
  {
  }

  /** Every ranked entry ranks no higher than the head of a sorted list. */
  lemma HeadRanksFirst(s: seq<RankedDrive>, e: RankedDrive)
    requires Sorted(s) && e in s
    ensures !Before(e, s[0])
  {
    var j :| 0 <= j < |s| && s[j] == e;
    if j == 0 {
      NotBeforeSelf(e);
    }
  }

  /** The head of a sorted permutation ranks at least as high as every entry. */
  lemma HeadDominates(entries: seq<RankedDrive>, ordered: seq<RankedDrive>)
    requires Sorted(ordered) && multiset(ordered) == multiset(entries) && |ordered| > 0
    ensures ordered[0] in entries
    ensures forall i :: 0 <= i < |entries| ==> !Before(entries[i], ordered[0])
  {
    assert ordered[0] in multiset(entries);
    forall i | 0 <= i < |entries|
      ensures !Before(entries[i], ordered[0])
    {
      assert entries[i] in multiset(ordered);
      HeadRanksFirst(ordered, entries[i]);
    }
  }

  /** A drive that ranks no higher than `top` has no higher urgency, and on a tie no lower priority index. */
  lemma NotBeforeMeans(e: RankedDrive, top: RankedDrive)
    requires !Before(e, top)
    ensures e.urgency <= top.urgency
    ensures e.urgency == top.urgency ==> top.priority <= e.priority
  {
  }

  /** Urgencies already in [0,1] rank unchanged, so the head is the first maximum in priority order. */
  lemma RankedHeadIsActiveGoal(m: MotivationState, ordered: seq<RankedDrive>)
    requires InUnit(m.energyUrgency) && InUnit(m.socialUrgency) && InUnit(m.stimulationUrgency)
    requires InUnit(m.safetyUrgency) && InUnit(m.identityUrgency)
    requires Sorted(ordered) && multiset(ordered) == multiset(RankEntries(m)) && |ordered| > 0
    ensures IsActiveGoal(m, ordered[0].drive, ordered[0].urgency)
  {
    HeadDominates(RankEntries(m), ordered);
    DominantEntryIsActiveGoal(m, ordered[0]);
  }

  /** An entry that no entry ranks ahead of is the active goal. */
  lemma DominantEntryIsActiveGoal(m: MotivationState, top: RankedDrive)
    requires InUnit(m.energyUrgency) && InUnit(m.socialUrgency) && InUnit(m.stimulationUrgency)
    requires InUnit(m.safetyUrgency) && InUnit(m.identityUrgency)
    requires top in RankEntries(m)
    requires forall i :: 0 <= i < |RankEntries(m)| ==> !Before(RankEntries(m)[i], top)
    ensures IsActiveGoal(m, top.drive, top.urgency)
  {
    var entries := RankEntries(m);
    var e0, e1, e2, e3, e4 := entries[0], entries[1], entries[2], entries[3], entries[4];
    assert e0 == RankedDrive(DriveEnergy, m.energyUrgency, 1);
    assert e1 == RankedDrive(DriveSocialConnection, m.socialUrgency, 2);
    assert e2 == RankedDrive(DriveStimulation, m.stimulationUrgency, 4);
    assert e3 == RankedDrive(DriveSafety, m.safetyUrgency, 0);
    assert e4 == RankedDrive(DriveIdentityCoherence, m.identityUrgency, 3);
    NotBeforeMeans(e0, top);
    NotBeforeMeans(e1, top);
    NotBeforeMeans(e2, top);
    NotBeforeMeans(e3, top);
    NotBeforeMeans(e4, top);
    assert top == e0 || top == e1 || top == e2 || top == e3 || top == e4;
    assert Urgency(m, DrivePriority[0]) == e3.urgency;
    assert Urgency(m, DrivePriority[1]) == e0.urgency;
    assert Urgency(m, DrivePriority[2]) == e1.urgency;
    assert Urgency(m, DrivePriority[3]) == e4.urgency;
    assert Urgency(m, DrivePriority[4]) == e2.urgency;
    assert top.drive in DrivePriority && top.urgency == Urgency(m, top.drive);
    assert top.priority == PriorityIndex(top.drive);
  }

  /** The five urgencies after overrides, the goal fields untouched. */
  function EffectiveUrgencies(raw: MotivationState, overrides: map<Drive, real>): (m: MotivationState)
    ensures m.energyUrgency == EffectiveDrive(raw.energyUrgency, overrides, DriveEnergy)
    ensures m.socialUrgency == EffectiveDrive(raw.socialUrgency, overrides, DriveSocialConnection)
    ensures m.stimulationUrgency == EffectiveDrive(raw.stimulationUrgency, overrides, DriveStimulation)
    ensures m.safetyUrgency == EffectiveDrive(raw.safetyUrgency, overrides, DriveSafety)
    ensures m.identityUrgency == EffectiveDrive(raw.identityUrgency, overrides, DriveIdentityCoherence)
  {
    raw.(
      energyUrgency := EffectiveDrive(raw.energyUrgency, overrides, DriveEnergy),
      socialUrgency := EffectiveDrive(raw.socialUrgency, overrides, DriveSocialConnection),
      stimulationUrgency := EffectiveDrive(raw.stimulationUrgency, overrides, DriveStimulation),
      safetyUrgency := EffectiveDrive(raw.safetyUrgency, overrides, DriveSafety),
      identityUrgency := EffectiveDrive(raw.identityUrgency, overrides, DriveIdentityCoherence))
  }

  /** Whether a drive is the active goal depends on the five urgencies only. */
  lemma ActiveGoalIgnoresGoalFields(m: MotivationState, r: MotivationState, d: Drive, v: real)
    requires r.energyUrgency == m.energyUrgency && r.socialUrgency == m.socialUrgency
    requires r.stimulationUrgency == m.stimulationUrgency && r.safetyUrgency == m.safetyUrgency
    requires r.identityUrgency == m.identityUrgency
    requires IsActiveGoal(m, d, v)
    ensures IsActiveGoal(r, d, v)
  {
    assert forall e :: Urgency(r, e) == Urgency(m, e);
  }

  /** The head of the ranking installed as active goal. */
  function WithRankedGoal(m: MotivationState): (r: MotivationState)
    requires InUnit(m.energyUrgency) && InUnit(m.socialUrgency) && InUnit(m.stimulationUrgency)
    requires InUnit(m.safetyUrgency) && InUnit(m.identityUrgency)
    ensures r.energyUrgency == m.energyUrgency && r.socialUrgency == m.socialUrgency
    ensures r.stimulationUrgency == m.stimulationUrgency && r.safetyUrgency == m.safetyUrgency
    ensures r.identityUrgency == m.identityUrgency
    ensures IsActiveGoal(r, r.activeGoalDrive, r.activeGoalUrgency)
    ensures r.activeGoalDrive == RankedDrives(m)[0].drive && r.activeGoalUrgency == RankedDrives(m)[0].urgency
  {
    var ordered := RankedDrives(m);
    RankedHeadIsActiveGoal(m, ordered);
    var r := m.(activeGoalDrive := ordered[0].drive, activeGoalUrgency := ordered[0].urgency);
    ActiveGoalIgnoresGoalFields(m, r, ordered[0].drive, ordered[0].urgency);
    r
  }

  /** `ApplyDriveOverrides`: effective urgencies, then the head of the ranking as active goal. */
  function ApplyDriveOverrides(raw: MotivationState, overrides: map<Drive, real>): (result: MotivationState)
    ensures result.energyUrgency == EffectiveDrive(raw.energyUrgency, overrides, DriveEnergy)
    ensures result.socialUrgency == EffectiveDrive(raw.socialUrgency, overrides, DriveSocialConnection)
    ensures result.stimulationUrgency == EffectiveDrive(raw.stimulationUrgency, overrides, DriveStimulation)
    ensures result.safetyUrgency == EffectiveDrive(raw.safetyUrgency, overrides, DriveSafety)
    ensures result.identityUrgency == EffectiveDrive(raw.identityUrgency, overrides, DriveIdentityCoherence)
    ensures IsActiveGoal(result, result.activeGoalDrive, result.activeGoalUrgency)
  {
    WithRankedGoal(EffectiveUrgencies(raw, overrides))
  }

  /** The overridden goal is the one the motivation layer's own scan would select. */
  lemma OverrideGoalAgreesWithScan(raw: MotivationState, overrides: map<Drive, real>)
    ensures var r := ApplyDriveOverrides(raw, overrides);
      SelectActiveGoal(r) == (r.activeGoalDrive, r.activeGoalUrgency)
  {
    var r := ApplyDriveOverrides(raw, overrides);
    var g := SelectActiveGoal(r);
    ActiveGoalUnique(r, g.0, g.1, r.activeGoalDrive, r.activeGoalUrgency);
  }

  /** A low report cannot pull energy 0.8 below half of it. */
  lemma HalfRawFloorExample()
    ensures ApplyDriveOverrides(MotivationState(0.8, 0.2, 0.1, 0.3, 0.1, DriveEnergy, 0.8),
                                map[DriveEnergy := 0.1]).energyUrgency == 0.4
  {
  }

  /** A higher report wins outright and recomputes the goal. */
  lemma HigherReportWinsExample(raw: MotivationState)
    requires raw.energyUrgency == 0.2 && raw.socialUrgency == 0.3 && raw.stimulationUrgency == 0.1
    requires raw.safetyUrgency == 0.1 && raw.identityUrgency == 0.1
    ensures var r := ApplyDriveOverrides(raw, map[DriveEnergy := 0.9]);
      r.energyUrgency == 0.9 && r.activeGoalDrive == DriveEnergy
  {
    var overrides := map[DriveEnergy := 0.9];
    var r := ApplyDriveOverrides(raw, overrides);
    assert r.energyUrgency == 0.9;
    assert DriveSocialConnection !in overrides && DriveStimulation !in overrides;
    assert DriveSafety !in overrides && DriveIdentityCoherence !in overrides;
    assert IsActiveGoal(r, DriveEnergy, 0.9) by {
      assert Urgency(r, DrivePriority[0]) == 0.1 && Urgency(r, DrivePriority[1]) == 0.9;
      assert Urgency(r, DrivePriority[2]) == 0.3 && Urgency(r, DrivePriority[3]) == 0.1;
      assert Urgency(r, DrivePriority[4]) == 0.1;
    }
    ActiveGoalUnique(r, DriveEnergy, 0.9, r.activeGoalDrive, r.activeGoalUrgency);
  }

  /** Out-of-range raw values and reports are clamped before they are compared. */
  lemma ClampsInputsExample()
    ensures var r := ApplyDriveOverrides(MotivationState(1.5, -0.2, 0.1, 0.1, 0.1, DriveEnergy, 1.0),
                                         map[DriveEnergy := -3.0, DriveSocialConnection := 3.0]);
      r.energyUrgency == 0.5 && r.socialUrgency == 1.0
  {
  }
}
