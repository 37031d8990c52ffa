// Which drives moved enough between two motivation states to be reported.
module DriveDisplay {
  import opened Motivation

  datatype DriveChange = DriveChange(name: Drive, previous: real, current: real)

  /** The fixed reporting order. */
  const ReportOrder: seq<Drive> :=
    [DriveEnergy, DriveSocialConnection, DriveStimulation, DriveSafety, DriveIdentityCoherence]

  predicate Significant(previous: MotivationState, current: MotivationState, d: Drive, threshold: real)
  {
    Abs(Urgency(current, d) - Urgency(previous, d)) >= threshold
  }

  /** The changes among `drives`, in their order, that meet the threshold. */
  function ChangesAmong(drives: seq<Drive>, previous: MotivationState, current: MotivationState, threshold: real)
    : seq<DriveChange>
    decreases |drives|
  {
    if drives == [] then []
    else
      var d := drives[0];
      var rest := ChangesAmong(drives[1..], previous, current, threshold);
      if Significant(previous, current, d, threshold) then
        [DriveChange(d, Urgency(previous, d), Urgency(current, d))] + rest
      else rest
  }

  /** At most one change per drive, and only for the drives scanned. */
  lemma {:induction false} ChangesAmongBounds(drives: seq<Drive>, previous: MotivationState, current: MotivationState,
                                              threshold: real)
    ensures var out := ChangesAmong(drives, previous, current, threshold);
      |out| <= |drives| && forall c :: c in out ==> c.name in drives
    decreases |drives|
  {
    if drives != [] {
      ChangesAmongBounds(drives[1..], previous, current, threshold);
    }
  }

  /** A change is reported for a drive iff it is significant, and carries both urgencies. */
  lemma {:induction false} ChangesAmongMembers(drives: seq<Drive>, previous: MotivationState, current: MotivationState,
                                               threshold: real)
    ensures var out := ChangesAmong(drives, previous, current, threshold);
      forall c :: c in out ==>
        Significant(previous, current, c.name, threshold)
        && c.previous == Urgency(previous, c.name) && c.current == Urgency(current, c.name)
    ensures var out := ChangesAmong(drives, previous, current, threshold);
      forall d :: d in drives && Significant(previous, current, d, threshold) ==>
        DriveChange(d, Urgency(previous, d), Urgency(current, d)) in out
    decreases |drives|
  {
    if drives != [] {
      ChangesAmongMembers(drives[1..], previous, current, threshold);
      assert forall d :: d in drives ==> d == drives[0] || d in drives[1..];
    }
  }

  /** The changes `SignificantDriveChanges` reports; a negative threshold counts as zero. */
  function ReportedChanges(previous: MotivationState, current: MotivationState, threshold: real)
    : (out: seq<DriveChange>)
    ensures forall d :: d in ReportOrder ==>
      (Significant(previous, current, d, if threshold < 0.0 then 0.0 else threshold)
       <==> DriveChange(d, Urgency(previous, d), Urgency(current, d)) in out)
    ensures |out| <= |ReportOrder| && forall c :: c in out ==> c.name in ReportOrder
  {
    var t := if threshold < 0.0 then 0.0 else threshold;
    ChangesAmongMembers(ReportOrder, previous, current, t);
    ChangesAmongBounds(ReportOrder, previous, current, t);
    ChangesAmong(ReportOrder, previous, current, t)
  }

  /** `SignificantDriveChanges`: one pass over the fixed order, keeping each drive that moved enough. */
  method SignificantDriveChanges(previous: MotivationState, current: MotivationState, threshold: real)
    returns (out: seq<DriveChange>)
    ensures out == ReportedChanges(previous, current, threshold)
  {
    var t := threshold;
    if t < 0.0 {
      t := 0.0;
    }
    out := CollectChanges(ReportOrder, previous, current, t);
  }

  /** The loop of `SignificantDriveChanges` over a list of drives. */
  method CollectChanges(drives: seq<Drive>, previous: MotivationState, current: MotivationState, threshold: real)
    returns (out: seq<DriveChange>)
    ensures out == ChangesAmong(drives, previous, current, threshold)
  {
    out := [];
    var i := 0;
    while i < |drives|
      invariant 0 <= i <= |drives|
      invariant out + ChangesAmong(drives[i..], previous, current, threshold) == ChangesAmong(drives, previous, current, threshold)
    {
      var drive := drives[i];
      var prevValue := Urgency(previous, drive);
      var currValue := Urgency(current, drive);
      ChangesAmongStep(drives, i, previous, current, threshold);
      if Abs(currValue - prevValue) >= threshold {
        out := out + [DriveChange(drive, prevValue, currValue)];
      }
      i := i + 1;
    }
    assert drives[i..] == [];
  }

  /** One step of the scan: the drive at position i is kept or skipped, then the scan goes on. */
  lemma ChangesAmongStep(drives: seq<Drive>, i: nat, previous: MotivationState, current: MotivationState, threshold: real)
    requires i < |drives|
    ensures var d := drives[i];
      ChangesAmong(drives[i..], previous, current, threshold)
      == (if Significant(previous, current, d, threshold) then [DriveChange(d, Urgency(previous, d), Urgency(current, d))] else [])
         + ChangesAmong(drives[i + 1..], previous, current, threshold)
  {
    assert drives[i..][0] == drives[i] && drives[i..][1..] == drives[i + 1..];
  }

  /** Position of a drive in the reporting order. */
  function OrderIndex(d: Drive): int
  {
    if d == DriveEnergy then 0
    else if d == DriveSocialConnection then 1
    else if d == DriveStimulation then 2
    else if d == DriveSafety then 3
    else if d == DriveIdentityCoherence then 4
    else 5
  }

  predicate RankOrdered(out: seq<DriveChange>, rank: Drive -> int)
  {
    forall i, j :: 0 <= i < j < |out| ==> rank(out[i].name) < rank(out[j].name)
  }

  /** Filtering keeps any strict order the drives were in. */
  lemma {:induction false} ChangesKeepOrder(drives: seq<Drive>, rank: Drive -> int, previous: MotivationState,
                                            current: MotivationState, threshold: real)
    requires forall i, j :: 0 <= i < j < |drives| ==> rank(drives[i]) < rank(drives[j])
    ensures RankOrdered(ChangesAmong(drives, previous, current, threshold), rank)
    decreases |drives|
  {
    if drives != [] {
      var d := drives[0];
      var rest := ChangesAmong(drives[1..], previous, current, threshold);
      ChangesKeepOrder(drives[1..], rank, previous, current, threshold);
      ChangesAmongBounds(drives[1..], previous, current, threshold);
      if Significant(previous, current, d, threshold) {
        HeadRanksFirst(drives, rank);
        ConsOrdered(DriveChange(d, Urgency(previous, d), Urgency(current, d)), rest, rank);
      }
    }
  }

  lemma HeadRanksFirst(drives: seq<Drive>, rank: Drive -> int)
    requires drives != []
    requires forall i, j :: 0 <= i < j < |drives| ==> rank(drives[i]) < rank(drives[j])
    ensures forall x :: x in drives[1..] ==> rank(drives[0]) < rank(x)
  {
    forall x | x in drives[1..] ensures rank(drives[0]) < rank(x) {
      var m :| 0 <= m < |drives[1..]| && drives[1..][m] == x;
      assert drives[m + 1] == x;
    }
  }

  lemma ConsOrdered(h: DriveChange, rest: seq<DriveChange>, rank: Drive -> int)
    requires RankOrdered(rest, rank)
    requires forall c :: c in rest ==> rank(h.name) < rank(c.name)
    ensures RankOrdered([h] + rest, rank)
  {
    var out := [h] + rest;
    forall i, j | 0 <= i < j < |out|
      ensures rank(out[i].name) < rank(out[j].name)
    {
      assert out[j] == rest[j - 1];
      if i == 0 {
        assert rest[j - 1] in rest;
      } else {
        assert out[i] == rest[i - 1];
      }
    }
  }

  /** Drives are reported in the fixed order energy, social, stimulation, safety, identity. */
  lemma ReportedInFixedOrder(previous: MotivationState, current: MotivationState, threshold: real, i: int, j: int)
    requires 0 <= i < j < |ReportedChanges(previous, current, threshold)|
    ensures OrderIndex(ReportedChanges(previous, current, threshold)[i].name)
      < OrderIndex(ReportedChanges(previous, current, threshold)[j].name)
  {
    var t := if threshold < 0.0 then 0.0 else threshold;
    assert forall i, j :: 0 <= i < j < |ReportOrder| ==> OrderIndex(ReportOrder[i]) < OrderIndex(ReportOrder[j]);
    ChangesKeepOrder(ReportOrder, OrderIndex, previous, current, t);
    assert ReportedChanges(previous, current, threshold) == ChangesAmong(ReportOrder, previous, current, t);
  }

  /** With a non-positive threshold every drive is reported, in order. */
  lemma NonPositiveThresholdReportsAll(previous: MotivationState, current: MotivationState, threshold: real)
    requires threshold <= 0.0
    ensures |ReportedChanges(previous, current, threshold)| == 5
  {
    var out := ReportedChanges(previous, current, threshold);
    var all := seq(5, i requires 0 <= i < 5 => DriveChange(ReportOrder[i], Urgency(previous, ReportOrder[i]), Urgency(current, ReportOrder[i])));
    assert forall i :: 0 <= i < 5 ==> all[i] in out;
    DistinctNamesCount(out, all);
  }

  /** Five changes with distinct names all contained in a list of at most five make it length five. */
  lemma DistinctNamesCount(out: seq<DriveChange>, all: seq<DriveChange>)
    requires |all| == 5 && |out| <= 5
    requires forall i :: 0 <= i < 5 ==> all[i] in out
    requires forall i, j :: 0 <= i < j < 5 ==> all[i] != all[j]
    ensures |out| == 5
  {
    var s := set i | 0 <= i < 5 :: all[i];
    assert |s| == 5 by {
      SetFromDistinct(all);
    }
    assert s <= set c | c in out;
    SetOfSeqBound(out);
    SubsetSize(s, set c | c in out);
  }

  lemma SetFromDistinct(all: seq<DriveChange>)
    requires |all| == 5
    requires forall i, j :: 0 <= i < j < 5 ==> all[i] != all[j]
    ensures |set i | 0 <= i < 5 :: all[i]| == 5
  {
    var s := set i | 0 <= i < 5 :: all[i];
    assert s == {all[0], all[1], all[2], all[3], all[4]};
  }

  lemma {:induction false} SetOfSeqBound(out: seq<DriveChange>)
    ensures |set c | c in out| <= |out|
  {
    if out != [] {
      SetOfSeqBound(out[1..]);
      assert (set c | c in out) == (set c | c in out[1..]) + {out[0]};
    } else {
      assert (set c | c in out) == {};
    }
  }

  lemma SubsetSize(a: set<DriveChange>, b: set<DriveChange>)
    requires a <= b
    ensures |a| <= |b|
  {
    assert b == a + (b - a);
  }
}
