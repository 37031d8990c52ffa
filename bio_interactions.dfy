// The v2 interaction pass: 22 rules between the eight variables, all
// conditions and amounts read from one snapshot taken before the pass.
module BioInteractions {
  import opened BioState

  /** A rule: when `condition` holds of the snapshot, `apply` gives its delta over dt. */
  datatype Rule = Rule(name: string, condition: Bio -> bool, apply: (Bio, real) -> Delta)

  /** The 22 motivation rules, in table order. */
  const MotivationRules: seq<Rule> := [
    Rule("stress->physical_tension: high stress tightens muscles",
      (b: Bio) => b.stress > 0.6, (b: Bio, dt: real) => Delta("physical_tension", b.stress * 0.3 * dt)),
    Rule("stress->cognitive_capacity: stress depletes mental capacity",
      (b: Bio) => b.stress > 0.5, (b: Bio, dt: real) => Delta("cognitive_capacity", -b.stress * 0.2 * dt)),
    Rule("stress->mood: severe stress dampens mood",
      (b: Bio) => b.stress > 0.7, (b: Bio, dt: real) => Delta("mood", -0.002 * dt)),
    Rule("hunger->stress: severe hunger raises stress",
      (b: Bio) => b.hunger > 0.7, (b: Bio, dt: real) => Delta("stress", 0.001 * dt)),
    Rule("hunger->cognitive_capacity: extreme hunger depletes cognition",
      (b: Bio) => b.hunger > 0.8, (b: Bio, dt: real) => Delta("cognitive_capacity", -0.002 * dt)),
    Rule("energy->mood: low energy worsens mood",
      (b: Bio) => b.energy < 0.3, (b: Bio, dt: real) => Delta("mood", -0.001 * dt)),
    Rule("energy->stress: very low energy raises stress",
      (b: Bio) => b.energy < 0.2, (b: Bio, dt: real) => Delta("stress", 0.002 * dt)),
    Rule("energy->cognitive_capacity: very low energy depletes cognition",
      (b: Bio) => b.energy < 0.2, (b: Bio, dt: real) => Delta("cognitive_capacity", -0.002 * dt)),
    Rule("physical_tension->stress: high tension feeds back to stress",
      (b: Bio) => b.physicalTension > 0.7, (b: Bio, dt: real) => Delta("stress", 0.001 * dt)),
    Rule("physical_tension->mood: elevated tension dampens mood",
      (b: Bio) => b.physicalTension > 0.6, (b: Bio, dt: real) => Delta("mood", -0.001 * dt)),
    Rule("cognitive_capacity->stress: severe depletion raises stress",
      (b: Bio) => b.cognitiveCapacity < 0.2, (b: Bio, dt: real) => Delta("stress", 0.002 * dt)),
    Rule("cognitive_capacity->mood: depleted cognition lowers mood",
      (b: Bio) => b.cognitiveCapacity < 0.3, (b: Bio, dt: real) => Delta("mood", -0.001 * dt)),
    Rule("mood->stress: dysphoria elevates stress",
      (b: Bio) => b.mood < 0.2, (b: Bio, dt: real) => Delta("stress", 0.001 * dt)),
    Rule("mood->social_deficit: dysphoria deepens isolation",
      (b: Bio) => b.mood < 0.2, (b: Bio, dt: real) => Delta("social_deficit", 0.001 * dt)),
    Rule("social_deficit->mood: high isolation lowers mood",
      (b: Bio) => b.socialDeficit > 0.7, (b: Bio, dt: real) => Delta("mood", -0.001 * dt)),
    Rule("social_deficit->stress: extreme isolation raises stress",
      (b: Bio) => b.socialDeficit > 0.8, (b: Bio, dt: real) => Delta("stress", 0.001 * dt)),
    Rule("body_temp->stress: hypothermia raises stress",
      (b: Bio) => b.bodyTemp < 35.5, (b: Bio, dt: real) => Delta("stress", (35.5 - b.bodyTemp) * 0.01 * dt)),
    Rule("body_temp->physical_tension: hypothermia causes muscle tension (shivering)",
      (b: Bio) => b.bodyTemp < 35.5, (b: Bio, dt: real) => Delta("physical_tension", (35.5 - b.bodyTemp) * 0.05 * dt)),
    Rule("body_temp->stress: hyperthermia raises stress",
      (b: Bio) => b.bodyTemp > 38.5, (b: Bio, dt: real) => Delta("stress", (b.bodyTemp - 38.5) * 0.01 * dt)),
    Rule("body_temp->cognitive_capacity: hyperthermia depletes cognition",
      (b: Bio) => b.bodyTemp > 38.5, (b: Bio, dt: real) => Delta("cognitive_capacity", -(b.bodyTemp - 38.5) * 0.03 * dt)),
    Rule("energy+hunger->mood: low energy AND high hunger collapses mood faster",
      (b: Bio) => b.energy < 0.4 && b.hunger > 0.6, (b: Bio, dt: real) => Delta("mood", -0.002 * dt)),
    Rule("stress+cognitive_capacity->mood: overwhelmed-depleted spiral crushes mood",
      (b: Bio) => b.stress > 0.8 && b.cognitiveCapacity < 0.3, (b: Bio, dt: real) => Delta("mood", -0.003 * dt))
  ]

  /** The deltas of the rules that fire on `snap`, one per fired rule, in table order. */
  function FiredDeltas(rules: seq<Rule>, snap: Bio, dt: real): (ds: seq<Delta>)
    ensures |ds| <= |rules|
    decreases |rules|
  {
    if rules == [] then []
    else
      var last := rules[|rules| - 1];
      FiredDeltas(rules[..|rules| - 1], snap, dt)
        + (if last.condition(snap) then [last.apply(snap, dt)] else [])
  }

  /** The number of rules whose condition holds of `snap`. */
  function FiredCount(rules: seq<Rule>, snap: Bio): nat
    decreases |rules|
  {
    if rules == [] then 0
    else FiredCount(rules[..|rules| - 1], snap) + (if rules[|rules| - 1].condition(snap) then 1 else 0)
  }

  /** Exactly one delta per fired rule. */
  lemma {:induction false} OneDeltaPerFiredRule(rules: seq<Rule>, snap: Bio, dt: real)
    ensures |FiredDeltas(rules, snap, dt)| == FiredCount(rules, snap)
    decreases |rules|
  {
    if rules != [] {
      OneDeltaPerFiredRule(rules[..|rules| - 1], snap, dt);
    }
  }

  /** Every delta returned is the delta of some rule that fires on the snapshot. */
  lemma {:induction false} FiredDeltasComeFromFiringRules(rules: seq<Rule>, snap: Bio, dt: real, i: nat)
    requires i < |FiredDeltas(rules, snap, dt)|
    ensures exists k :: 0 <= k < |rules| && rules[k].condition(snap)
                     && FiredDeltas(rules, snap, dt)[i] == rules[k].apply(snap, dt)
    decreases |rules|
  {
    var front := rules[..|rules| - 1];
    var last := rules[|rules| - 1];
    if i < |FiredDeltas(front, snap, dt)| {
      FiredDeltasComeFromFiringRules(front, snap, dt, i);
      var k :| 0 <= k < |front| && front[k].condition(snap)
               && FiredDeltas(front, snap, dt)[i] == front[k].apply(snap, dt);
      assert rules[k] == front[k];
    } else {
      assert rules[|rules| - 1] == last;
    }
  }

  /** When no rule fires there is nothing to apply. */
  lemma {:induction false} NothingFiresNoDeltas(rules: seq<Rule>, snap: Bio, dt: real)
    requires forall k :: 0 <= k < |rules| ==> !rules[k].condition(snap)
    ensures FiredDeltas(rules, snap, dt) == []
    decreases |rules|
  {
    if rules != [] {
      NothingFiresNoDeltas(rules[..|rules| - 1], snap, dt);
    }
  }

  /** The default state is calm: no rule fires. */
  lemma DefaultStateIsQuiet(dt: real)
    ensures FiredDeltas(MotivationRules, DefaultBio(), dt) == []
  {
    NothingFiresNoDeltas(MotivationRules, DefaultBio(), dt);
  }

  /** Rules whose amounts vanish at dt = 0 give only zero deltas at dt = 0. */
  lemma {:induction false} ZeroDtZeroAmounts(rules: seq<Rule>, snap: Bio)
    requires forall k :: 0 <= k < |rules| ==> rules[k].apply(snap, 0.0).amount == 0.0
    ensures forall i :: 0 <= i < |FiredDeltas(rules, snap, 0.0)| ==> FiredDeltas(rules, snap, 0.0)[i].amount == 0.0
    decreases |rules|
  {
    if rules != [] {
      ZeroDtZeroAmounts(rules[..|rules| - 1], snap);
    }
  }

  /** At dt = 0 every motivation rule's amount is zero, so the pass changes nothing. */
  lemma ZeroDtLeavesStateUnchanged(snap: Bio)
    ensures forall i :: 0 <= i < |FiredDeltas(MotivationRules, snap, 0.0)| ==>
      FiredDeltas(MotivationRules, snap, 0.0)[i].amount == 0.0
    ensures ApplyDeltas(snap, FiredDeltas(MotivationRules, snap, 0.0)) == snap
  {
    ZeroDtZeroAmounts(MotivationRules, snap);
    ZeroDeltasNoOp(snap, FiredDeltas(MotivationRules, snap, 0.0));
  }

  /** Stress and tension both at 0.65, everything else at the defaults. */
  function TenseSnapshot(): Bio
  {
    DefaultBio().(stress := 0.65, physicalTension := 0.65)
  }

  lemma TenseFirstTwoRules()
    ensures FiredDeltas(MotivationRules[..2], TenseSnapshot(), 1.0)
         == [Delta("physical_tension", 0.195), Delta("cognitive_capacity", -0.13)]
  {
    var r := MotivationRules;
    var b := TenseSnapshot();
    assert r[..2][..1] == r[..1];
    assert r[..1][..0] == [];
    assert r[..1][0] == r[0] && r[..2][1] == r[1];
    assert r[0].apply(b, 1.0) == Delta("physical_tension", 0.195);
    assert r[1].apply(b, 1.0) == Delta("cognitive_capacity", -0.13);
  }

  lemma TenseFirstTenRules()
    ensures FiredDeltas(MotivationRules[..10], TenseSnapshot(), 1.0)
         == FiredDeltas(MotivationRules[..2], TenseSnapshot(), 1.0) + [Delta("mood", -0.001)]
  {
    var r := MotivationRules;
    var b := TenseSnapshot();
    assert r[..10][..9] == r[..9];
    assert r[..10][9] == r[9];
    forall j | 2 <= j < 9
      ensures !r[..9][j].condition(b)
    {
      assert r[..9][j] == r[j];
    }
    QuietSuffix(r[..9], 2, b, 1.0);
    assert r[..9][..2] == r[..2];
  }

  lemma TenseLastRulesQuiet()
    ensures FiredDeltas(MotivationRules, TenseSnapshot(), 1.0)
         == FiredDeltas(MotivationRules[..10], TenseSnapshot(), 1.0)
  {
    QuietSuffix(MotivationRules, 10, TenseSnapshot(), 1.0);
  }

  /**
   * Stress 0.65 and tension 0.65 over one second: the stress rule raises
   * tension, but the tension-to-stress rule (threshold 0.7) reads the snapshot
   * and stays quiet, so no stress delta is produced and stress is unchanged.
   */
  lemma SnapshotPreventsFeedbackExample()
    ensures FiredDeltas(MotivationRules, TenseSnapshot(), 1.0)
         == [Delta("physical_tension", 0.195), Delta("cognitive_capacity", -0.13), Delta("mood", -0.001)]
    ensures ApplyDeltas(TenseSnapshot(), FiredDeltas(MotivationRules, TenseSnapshot(), 1.0)).stress == 0.65
  {
    TenseFirstTwoRules();
    TenseFirstTenRules();
    TenseLastRulesQuiet();
    var ds := FiredDeltas(MotivationRules, TenseSnapshot(), 1.0);
    ApplyDeltasSums(TenseSnapshot(), ds);
    assert ds[1..][1..][1..] == [];
    assert AmountFor(ds[1..][1..], "stress") == 0.0;
    assert AmountFor(ds, "stress") == 0.0;
  }

  /** Rules after position `k` that do not fire add nothing. */
  lemma {:induction false} QuietSuffix(rules: seq<Rule>, k: nat, snap: Bio, dt: real)
    requires k <= |rules|
    requires forall j :: k <= j < |rules| ==> !rules[j].condition(snap)
    ensures FiredDeltas(rules, snap, dt) == FiredDeltas(rules[..k], snap, dt)
    decreases |rules|
  {
    if |rules| > k {
      var front := rules[..|rules| - 1];
      assert front[..k] == rules[..k];
      QuietSuffix(front, k, snap, dt);
    } else {
      assert rules[..k] == rules;
    }
  }

  /** One pass over `rules`: evaluate against a snapshot, apply each fired delta at once. */
  method RunRules(s: State, rules: seq<Rule>, dt: real) returns (deltas: seq<Delta>)
    modifies s
    ensures deltas == FiredDeltas(rules, old(s.Value()), dt)
    ensures s.Value() == ApplyDeltas(old(s.Value()), deltas)
  {
    var snap := s.Value();
    deltas := [];
    var i := 0;
    while i < |rules|
      invariant 0 <= i <= |rules|
      invariant deltas == FiredDeltas(rules[..i], snap, dt)
      invariant s.Value() == ApplyDeltas(snap, deltas)
    {
      var rule := rules[i];
      assert rules[..i + 1][..i] == rules[..i];
      if rule.condition(snap) {
        var d := rule.apply(snap, dt);
        ApplyDeltasSnoc(snap, deltas, d);
        deltas := deltas + [d];
        ApplyDelta(s, d);
      }
      i := i + 1;
    }
    assert rules[..i] == rules;
  }

  /** `ApplyInteractions`: one pass over the motivation rules; no clamping. */
  method ApplyInteractions(s: State, dt: real) returns (deltas: seq<Delta>)
    modifies s
    ensures deltas == FiredDeltas(MotivationRules, old(s.Value()), dt)
    ensures s.Value() == ApplyDeltas(old(s.Value()), deltas)
  {
    deltas := RunRules(s, MotivationRules, dt);
  }
}
