// Critical-condition classifiers of the body model, the hypothermia reversal
// overrides, and the cortisol-load immune factor.
module CriticalThresholds {
  import opened Wrappers
  import opened V1Biology

  /** Go's `CriticalState int`: 0..4 name a condition, in increasing severity. */
  type CriticalState = int
  const Normal: CriticalState := 0
  const Impaired: CriticalState := 1
  const Critical: CriticalState := 2
  const Unconscious: CriticalState := 3
  const Lethal: CriticalState := 4

  const CriticalStateNames: seq<string> := ["normal", "impaired", "critical", "unconscious", "lethal"]

  /** `CriticalState.String` with the evidently intended guard. */
  function CriticalStateName(c: CriticalState): (r: string)
    ensures 0 <= c < 5 ==> r == CriticalStateNames[c]
    ensures !(0 <= c < 5) ==> r == "unknown"
  {
    if 0 <= c < |CriticalStateNames| then CriticalStateNames[c] else "unknown"
  }

  /** `CriticalState.String` as written: a negative value indexes out of range (`None`, a panic). */
  function CriticalStateNameAsWritten(c: CriticalState): (r: Option<string>)
    ensures c >= 0 ==> r == Some(CriticalStateName(c))
    ensures c < 0 ==> r.None?
  {
    if c < |CriticalStateNames| then
      if c < 0 then None else Some(CriticalStateNames[c])
    else Some("unknown")
  }

  /** CriticalState(-1).String() panics as written, where "unknown" was intended. */
  lemma NegativeCriticalStateNamePanics()
    ensures CriticalStateNameAsWritten(-1).None?
    ensures CriticalStateName(-1) == "unknown"
  {
  }

  /** The failing system a result names. */
  datatype BodySystem = Thermoregulation | Glycemic | Respiratory | Cardiovascular

  /** The system's label as the reports spell it. */
  function SystemLabel(s: BodySystem): string
  {
    match s
    case Thermoregulation => "thermoregulation"
    case Glycemic => "glycemic"
    case Respiratory => "respiratory"
    case Cardiovascular => "cardiovascular"
  }

  /** Which evaluator raised a result; with the condition it determines the description. */
  datatype Alarm = ColdAlarm | HeatAlarm | LowSugarAlarm | HighSugarAlarm | LowOxygenAlarm | LowPressureAlarm

  datatype ThresholdResult = ThresholdResult(condition: CriticalState, system: BodySystem, alarm: Alarm)

  /** The condition a list of at most one result reports; `Normal` when empty. */
  function Worst(rs: seq<ThresholdResult>): CriticalState
  {
    if rs == [] then Normal else rs[0].condition
  }


  /** A classifier's report: nothing for `Normal`, otherwise one result. */
  function Report(c: CriticalState, system: BodySystem, alarm: Alarm): (r: seq<ThresholdResult>)
    ensures |r| <= 1 && (r == [] <==> c == Normal) && Worst(r) == c
    ensures r != [] ==> r[0].system == system
  {
    if c == Normal then [] else [ThresholdResult(c, system, alarm)]
  }

  /** The hypothermia tier of a body temperature: below 28, 30, 33 and 35 degrees. */
  function HypothermiaLevel(t: real): (c: CriticalState)
    ensures c == Normal <==> t >= 35.0
    ensures t < 28.0 ==> c == Lethal
    ensures 28.0 <= t < 30.0 ==> c == Unconscious
    ensures 30.0 <= t < 33.0 ==> c == Critical
    ensures 33.0 <= t < 35.0 ==> c == Impaired
  {
    if t < 28.0 then Lethal else if t < 30.0 then Unconscious
    else if t < 33.0 then Critical else if t < 35.0 then Impaired else Normal
  }

  function HypothermiaText(c: CriticalState): string
  {
    if c == Lethal then "ventricular fibrillation risk, lethal without intervention"
    else if c == Unconscious then "severe hypothermia, cardiac arrhythmia, loss of consciousness"
    else if c == Critical then "moderate hypothermia, shivering stopped, confusion, HR dropping"
    else "mild hypothermia, maximal shivering, cognitive impairment"
  }

  /** `evaluateHypothermia`. */
  function Hypothermia(b: Body): seq<ThresholdResult>
  {
    var c := HypothermiaLevel(b.bodyTemp);
    Report(c, Thermoregulation, ColdAlarm)
  }

  /** The hyperthermia tier: above 40, 41.5 and 42 degrees. */
  function HyperthermiaLevel(t: real): (c: CriticalState)
    ensures c == Normal <==> t <= 40.0
    ensures t > 42.0 ==> c == Lethal
    ensures 41.5 < t <= 42.0 ==> c == Critical
    ensures 40.0 < t <= 41.5 ==> c == Impaired
  {
    if t > 42.0 then Lethal else if t > 41.5 then Critical else if t > 40.0 then Impaired else Normal
  }

  function HyperthermiaText(c: CriticalState): string
  {
    if c == Lethal then "lethal hyperthermia, protein denaturation"
    else if c == Critical then "organ damage, multi-organ failure cascade"
    else "heat stroke onset, confusion, BP dropping"
  }

  /** `evaluateHyperthermia`. */
  function Hyperthermia(b: Body): seq<ThresholdResult>
  {
    var c := HyperthermiaLevel(b.bodyTemp);
    Report(c, Thermoregulation, HeatAlarm)
  }

  /** The hypoglycemia tier: below 25, 35, 45 and 55 mg/dL. */
  function HypoglycemiaLevel(g: real): (c: CriticalState)
    ensures c == Normal <==> g >= 55.0
    ensures g < 25.0 ==> c == Lethal
    ensures 25.0 <= g < 35.0 ==> c == Unconscious
    ensures 35.0 <= g < 45.0 ==> c == Critical
    ensures 45.0 <= g < 55.0 ==> c == Impaired
  {
    if g < 25.0 then Lethal else if g < 35.0 then Unconscious
    else if g < 45.0 then Critical else if g < 55.0 then Impaired else Normal
  }

  function HypoglycemiaText(c: CriticalState): string
  {
    if c == Lethal then "lethal hypoglycemia without intervention"
    else if c == Unconscious then "loss of consciousness from hypoglycemia"
    else if c == Critical then "seizure risk, behavioral changes, loss of motor control"
    else "neuroglycopenia, confusion, slowed reaction time"
  }

  /** `evaluateHypoglycemia`. */
  function Hypoglycemia(b: Body): seq<ThresholdResult>
  {
    var c := HypoglycemiaLevel(b.bloodSugar);
    Report(c, Glycemic, LowSugarAlarm)
  }

  /** The hyperglycemia tier: above 180 and 300 mg/dL. */
  function HyperglycemiaLevel(g: real): (c: CriticalState)
    ensures c == Normal <==> g <= 180.0
    ensures g > 300.0 ==> c == Critical
    ensures 180.0 < g <= 300.0 ==> c == Impaired
  {
    if g > 300.0 then Critical else if g > 180.0 then Impaired else Normal
  }

  /** `evaluateHyperglycemia`. */
  function Hyperglycemia(b: Body): seq<ThresholdResult>
  {
    var c := HyperglycemiaLevel(b.bloodSugar);
    Report(c, Glycemic, HighSugarAlarm)
  }

  /** The hypoxia tier: below 60, 75, 85 and 90 percent. */
  function HypoxiaLevel(o: real): (c: CriticalState)
    ensures c == Normal <==> o >= 90.0
    ensures o < 60.0 ==> c == Lethal
    ensures 60.0 <= o < 75.0 ==> c == Unconscious
    ensures 75.0 <= o < 85.0 ==> c == Critical
    ensures 85.0 <= o < 90.0 ==> c == Impaired
  {
    if o < 60.0 then Lethal else if o < 75.0 then Unconscious
    else if o < 85.0 then Critical else if o < 90.0 then Impaired else Normal
  }

  function HypoxiaText(c: CriticalState): string
  {
    if c == Lethal then "lethal hypoxia, organ damage"
    else if c == Unconscious then "severe hypoxia, cardiac arrhythmia risk"
    else if c == Critical then "confusion, agitation, loss of coordination"
    else "peripheral cyanosis, cognitive impairment, adrenaline spike"
  }

  /** `evaluateSpO2`. */
  function Hypoxia(b: Body): seq<ThresholdResult>
  {
    var c := HypoxiaLevel(b.spO2);
    Report(c, Respiratory, LowOxygenAlarm)
  }

  /** `evaluateBloodPressure`: below 70 mmHg is critical. */
  function Hypotension(b: Body): seq<ThresholdResult>
  {
    Report(if b.bloodPressure < 70.0 then Critical else Normal, Cardiovascular, LowPressureAlarm)
  }

  function HyperglycemiaText(c: CriticalState): string
  {
    if c == Critical then "diabetic ketoacidosis territory, nausea, altered consciousness"
    else "hyperglycemia, increased thirst, dehydration acceleration"
  }

  /** The human-readable description each evaluator attaches to its result. */
  function Description(r: ThresholdResult): string
  {
    match r.alarm
    case ColdAlarm => HypothermiaText(r.condition)
    case HeatAlarm => HyperthermiaText(r.condition)
    case LowSugarAlarm => HypoglycemiaText(r.condition)
    case HighSugarAlarm => HyperglycemiaText(r.condition)
    case LowOxygenAlarm => HypoxiaText(r.condition)
    case LowPressureAlarm => "shock territory, cognitive impairment"
  }

  /** `EvaluateThresholds`: the six evaluators in order. */
  function EvaluateThresholds(b: Body): seq<ThresholdResult>
  {
    Hypothermia(b) + Hyperthermia(b) + Hypoglycemia(b) + Hyperglycemia(b) + Hypoxia(b) + Hypotension(b)
  }

  /** The temperature bands of cold and heat do not overlap, nor do low and high blood sugar. */
  lemma BandsDisjoint(b: Body)
    ensures Hypothermia(b) == [] || Hyperthermia(b) == []
    ensures Hypoglycemia(b) == [] || Hyperglycemia(b) == []
  {
  }

  predicate AllOf(r: seq<ThresholdResult>, system: BodySystem)
  {
    forall x :: x in r ==> x.system == system
  }

  predicate NoneOf(r: seq<ThresholdResult>, system: BodySystem)
  {
    forall x :: x in r ==> x.system != system
  }

  /** At most one result of `system` in a list whose results of that system all sit in one short slot. */
  lemma AtMostOneIn(front: seq<ThresholdResult>, mid: seq<ThresholdResult>, back: seq<ThresholdResult>, system: BodySystem)
    requires NoneOf(front, system) && |mid| <= 1 && NoneOf(back, system)
    ensures var r := front + mid + back;
      forall i, j :: 0 <= i < j < |r| && r[i].system == system ==> r[j].system != system
  {
    var r := front + mid + back;
    forall i, j | 0 <= i < j < |r| && r[i].system == system
      ensures r[j].system != system
    {
      assert i == |front|;
      assert r[j] == back[j - |front| - |mid|];
    }
  }

  /** Each evaluator reports at most one result, and only of its own system. */
  lemma EvaluatorSystems(b: Body)
    ensures |Hypothermia(b)| <= 1 && AllOf(Hypothermia(b), Thermoregulation)
    ensures |Hyperthermia(b)| <= 1 && AllOf(Hyperthermia(b), Thermoregulation)
    ensures |Hypoglycemia(b)| <= 1 && AllOf(Hypoglycemia(b), Glycemic)
    ensures |Hyperglycemia(b)| <= 1 && AllOf(Hyperglycemia(b), Glycemic)
    ensures |Hypoxia(b)| <= 1 && AllOf(Hypoxia(b), Respiratory)
    ensures |Hypotension(b)| <= 1 && AllOf(Hypotension(b), Cardiovascular)
  {
  }

  /** At most one thermoregulation result and at most one glycemic result, of at most four. */
  lemma EvaluateThresholdsShape(b: Body)
    ensures var r := EvaluateThresholds(b);
      && |r| <= 4
      && (forall i, j :: 0 <= i < j < |r| && r[i].system == Thermoregulation ==> r[j].system != Thermoregulation)
      && (forall i, j :: 0 <= i < j < |r| && r[i].system == Glycemic ==> r[j].system != Glycemic)
  {
    var thermal := Hypothermia(b) + Hyperthermia(b);
    var glycemic := Hypoglycemia(b) + Hyperglycemia(b);
    var rest := Hypoxia(b) + Hypotension(b);
    BandsDisjoint(b);
    EvaluatorSystems(b);
    assert |thermal| <= 1 && |glycemic| <= 1;
    assert NoneOf(glycemic + rest, Thermoregulation) && NoneOf(rest, Glycemic);
    assert EvaluateThresholds(b) == thermal + glycemic + rest;
    AtMostOneIn([], thermal, glycemic + rest, Thermoregulation);
    assert [] + thermal + (glycemic + rest) == thermal + glycemic + rest;
    AtMostOneIn(thermal, glycemic, rest, Glycemic);
  }

  /** No result at all exactly when every monitored value is in its normal range. */
  lemma EvaluateThresholdsEmpty(b: Body)
    ensures (EvaluateThresholds(b) == []) <==>
      (35.0 <= b.bodyTemp <= 40.0 && 55.0 <= b.bloodSugar <= 180.0 && b.spO2 >= 90.0 && b.bloodPressure >= 70.0)
  {
    assert Hypothermia(b) == [] <==> b.bodyTemp >= 35.0;
    assert Hyperthermia(b) == [] <==> b.bodyTemp <= 40.0;
    assert Hypoglycemia(b) == [] <==> b.bloodSugar >= 55.0;
    assert Hyperglycemia(b) == [] <==> b.bloodSugar <= 180.0;
    assert Hypoxia(b) == [] <==> b.spO2 >= 90.0;
    assert Hypotension(b) == [] <==> b.bloodPressure >= 70.0;
  }

  /** A colder body is never classified less severely. */
  lemma HypothermiaMonotone(a: Body, b: Body)
    requires a.bodyTemp <= b.bodyTemp
    ensures Worst(Hypothermia(a)) >= Worst(Hypothermia(b))
  {
  }

  /** Lower blood sugar is never classified less severely. */
  lemma HypoglycemiaMonotone(a: Body, b: Body)
    requires a.bloodSugar <= b.bloodSugar
    ensures Worst(Hypoglycemia(a)) >= Worst(Hypoglycemia(b))
  {
  }

  /** Lower oxygen saturation is never classified less severely. */
  lemma HypoxiaMonotone(a: Body, b: Body)
    requires a.spO2 <= b.spO2
    ensures Worst(Hypoxia(a)) >= Worst(Hypoxia(b))
  {
  }

  /** `IsHypothermiaReversal`: shivering has stopped from exhaustion. */
  predicate IsHypothermiaReversal(b: Body)
  {
    b.bodyTemp < 33.0
  }

  /** Reversal coincides with a hypothermia result of at least `Critical`. */
  lemma ReversalIsCriticalHypothermia(b: Body)
    ensures IsHypothermiaReversal(b) <==> Worst(Hypothermia(b)) >= Critical
  {
  }

  const ReversalSource := "hypothermia_reversal"

  /** The heart-rate floor in reversal: 40 bpm at 28 degrees, rising 2 bpm per degree. */
  function HeartRateTarget(bodyTemp: real): real
  {
    40.0 + (bodyTemp - 28.0) * 2.0
  }

  /** The adrenaline drop as written: 10%/s of the current level, not capped. */
  function AdrenalineDropAsWritten(adrenaline: real, dt: real): real
  {
    adrenaline * 0.1 * dt
  }

  /** More than ten seconds of reversal drive adrenaline below zero as written. */
  lemma AdrenalineGoesNegativeAsWritten()
    ensures 0.5 - AdrenalineDropAsWritten(0.5, 20.0) == -0.5
  {
  }

  /** The intended adrenaline drop: the same rate, capped so the level stays at or above 0. */
  function AdrenalineDrop(adrenaline: real, dt: real): (r: real)
    ensures adrenaline >= 0.0 ==> adrenaline - r >= 0.0
    ensures AdrenalineDropAsWritten(adrenaline, dt) <= adrenaline ==> r == AdrenalineDropAsWritten(adrenaline, dt)
  {
    var drop := adrenaline * 0.1 * dt;
    if drop > adrenaline then adrenaline else drop
  }

  lemma NonNegativeScaled(x: real, k: real, dt: real)
    requires x >= 0.0 && k >= 0.0 && dt >= 0.0
    ensures x * k * dt >= 0.0
  {
  }

  /** The muscle-tension drop in reversal: 10%/s of the excess over 0.3, at most the excess. */
  function TensionDrop(b: Body, dt: real): (r: real)
    ensures b.muscleTension > 0.3 ==> r <= b.muscleTension - 0.3
    ensures b.muscleTension > 0.3 && dt >= 0.0 ==> r >= 0.0
  {
    var d := (b.muscleTension - 0.3) * 0.1 * dt;
    assert b.muscleTension > 0.3 && dt >= 0.0 ==> d >= 0.0 by {
      if b.muscleTension > 0.3 && dt >= 0.0 { NonNegativeScaled(b.muscleTension - 0.3, 0.1, dt); }
    }
    if d > b.muscleTension - 0.3 then b.muscleTension - 0.3 else d
  }

  /** The heart-rate drop in reversal: 5%/s of the excess over the target, at most the excess. */
  function HeartRateDrop(b: Body, dt: real): (r: real)
    ensures b.heartRate > HeartRateTarget(b.bodyTemp) ==> r <= b.heartRate - HeartRateTarget(b.bodyTemp)
    ensures b.heartRate > HeartRateTarget(b.bodyTemp) && dt >= 0.0 ==> r >= 0.0
  {
    var target := HeartRateTarget(b.bodyTemp);
    var d := (b.heartRate - target) * 0.05 * dt;
    assert b.heartRate > target && dt >= 0.0 ==> d >= 0.0 by {
      if b.heartRate > target && dt >= 0.0 { NonNegativeScaled(b.heartRate - target, 0.05, dt); }
    }
    if d > b.heartRate - target then b.heartRate - target else d
  }

  /**
   * `ApplyHypothermiaOverrides` on values: the new body and the changes reported, with the
   * adrenaline drop capped (`capped`) or uncapped as the source writes it.
   */
  function OverriddenWith(b: Body, dt: real, capped: bool): (Body, seq<StateChange>)
  {
    if !IsHypothermiaReversal(b) then (b, [])
    else
      var mt := b.muscleTension > 0.3;
      var hr := b.heartRate > HeartRateTarget(b.bodyTemp);
      var ad := b.adrenaline > 0.05;
      var adrenalineDrop := if capped then AdrenalineDrop(b.adrenaline, dt) else AdrenalineDropAsWritten(b.adrenaline, dt);
      var mtDrop, hrDrop, adDrop := (if mt then TensionDrop(b, dt) else 0.0),
        (if hr then HeartRateDrop(b, dt) else 0.0), (if ad then adrenalineDrop else 0.0);
      (b.(muscleTension := b.muscleTension - mtDrop, heartRate := b.heartRate - hrDrop,
          adrenaline := b.adrenaline - adDrop),
       (if mt then [StateChange(VarMuscleTension, -mtDrop, ReversalSource)] else [])
       + (if hr then [StateChange(VarHeartRate, -hrDrop, ReversalSource)] else [])
       + (if ad then [StateChange(VarAdrenaline, -adDrop, ReversalSource)] else []))
  }

  /** The corrected override: adrenaline drops at most to zero. */
  function Overridden(b: Body, dt: real): (Body, seq<StateChange>)
  {
    OverriddenWith(b, dt, true)
  }

  /**
   * The override as written: outside reversal nothing changes; in reversal adrenaline above
   * 0.05 drops by the uncapped 10%/s of its level, and that drop is the last change reported.
   */
  function OverriddenAsWritten(b: Body, dt: real): (r: (Body, seq<StateChange>))
    ensures !IsHypothermiaReversal(b) ==> r == (b, [])
    ensures IsHypothermiaReversal(b) && b.adrenaline > 0.05 ==>
      && r.0.adrenaline == b.adrenaline - b.adrenaline * 0.1 * dt
      && |r.1| > 0 && r.1[|r.1| - 1] == StateChange(VarAdrenaline, -(b.adrenaline * 0.1 * dt), ReversalSource)
  {
    OverriddenWith(b, dt, false)
  }

  /**
   * As written, a reversal step of 20 seconds (well inside the 300-second tick cap) takes
   * adrenaline 0.5 to -0.5 and reports a change of -1.0; the corrected override stops at 0.
   */
  lemma OverriddenAsWrittenGoesNegative()
    ensures var b := DefaultBody().(bodyTemp := 30.0, adrenaline := 0.5);
      && OverriddenAsWritten(b, 20.0).0.adrenaline == -0.5
      && OverriddenAsWritten(b, 20.0).1[|OverriddenAsWritten(b, 20.0).1| - 1] == StateChange(VarAdrenaline, -1.0, ReversalSource)
      && Overridden(b, 20.0).0.adrenaline == 0.0
  {
    var b := DefaultBody().(bodyTemp := 30.0, adrenaline := 0.5);
    assert AdrenalineDropAsWritten(0.5, 20.0) == 1.0;
    assert AdrenalineDrop(0.5, 20.0) == 0.5;
  }

  /** Over at most ten seconds the uncapped drop never exceeds the level, so the cap changes nothing. */
  lemma OverridesAgreeWithinTenSeconds(b: Body, dt: real)
    requires 0.0 <= dt <= 10.0
    ensures Overridden(b, dt) == OverriddenAsWritten(b, dt)
  {
    if b.adrenaline > 0.05 {
      var k := 0.1 * dt;
      assert 0.0 <= k <= 1.0;
      assert b.adrenaline * k <= b.adrenaline * 1.0;
      assert b.adrenaline * 0.1 * dt == b.adrenaline * k;
      assert AdrenalineDrop(b.adrenaline, dt) == AdrenalineDropAsWritten(b.adrenaline, dt);
    }
  }

  /** Outside reversal nothing changes; in reversal only muscle tension, heart rate and adrenaline move. */
  lemma OverridesTouchThree(b: Body, dt: real)
    ensures !IsHypothermiaReversal(b) ==> Overridden(b, dt) == (b, [])
    ensures var n := Overridden(b, dt).0;
      n == b.(muscleTension := n.muscleTension, heartRate := n.heartRate, adrenaline := n.adrenaline)
  {
  }

  /**
   * Tension above 0.3 and heart rate above its target never fall below those floors,
   * adrenaline that was not negative stays so, and a value at or below its floor is left alone.
   */
  lemma OverridesFloors(b: Body, dt: real)
    ensures var n := Overridden(b, dt).0;
      && (b.muscleTension > 0.3 ==> n.muscleTension >= 0.3)
      && (b.muscleTension <= 0.3 ==> n.muscleTension == b.muscleTension)
      && (b.heartRate > HeartRateTarget(b.bodyTemp) ==> n.heartRate >= HeartRateTarget(b.bodyTemp))
      && (b.heartRate <= HeartRateTarget(b.bodyTemp) ==> n.heartRate == b.heartRate)
      && (b.adrenaline >= 0.0 ==> n.adrenaline >= 0.0)
  {
  }

  /** Over a non-negative dt none of the three overridden values rises. */
  lemma OverridesNeverRaise(b: Body, dt: real)
    requires dt >= 0.0
    ensures var n := Overridden(b, dt).0;
      n.muscleTension <= b.muscleTension && n.heartRate <= b.heartRate && n.adrenaline <= b.adrenaline
  {
    if b.adrenaline > 0.05 {
      NonNegativeScaled(b.adrenaline, 0.1, dt);
    }
  }

  /** Each reported change is the amount its variable actually moved. */
  lemma OverrideChangesMatch(b: Body, dt: real, i: int)
    requires 0 <= i < |Overridden(b, dt).1|
    ensures var c := Overridden(b, dt).1[i];
      && c.source == ReversalSource
      && Lookup(Overridden(b, dt).0, c.variable) == Lookup(b, c.variable) + c.delta
  {
  }

  /**
   * `ApplyHypothermiaOverrides` on a mutable state, corrected: the adrenaline drop is capped at
   * the current level. It agrees with the source whenever dt is at most 10 seconds.
   */
  method ApplyHypothermiaOverrides(s: State, dt: real) returns (changes: seq<StateChange>)
    modifies s
    ensures (s.Value(), changes) == Overridden(old(s.Value()), dt)
  {
    ghost var b := s.Value();
    if !(s.bodyTemp < 33.0) {
      return [];
    }
    changes := [];
    var mtDrop, hrDrop, adDrop := 0.0, 0.0, 0.0;
    var mtChanges, hrChanges, adChanges := [], [], [];
    if s.muscleTension > 0.3 {
      var drop := (s.muscleTension - 0.3) * 0.1 * dt;
      if drop > s.muscleTension - 0.3 {
        drop := s.muscleTension - 0.3;
      }
      assert drop == TensionDrop(b, dt);
      s.muscleTension := s.muscleTension - drop;
      mtDrop := drop;
      mtChanges := [StateChange(VarMuscleTension, -drop, ReversalSource)];
    }
    var target := 40.0 + (s.bodyTemp - 28.0) * 2.0;
    assert target == HeartRateTarget(b.bodyTemp);
    if s.heartRate > target {
      var drop := (s.heartRate - target) * 0.05 * dt;
      if drop > s.heartRate - target {
        drop := s.heartRate - target;
      }
      assert drop == HeartRateDrop(b, dt);
      s.heartRate := s.heartRate - drop;
      hrDrop := drop;
      hrChanges := [StateChange(VarHeartRate, -drop, ReversalSource)];
    }
    if s.adrenaline > 0.05 {
      var drop := s.adrenaline * 0.1 * dt;
      if drop > s.adrenaline {
        drop := s.adrenaline;
      }
      assert drop == AdrenalineDrop(b.adrenaline, dt);
      s.adrenaline := s.adrenaline - drop;
      adDrop := drop;
      adChanges := [StateChange(VarAdrenaline, -drop, ReversalSource)];
    }
    changes := mtChanges + hrChanges + adChanges;
    assert s.Value() == b.(muscleTension := b.muscleTension - mtDrop, heartRate := b.heartRate - hrDrop,
      adrenaline := b.adrenaline - adDrop);
  }

  /**
   * `CortisolLoadImmuneSuppressionFactor`: 1 / (1 + load/10). The only load excluded
   * is -10, where Go's float division yields +Inf, which reals do not have.
   */
  function ImmuneSuppressionFactor(cortisolLoad: real): (r: real)
    requires cortisolLoad != -10.0
    ensures cortisolLoad >= 0.0 ==> 0.0 < r <= 1.0
    ensures r == 1.0 <==> cortisolLoad == 0.0
  {
    1.0 / (1.0 + cortisolLoad * 0.1)
  }

  /** A larger load never suppresses less; a load of 10 halves immune efficiency. */
  lemma ImmuneSuppressionDecreasing(a: real, b: real)
    requires 0.0 <= a <= b
    ensures ImmuneSuppressionFactor(a) >= ImmuneSuppressionFactor(b)
    ensures ImmuneSuppressionFactor(10.0) == 0.5
  {
    var da, db := 1.0 + a * 0.1, 1.0 + b * 0.1;
    var x, y := 1.0 / da, 1.0 / db;
    assert x * da == 1.0 && y * db == 1.0;
    assert y > 0.0;
    assert y * da <= y * db;
    assert y * da <= x * da;
  }
}
