// Tiered threshold classification of the v2 state. Each variable group
// yields at most one event, at its most severe matching tier; the cascades
// the events carry are applied afterwards by `ApplyThresholdCascades`.
module BioThresholds {
  import opened Wrappers
  import opened BioState

  /** Severity is a Go `int` enumeration: 0, 1, 2. */
  const Mild: int := 0
  const Warning: int := 1
  const Critical: int := 2

  /** `Severity.String`. */
  function SeverityString(s: int): (r: string)
    ensures r == "unknown" <==> !(Mild <= s <= Critical)
    ensures s == Mild ==> r == "mild"
    ensures s == Warning ==> r == "warning"
    ensures s == Critical ==> r == "critical"
  {
    if s == Mild then "mild"
    else if s == Warning then "warning"
    else if s == Critical then "critical"
    else "unknown"
  }

  /** The three severities have three different names. */
  lemma SeverityNamesDistinct(s: int, t: int)
    requires Mild <= s <= Critical && Mild <= t <= Critical && s != t
    ensures SeverityString(s) != SeverityString(t)
  {
  }

  datatype ThresholdEvent = ThresholdEvent(
    variable: string,
    severity: int,
    description: string,
    cascade: seq<Delta>)

  /** Reserved; it changes nothing in the evaluation. */
  datatype ThresholdConfig = ThresholdConfig(terminalStatesEnabled: bool)

  const DefaultThresholdConfig := ThresholdConfig(false)

  function Hypothermia(bodyTemp: real): (e: Option<ThresholdEvent>)
    ensures e.Some? <==> bodyTemp < 35.0
    ensures e.Some? ==> e.value.variable == "body_temp"
    ensures bodyTemp < 33.0 ==> e.Some? && e.value.severity == Critical
    ensures 33.0 <= bodyTemp < 34.0 ==> e.Some? && e.value.severity == Warning
    ensures 34.0 <= bodyTemp < 35.0 ==> e.Some? && e.value.severity == Mild
  {
    if bodyTemp < 33.0 then
      Some(ThresholdEvent("body_temp", Critical, "Severe hypothermia, crisis",
        [Delta("stress", 0.3), Delta("cognitive_capacity", -0.4)]))
    else if bodyTemp < 34.0 then
      Some(ThresholdEvent("body_temp", Warning, "Moderate hypothermia, mental slowing",
        [Delta("physical_tension", 0.3), Delta("cognitive_capacity", -0.2)]))
    else if bodyTemp < 35.0 then
      Some(ThresholdEvent("body_temp", Mild, "Mild hypothermia, shivering",
        [Delta("physical_tension", 0.2)]))
    else None
  }

  function Hyperthermia(bodyTemp: real): (e: Option<ThresholdEvent>)
    ensures e.Some? <==> bodyTemp > 38.5
    ensures e.Some? ==> e.value.variable == "body_temp"
    ensures bodyTemp > 40.5 ==> e.Some? && e.value.severity == Critical
    ensures 39.5 < bodyTemp <= 40.5 ==> e.Some? && e.value.severity == Warning
    ensures 38.5 < bodyTemp <= 39.5 ==> e.Some? && e.value.severity == Mild
  {
    if bodyTemp > 40.5 then
      Some(ThresholdEvent("body_temp", Critical, "Dangerous hyperthermia",
        [Delta("stress", 0.4), Delta("cognitive_capacity", -0.3)]))
    else if bodyTemp > 39.5 then
      Some(ThresholdEvent("body_temp", Warning, "Fever, significant impairment",
        [Delta("stress", 0.2), Delta("mood", -0.2)]))
    else if bodyTemp > 38.5 then
      Some(ThresholdEvent("body_temp", Mild, "Elevated temperature, discomfort",
        [Delta("stress", 0.1), Delta("cognitive_capacity", -0.1)]))
    else None
  }

  /** Stress-tier cascades are rates, scaled by dt. */
  function StressTier(stress: real, dt: real): (e: Option<ThresholdEvent>)
    ensures e.Some? <==> stress > 0.7
    ensures e.Some? ==> e.value.variable == "stress"
    ensures stress > 0.95 ==> e.Some? && e.value.severity == Critical
    ensures 0.85 < stress <= 0.95 ==> e.Some? && e.value.severity == Warning
    ensures 0.7 < stress <= 0.85 ==> e.Some? && e.value.severity == Mild
  {
    if stress > 0.95 then
      Some(ThresholdEvent("stress", Critical, "Crisis state",
        [Delta("mood", -0.03 * dt), Delta("energy", -0.02 * dt)]))
    else if stress > 0.85 then
      Some(ThresholdEvent("stress", Warning, "High stress, impaired function",
        [Delta("cognitive_capacity", -0.02 * dt), Delta("mood", -0.01 * dt)]))
    else if stress > 0.7 then
      Some(ThresholdEvent("stress", Mild, "Elevated stress",
        [Delta("physical_tension", 0.01 * dt)]))
    else None
  }

  function EnergyTier(energy: real, dt: real): (e: Option<ThresholdEvent>)
    ensures e.Some? <==> energy < 0.3
    ensures e.Some? ==> e.value.variable == "energy"
    ensures energy < 0.05 ==> e.Some? && e.value.severity == Critical
    ensures 0.05 <= energy < 0.15 ==> e.Some? && e.value.severity == Warning
    ensures 0.15 <= energy < 0.3 ==> e.Some? && e.value.severity == Mild
  {
    if energy < 0.05 then
      Some(ThresholdEvent("energy", Critical, "Near physical collapse",
        [Delta("stress", 0.03 * dt), Delta("cognitive_capacity", -0.03 * dt)]))
    else if energy < 0.15 then
      Some(ThresholdEvent("energy", Warning, "Very low energy",
        [Delta("mood", -0.01 * dt), Delta("stress", 0.01 * dt)]))
    else if energy < 0.3 then
      Some(ThresholdEvent("energy", Mild, "Low energy, effort costs more",
        [Delta("cognitive_capacity", -0.01 * dt)]))
    else None
  }

  function HungerTier(hunger: real, dt: real): (e: Option<ThresholdEvent>)
    ensures e.Some? <==> hunger > 0.7
    ensures e.Some? ==> e.value.variable == "hunger"
    ensures hunger > 0.95 ==> e.Some? && e.value.severity == Critical
    ensures 0.85 < hunger <= 0.95 ==> e.Some? && e.value.severity == Warning
    ensures 0.7 < hunger <= 0.85 ==> e.Some? && e.value.severity == Mild
  {
    if hunger > 0.95 then
      Some(ThresholdEvent("hunger", Critical, "Starving",
        [Delta("stress", 0.02 * dt), Delta("energy", -0.01 * dt)]))
    else if hunger > 0.85 then
      Some(ThresholdEvent("hunger", Warning, "Very hungry, difficulty focusing",
        [Delta("cognitive_capacity", -0.01 * dt), Delta("stress", 0.005 * dt)]))
    else if hunger > 0.7 then
      Some(ThresholdEvent("hunger", Mild, "Noticeably hungry",
        [Delta("mood", -0.005 * dt)]))
    else None
  }

  function AsList(e: Option<ThresholdEvent>): (r: seq<ThresholdEvent>)
    ensures e.None? ==> r == []
    ensures e.Some? ==> r == [e.value]
  {
    if e.Some? then [e.value] else []
  }

  /** `EvaluateThresholds`: temperature (cold, then hot), stress, energy, hunger. */
  function EvaluateThresholds(b: Bio, cfg: ThresholdConfig, dt: real): (evs: seq<ThresholdEvent>)
    ensures |evs| <= 4
  {
    AsList(Hypothermia(b.bodyTemp)) + AsList(Hyperthermia(b.bodyTemp))
      + AsList(StressTier(b.stress, dt)) + AsList(EnergyTier(b.energy, dt))
      + AsList(HungerTier(b.hunger, dt))
  }

  /** How many events concern `variable`. */
  function CountFor(evs: seq<ThresholdEvent>, variable: string): nat
    decreases |evs|
  {
    if evs == [] then 0
    else (if evs[0].variable == variable then 1 else 0) + CountFor(evs[1..], variable)
  }

  lemma {:induction false} CountForAppend(xs: seq<ThresholdEvent>, ys: seq<ThresholdEvent>, variable: string)
    ensures CountFor(xs + ys, variable) == CountFor(xs, variable) + CountFor(ys, variable)
    decreases |xs|
  {
    if xs == [] {
      assert xs + ys == ys;
    } else {
      assert (xs + ys)[1..] == xs[1..] + ys;
      CountForAppend(xs[1..], ys, variable);
    }
  }

  /**
   * Each variable group reports at most once: one body-temperature event
   * (cold and hot ranges are disjoint), one stress, one energy, one hunger.
   */
  lemma AtMostOneEventPerVariable(b: Bio, cfg: ThresholdConfig, dt: real, variable: string)
    ensures CountFor(EvaluateThresholds(b, cfg, dt), variable) <= 1
  {
    var cold, hot := Hypothermia(b.bodyTemp), Hyperthermia(b.bodyTemp);
    var st, en, hu := StressTier(b.stress, dt), EnergyTier(b.energy, dt), HungerTier(b.hunger, dt);
    CountForAppend(AsList(cold), AsList(hot), variable);
    CountForAppend(AsList(cold) + AsList(hot), AsList(st), variable);
    CountForAppend(AsList(cold) + AsList(hot) + AsList(st), AsList(en), variable);
    CountForAppend(AsList(cold) + AsList(hot) + AsList(st) + AsList(en), AsList(hu), variable);
    CountForAsList(cold, variable);
    CountForAsList(hot, variable);
    CountForAsList(st, variable);
    CountForAsList(en, variable);
    CountForAsList(hu, variable);
    assert cold.None? || hot.None?;
  }

  /** An optional event counts once for its own variable and never for another. */
  lemma CountForAsList(e: Option<ThresholdEvent>, variable: string)
    ensures CountFor(AsList(e), variable) == if e.Some? && e.value.variable == variable then 1 else 0
  {
    if e.Some? {
      assert AsList(e)[1..] == [];
    }
  }

  /** Colder is never less severe. */
  lemma HypothermiaMonotone(t1: real, t2: real)
    requires t1 <= t2 < 35.0
    ensures Hypothermia(t1).value.severity >= Hypothermia(t2).value.severity
  {
  }

  /** Hotter is never less severe. */
  lemma HyperthermiaMonotone(t1: real, t2: real)
    requires 38.5 < t1 <= t2
    ensures Hyperthermia(t1).value.severity <= Hyperthermia(t2).value.severity
  {
  }

  /** The default state crosses no threshold. */
  lemma DefaultStateNoEvents(dt: real)
    ensures EvaluateThresholds(DefaultBio(), DefaultThresholdConfig, dt) == []
  {
  }

  /** All cascade deltas of all events, event by event, in order. */
  function AllCascades(evs: seq<ThresholdEvent>): seq<Delta>
    decreases |evs|
  {
    if evs == [] then [] else AllCascades(evs[..|evs| - 1]) + evs[|evs| - 1].cascade
  }

  /** Flattening distributes over concatenation of event lists. */
  lemma {:induction false} AllCascadesAppend(xs: seq<ThresholdEvent>, ys: seq<ThresholdEvent>)
    ensures AllCascades(xs + ys) == AllCascades(xs) + AllCascades(ys)
    decreases |ys|
  {
    if ys == [] {
      assert xs + ys == xs;
    } else {
      var front := ys[..|ys| - 1];
      DropLastOfAppend(xs, ys);
      AllCascadesAppend(xs, front);
    }
  }

  lemma DropLastOfAppend(xs: seq<ThresholdEvent>, ys: seq<ThresholdEvent>)
    requires ys != []
    ensures (xs + ys)[..|xs + ys| - 1] == xs + ys[..|ys| - 1]
    ensures (xs + ys)[|xs + ys| - 1] == ys[|ys| - 1]
  {
  }

  /** `ApplyThresholdCascades`: every delta of every event, in order; no clamping. */
  method ApplyThresholdCascades(s: State, evs: seq<ThresholdEvent>)
    modifies s
    ensures s.Value() == ApplyDeltas(old(s.Value()), AllCascades(evs))
  {
    ghost var b0 := s.Value();
    var i := 0;
    while i < |evs|
      invariant 0 <= i <= |evs|
      invariant s.Value() == ApplyDeltas(b0, AllCascades(evs[..i]))
    {
      ghost var before := AllCascades(evs[..i]);
      var cascade := evs[i].cascade;
      var j := 0;
      assert before + cascade[..j] == before;
      while j < |cascade|
        invariant 0 <= j <= |cascade|
        invariant s.Value() == ApplyDeltas(b0, before + cascade[..j])
      {
        ApplyDeltasSnoc(b0, before + cascade[..j], cascade[j]);
        assert before + cascade[..j + 1] == (before + cascade[..j]) + [cascade[j]];
        ApplyDelta(s, cascade[j]);
        j := j + 1;
      }
      assert cascade[..j] == cascade;
      assert evs[..i + 1][..i] == evs[..i];
      i := i + 1;
    }
    assert evs[..i] == evs;
  }
}
