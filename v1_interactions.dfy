// The first-generation range table and clamping, and the two interaction
// rules whose increments are capped so they never push past 1.
module V1Interactions {
  import opened V1Biology

  /** `Clamp`: below `lo` gives `lo`, above `hi` gives `hi`, otherwise the value itself. */
  function Clamp(val: real, lo: real, hi: real): (r: real)
    ensures lo <= hi ==> lo <= r <= hi
    ensures lo <= val <= hi ==> r == val
    ensures val < lo ==> r == lo
    ensures lo <= val && hi < val ==> r == hi
  {
    if val < lo then lo else if val > hi then hi else val
  }

  datatype Range = Range(lo: real, hi: real)

  /** `variableRanges`. */
  const VariableRanges: map<Variable, Range> := map[
    VarBodyTemp := Range(25.0, 43.0),
    VarHeartRate := Range(40.0, 200.0),
    VarBloodPressure := Range(80.0, 200.0),
    VarRespiratoryRate := Range(8.0, 40.0),
    VarHunger := Range(0.0, 1.0),
    VarThirst := Range(0.0, 1.0),
    VarFatigue := Range(0.0, 1.0),
    VarPain := Range(0.0, 1.0),
    VarMuscleTension := Range(0.0, 1.0),
    VarBloodSugar := Range(50.0, 200.0),
    VarCortisol := Range(0.0, 1.0),
    VarAdrenaline := Range(0.0, 1.0),
    VarSerotonin := Range(0.0, 1.0),
    VarDopamine := Range(0.0, 1.0),
    VarImmuneResponse := Range(0.0, 1.0),
    VarCircadianPhase := Range(0.0, 24.0),
    VarSpO2 := Range(70.0, 100.0),
    VarHydration := Range(0.0, 1.0),
    VarGlycogen := Range(0.0, 1.0),
    VarEndorphins := Range(0.0, 1.0)]

  /** The table covers exactly the twenty variables, each with a non-empty range. */
  lemma RangesCoverAllVariables(v: Variable)
    ensures v in VariableRanges <==> IsVariable(v)
    ensures v in VariableRanges ==> VariableRanges[v].lo < VariableRanges[v].hi
  {
  }

  /** `ClampVariable`: clamped into the variable's range; an index naming no variable passes through. */
  function ClampVariable(v: Variable, val: real): (r: real)
    ensures IsVariable(v) ==> VariableRanges[v].lo <= r <= VariableRanges[v].hi
    ensures IsVariable(v) && VariableRanges[v].lo <= val <= VariableRanges[v].hi ==> r == val
    ensures !IsVariable(v) ==> r == val
  {
    RangesCoverAllVariables(v);
    if v in VariableRanges then Clamp(val, VariableRanges[v].lo, VariableRanges[v].hi) else val
  }

  /** Clamping twice is clamping once. */
  lemma ClampVariableIdempotent(v: Variable, val: real)
    ensures ClampVariable(v, ClampVariable(v, val)) == ClampVariable(v, val)
  {
  }

  /** Every baseline value of the default state lies within its range. */
  lemma DefaultWithinRanges(v: Variable)
    requires IsVariable(v)
    ensures VariableRanges[v].lo <= Lookup(DefaultBody(), v) <= VariableRanges[v].hi
  {
  }

  function Min(a: real, b: real): real
  {
    if a < b then a else b
  }

  /** The "low_bs_hunger" increment: 0.005/s, but never beyond what is left below 1. */
  function LowSugarHungerDelta(b: Body, dt: real): real
  {
    Min(1.0 - b.hunger, 0.005 * dt)
  }

  /** The "dehydration_thirst" increment: proportional to the hydration deficit, capped the same way. */
  function DehydrationThirstDelta(b: Body, dt: real): real
  {
    Min(1.0 - b.thirst, (0.7 - b.hydration) * 0.01 * dt)
  }

  /** Neither capped increment lifts its variable above 1, whatever the elapsed time. */
  lemma CappedIncrementsStayBelowOne(b: Body, dt: real)
    ensures b.hunger + LowSugarHungerDelta(b, dt) <= 1.0
    ensures b.thirst + DehydrationThirstDelta(b, dt) <= 1.0
    ensures b.hunger < 1.0 && dt > 0.0 ==> LowSugarHungerDelta(b, dt) > 0.0
  {
  }
}
