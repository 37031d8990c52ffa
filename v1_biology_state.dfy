// The first-generation body model: twenty physiological variables addressed
// by an integer index, read with Get and written with Set.
module V1Biology {
  import opened Wrappers

  /** Go's `Variable int`: any integer, of which 0..19 name a variable. */
  type Variable = int

  const VarBodyTemp: Variable := 0
  const VarHeartRate: Variable := 1
  const VarBloodPressure: Variable := 2
  const VarRespiratoryRate: Variable := 3
  const VarHunger: Variable := 4
  const VarThirst: Variable := 5
  const VarFatigue: Variable := 6
  const VarPain: Variable := 7
  const VarMuscleTension: Variable := 8
  const VarBloodSugar: Variable := 9
  const VarCortisol: Variable := 10
  const VarAdrenaline: Variable := 11
  const VarSerotonin: Variable := 12
  const VarDopamine: Variable := 13
  const VarImmuneResponse: Variable := 14
  const VarCircadianPhase: Variable := 15
  const VarSpO2: Variable := 16
  const VarHydration: Variable := 17
  const VarGlycogen: Variable := 18
  const VarEndorphins: Variable := 19

  const VariableCount: int := 20

  predicate IsVariable(v: Variable)
  {
    0 <= v < VariableCount
  }

  const VariableNames: seq<string> := [
    "body_temp",
    "heart_rate",
    "blood_pressure",
    "respiratory_rate",
    "hunger",
    "thirst",
    "fatigue",
    "pain",
    "muscle_tension",
    "blood_sugar",
    "cortisol",
    "adrenaline",
    "serotonin",
    "dopamine",
    "immune_response",
    "circadian_phase",
    "spo2",
    "hydration",
    "glycogen",
    "endorphins"]

  /** `Variable.String` with the evidently intended guard: names for 0..19, "unknown" otherwise. */
  function VariableName(v: Variable): (r: string)
    ensures IsVariable(v) ==> r == VariableNames[v]
    ensures !IsVariable(v) ==> r == "unknown"
  {
    if 0 <= v < |VariableNames| then VariableNames[v] else "unknown"
  }

  /**
   * `Variable.String` as written: only the upper bound is checked, so a negative
   * value indexes the name table out of range; `None` stands for that panic.
   */
  function VariableNameAsWritten(v: Variable): (r: Option<string>)
    ensures v >= 0 ==> r == Some(VariableName(v))
    ensures v < 0 ==> r.None?
  {
    if v < |VariableNames| then
      if v < 0 then None else Some(VariableNames[v])
    else Some("unknown")
  }

  /** Variable(-1).String() panics as written, where "unknown" was intended. */
  lemma NegativeVariableNamePanics()
    ensures VariableNameAsWritten(-1).None?
    ensures VariableName(-1) == "unknown"
  {
  }

  /** No variable is called "unknown", so the fallback name is never ambiguous. */
  lemma UnknownIsNoName(v: Variable)
    requires IsVariable(v)
    ensures VariableName(v) != "unknown"
  {
  }

  /** The values of a `State`; `LastUpdate` (a wall-clock reading) is not modelled. */
  datatype Body = Body(
    bodyTemp: real,
    heartRate: real,
    bloodPressure: real,
    respiratoryRate: real,
    hunger: real,
    thirst: real,
    fatigue: real,
    pain: real,
    muscleTension: real,
    bloodSugar: real,
    cortisol: real,
    adrenaline: real,
    serotonin: real,
    dopamine: real,
    immuneResponse: real,
    circadianPhase: real,
    spO2: real,
    hydration: real,
    glycogen: real,
    endorphins: real,
    cortisolLoad: real)

  /** `NewDefaultState`: a rested, fed person waking at 8:00. */
  function DefaultBody(): (r: Body)
    ensures r.cortisolLoad == 0.0
  {
    Body(36.6, 70.0, 120.0, 15.0, 0.0, 0.0, 0.0, 0.0, 0.0, 90.0, 0.1, 0.0, 0.5, 0.3, 0.1, 8.0, 98.0, 0.8, 0.7, 0.1,
         0.0)
  }

  /** `State.Get`: the named variable's value, 0 for an index naming none. */
  function Lookup(b: Body, v: Variable): real
  {
    if v == VarBodyTemp then b.bodyTemp
    else if v == VarHeartRate then b.heartRate
    else if v == VarBloodPressure then b.bloodPressure
    else if v == VarRespiratoryRate then b.respiratoryRate
    else if v == VarHunger then b.hunger
    else if v == VarThirst then b.thirst
    else if v == VarFatigue then b.fatigue
    else if v == VarPain then b.pain
    else if v == VarMuscleTension then b.muscleTension
    else if v == VarBloodSugar then b.bloodSugar
    else if v == VarCortisol then b.cortisol
    else if v == VarAdrenaline then b.adrenaline
    else if v == VarSerotonin then b.serotonin
    else if v == VarDopamine then b.dopamine
    else if v == VarImmuneResponse then b.immuneResponse
    else if v == VarCircadianPhase then b.circadianPhase
    else if v == VarSpO2 then b.spO2
    else if v == VarHydration then b.hydration
    else if v == VarGlycogen then b.glycogen
    else if v == VarEndorphins then b.endorphins
    else 0.0
  }

  /** `State.Set` on values: the named variable replaced, nothing for an index naming none. */
  function Assign(b: Body, v: Variable, x: real): Body
  {
    if v == VarBodyTemp then b.(bodyTemp := x)
    else if v == VarHeartRate then b.(heartRate := x)
    else if v == VarBloodPressure then b.(bloodPressure := x)
    else if v == VarRespiratoryRate then b.(respiratoryRate := x)
    else if v == VarHunger then b.(hunger := x)
    else if v == VarThirst then b.(thirst := x)
    else if v == VarFatigue then b.(fatigue := x)
    else if v == VarPain then b.(pain := x)
    else if v == VarMuscleTension then b.(muscleTension := x)
    else if v == VarBloodSugar then b.(bloodSugar := x)
    else if v == VarCortisol then b.(cortisol := x)
    else if v == VarAdrenaline then b.(adrenaline := x)
    else if v == VarSerotonin then b.(serotonin := x)
    else if v == VarDopamine then b.(dopamine := x)
    else if v == VarImmuneResponse then b.(immuneResponse := x)
    else if v == VarCircadianPhase then b.(circadianPhase := x)
    else if v == VarSpO2 then b.(spO2 := x)
    else if v == VarHydration then b.(hydration := x)
    else if v == VarGlycogen then b.(glycogen := x)
    else if v == VarEndorphins then b.(endorphins := x)
    else b
  }

  /** Set then Get of the same variable gives back the value set. */
  lemma GetAfterSet(b: Body, v: Variable, x: real)
    requires IsVariable(v)
    ensures Lookup(Assign(b, v, x), v) == x
  {
  }

  /** Set changes no other variable and leaves the cortisol load alone. */
  lemma SetLeavesOthers(b: Body, v: Variable, w: Variable, x: real)
    requires v != w
    ensures Lookup(Assign(b, v, x), w) == Lookup(b, w)
    ensures Assign(b, v, x).cortisolLoad == b.cortisolLoad
  {
  }

  /** An index naming no variable reads as 0 and is ignored by Set. */
  lemma UnknownVariable(b: Body, v: Variable, x: real)
    requires !IsVariable(v)
    ensures Lookup(b, v) == 0.0 && Assign(b, v, x) == b
  {
  }

  /** Writing back what was read changes nothing. */
  lemma SetOwnValue(b: Body, v: Variable)
    ensures Assign(b, v, Lookup(b, v)) == b
  {
  }

  /** Two bodies agreeing on all twenty variables and the cortisol load are equal. */
  lemma BodyExtensional(a: Body, b: Body)
    requires forall v :: IsVariable(v) ==> Lookup(a, v) == Lookup(b, v)
    requires a.cortisolLoad == b.cortisolLoad
    ensures a == b
  {
    assert Lookup(a, VarBodyTemp) == Lookup(b, VarBodyTemp);
    assert Lookup(a, VarHeartRate) == Lookup(b, VarHeartRate);
    assert Lookup(a, VarBloodPressure) == Lookup(b, VarBloodPressure);
    assert Lookup(a, VarRespiratoryRate) == Lookup(b, VarRespiratoryRate);
    assert Lookup(a, VarHunger) == Lookup(b, VarHunger);
    assert Lookup(a, VarThirst) == Lookup(b, VarThirst);
    assert Lookup(a, VarFatigue) == Lookup(b, VarFatigue);
    assert Lookup(a, VarPain) == Lookup(b, VarPain);
    assert Lookup(a, VarMuscleTension) == Lookup(b, VarMuscleTension);
    assert Lookup(a, VarBloodSugar) == Lookup(b, VarBloodSugar);
    assert Lookup(a, VarCortisol) == Lookup(b, VarCortisol);
    assert Lookup(a, VarAdrenaline) == Lookup(b, VarAdrenaline);
    assert Lookup(a, VarSerotonin) == Lookup(b, VarSerotonin);
    assert Lookup(a, VarDopamine) == Lookup(b, VarDopamine);
    assert Lookup(a, VarImmuneResponse) == Lookup(b, VarImmuneResponse);
    assert Lookup(a, VarCircadianPhase) == Lookup(b, VarCircadianPhase);
    assert Lookup(a, VarSpO2) == Lookup(b, VarSpO2);
    assert Lookup(a, VarHydration) == Lookup(b, VarHydration);
    assert Lookup(a, VarGlycogen) == Lookup(b, VarGlycogen);
    assert Lookup(a, VarEndorphins) == Lookup(b, VarEndorphins);
  }

  /** A change to one variable and what caused it. */
  datatype StateChange = StateChange(variable: Variable, delta: real, source: string)

  /** The mutable `State`. */
  class State {
    var bodyTemp: real
    var heartRate: real
    var bloodPressure: real
    var respiratoryRate: real
    var hunger: real
    var thirst: real
    var fatigue: real
    var pain: real
    var muscleTension: real
    var bloodSugar: real
    var cortisol: real
    var adrenaline: real
    var serotonin: real
    var dopamine: real
    var immuneResponse: real
    var circadianPhase: real
    var spO2: real
    var hydration: real
    var glycogen: real
    var endorphins: real
    var cortisolLoad: real

    function Value(): Body
      reads this
    {
      Body(bodyTemp, heartRate, bloodPressure, respiratoryRate, hunger, thirst, fatigue, pain, muscleTension, bloodSugar, cortisol, adrenaline, serotonin, dopamine, immuneResponse, circadianPhase, spO2, hydration, glycogen, endorphins, cortisolLoad)
    }

    /** `NewDefaultState`. */
    constructor ()
      ensures Value() == DefaultBody()
    {
      bodyTemp := 36.6;
      heartRate := 70.0;
      bloodPressure := 120.0;
      respiratoryRate := 15.0;
      hunger := 0.0;
      thirst := 0.0;
      fatigue := 0.0;
      pain := 0.0;
      muscleTension := 0.0;
      bloodSugar := 90.0;
      cortisol := 0.1;
      adrenaline := 0.0;
      serotonin := 0.5;
      dopamine := 0.3;
      immuneResponse := 0.1;
      circadianPhase := 8.0;
      spO2 := 98.0;
      hydration := 0.8;
      glycogen := 0.7;
      endorphins := 0.1;
      cortisolLoad := 0.0;
    }

    /** `State.Get`. */
    function Get(v: Variable): (r: real)
      reads this
      ensures r == Lookup(Value(), v)
    {
      if v == VarBodyTemp then bodyTemp
      else if v == VarHeartRate then heartRate
      else if v == VarBloodPressure then bloodPressure
      else if v == VarRespiratoryRate then respiratoryRate
      else if v == VarHunger then hunger
      else if v == VarThirst then thirst
      else if v == VarFatigue then fatigue
      else if v == VarPain then pain
      else if v == VarMuscleTension then muscleTension
      else if v == VarBloodSugar then bloodSugar
      else if v == VarCortisol then cortisol
      else if v == VarAdrenaline then adrenaline
      else if v == VarSerotonin then serotonin
      else if v == VarDopamine then dopamine
      else if v == VarImmuneResponse then immuneResponse
      else if v == VarCircadianPhase then circadianPhase
      else if v == VarSpO2 then spO2
      else if v == VarHydration then hydration
      else if v == VarGlycogen then glycogen
      else if v == VarEndorphins then endorphins
      else 0.0
    }

    /** `State.Set`: writes the field the index names. */
    method Set(v: Variable, x: real)
      modifies this
      ensures Value() == Assign(old(Value()), v, x)
    {
      ghost var b := Value();
      if v == VarBodyTemp {
        bodyTemp := x;
        assert Value() == b.(bodyTemp := x);
      } else if v == VarHeartRate {
        heartRate := x;
        assert Value() == b.(heartRate := x);
      } else if v == VarBloodPressure {
        bloodPressure := x;
        assert Value() == b.(bloodPressure := x);
      } else if v == VarRespiratoryRate {
        respiratoryRate := x;
        assert Value() == b.(respiratoryRate := x);
      } else if v == VarHunger {
        hunger := x;
        assert Value() == b.(hunger := x);
      } else if v == VarThirst {
        thirst := x;
        assert Value() == b.(thirst := x);
      } else if v == VarFatigue {
        fatigue := x;
        assert Value() == b.(fatigue := x);
      } else if v == VarPain {
        pain := x;
        assert Value() == b.(pain := x);
      } else if v == VarMuscleTension {
        muscleTension := x;
        assert Value() == b.(muscleTension := x);
      } else if v == VarBloodSugar {
        bloodSugar := x;
        assert Value() == b.(bloodSugar := x);
      } else if v == VarCortisol {
        cortisol := x;
        assert Value() == b.(cortisol := x);
      } else if v == VarAdrenaline {
        adrenaline := x;
        assert Value() == b.(adrenaline := x);
      } else if v == VarSerotonin {
        serotonin := x;
        assert Value() == b.(serotonin := x);
      } else if v == VarDopamine {
        dopamine := x;
        assert Value() == b.(dopamine := x);
      } else if v == VarImmuneResponse {
        immuneResponse := x;
        assert Value() == b.(immuneResponse := x);
      } else if v == VarCircadianPhase {
        circadianPhase := x;
        assert Value() == b.(circadianPhase := x);
      } else if v == VarSpO2 {
        spO2 := x;
        assert Value() == b.(spO2 := x);
      } else if v == VarHydration {
        hydration := x;
        assert Value() == b.(hydration := x);
      } else if v == VarGlycogen {
        glycogen := x;
        assert Value() == b.(glycogen := x);
      } else if v == VarEndorphins {
        endorphins := x;
        assert Value() == b.(endorphins := x);
      }
    }
  }
}
