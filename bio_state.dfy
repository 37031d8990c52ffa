// The eight motivation-shaped biological variables of the v2 engine, their
// valid ranges, clamping, and the by-name `Delta` that every other layer
// (interactions, feedback, threshold cascades) uses to change them.
module BioState {

  /** A snapshot of the eight variables (the Go `State` struct read by value). */
  datatype Bio = Bio(
    energy: real,
    stress: real,
    cognitiveCapacity: real,
    mood: real,
    physicalTension: real,
    hunger: real,
    socialDeficit: real,
    bodyTemp: real)

  /** A change of one variable, named by its snake_case field name. */
  datatype Delta = Delta(field: string, amount: real)

  datatype VarRange = VarRange(min: real, max: real)

  const UnitRange := VarRange(0.0, 1.0)
  const BodyTempRange := VarRange(25.0, 43.0)

  /** The field names `applyDelta` understands, in struct order. */
  const FieldNames: seq<string> :=
    ["energy", "stress", "cognitive_capacity", "mood",
     "physical_tension", "hunger", "social_deficit", "body_temp"]

  /** The range the v2 range table gives to a field name. */
  function RangeOf(field: string): (r: VarRange)
    ensures r.min < r.max
    ensures field == "body_temp" ==> r == BodyTempRange
    ensures field != "body_temp" ==> r == UnitRange
  {
    if field == "body_temp" then BodyTempRange else UnitRange
  }

  /** The value of a variable by field name; an unknown name reads as 0. */
  function Field(b: Bio, name: string): real
  {
    match name
    case "energy" => b.energy
    case "stress" => b.stress
    case "cognitive_capacity" => b.cognitiveCapacity
    case "mood" => b.mood
    case "physical_tension" => b.physicalTension
    case "hunger" => b.hunger
    case "social_deficit" => b.socialDeficit
    case "body_temp" => b.bodyTemp
    case _ => 0.0
  }

  /** Two snapshots that agree on every named field are equal. */
  lemma SameFieldsSameBio(a: Bio, b: Bio)
    requires forall k :: 0 <= k < |FieldNames| ==> Field(a, FieldNames[k]) == Field(b, FieldNames[k])
    ensures a == b
  {
    assert Field(a, FieldNames[0]) == Field(b, FieldNames[0]);
    assert Field(a, FieldNames[1]) == Field(b, FieldNames[1]);
    assert Field(a, FieldNames[2]) == Field(b, FieldNames[2]);
    assert Field(a, FieldNames[3]) == Field(b, FieldNames[3]);
    assert Field(a, FieldNames[4]) == Field(b, FieldNames[4]);
    assert Field(a, FieldNames[5]) == Field(b, FieldNames[5]);
    assert Field(a, FieldNames[6]) == Field(b, FieldNames[6]);
    assert Field(a, FieldNames[7]) == Field(b, FieldNames[7]);
  }

  /** Go's `Clamp(v, lo, hi)`: the lower bound is tested first. */
  function Clamp(v: real, lo: real, hi: real): (r: real)
    ensures lo <= hi ==> lo <= r <= hi
    ensures lo <= v <= hi ==> r == v
    ensures v < lo ==> r == lo
    ensures lo <= v && hi < v ==> r == hi
  {
    if v < lo then lo else if v > hi then hi else v
  }

  predicate InUnit(v: real) { 0.0 <= v <= 1.0 }

  /** Every variable lies within the range table. */
  predicate InRange(b: Bio)
  {
    InUnit(b.energy) && InUnit(b.stress) && InUnit(b.cognitiveCapacity) && InUnit(b.mood)
    && InUnit(b.physicalTension) && InUnit(b.hunger) && InUnit(b.socialDeficit)
    && BodyTempRange.min <= b.bodyTemp <= BodyTempRange.max
  }

  /** The snapshot after `ClampAll`. */
  function Clamped(b: Bio): (r: Bio)
    ensures InRange(r)
    ensures InRange(b) ==> r == b
    ensures InUnit(b.energy) ==> r.energy == b.energy
    ensures InUnit(b.stress) ==> r.stress == b.stress
    ensures InUnit(b.cognitiveCapacity) ==> r.cognitiveCapacity == b.cognitiveCapacity
    ensures InUnit(b.mood) ==> r.mood == b.mood
    ensures InUnit(b.physicalTension) ==> r.physicalTension == b.physicalTension
    ensures InUnit(b.hunger) ==> r.hunger == b.hunger
    ensures InUnit(b.socialDeficit) ==> r.socialDeficit == b.socialDeficit
    ensures 25.0 <= b.bodyTemp <= 43.0 ==> r.bodyTemp == b.bodyTemp
  {
    Bio(
      Clamp(b.energy, UnitRange.min, UnitRange.max),
      Clamp(b.stress, UnitRange.min, UnitRange.max),
      Clamp(b.cognitiveCapacity, UnitRange.min, UnitRange.max),
      Clamp(b.mood, UnitRange.min, UnitRange.max),
      Clamp(b.physicalTension, UnitRange.min, UnitRange.max),
      Clamp(b.hunger, UnitRange.min, UnitRange.max),
      Clamp(b.socialDeficit, UnitRange.min, UnitRange.max),
      Clamp(b.bodyTemp, BodyTempRange.min, BodyTempRange.max))
  }

  lemma ClampedIdempotent(b: Bio)
    ensures Clamped(Clamped(b)) == Clamped(b)
  {
  }

  /** Each field of a clamped snapshot lies in the range `RangeOf` gives its name. */
  lemma ClampedFieldInRange(b: Bio, k: nat)
    requires k < |FieldNames|
    ensures RangeOf(FieldNames[k]).min <= Field(Clamped(b), FieldNames[k]) <= RangeOf(FieldNames[k]).max
  {
  }

  /** `NewDefaultState`: a healthy, rested person. */
  function DefaultBio(): (b: Bio)
    ensures InRange(b)
  {
    Bio(0.80, 0.10, 1.00, 0.50, 0.05, 0.10, 0.00, 36.6)
  }

  /** How much a delta adds to the field called `name`. */
  function Bump(name: string, d: Delta): real
  {
    if d.field == name then d.amount else 0.0
  }

  /** The snapshot after `applyDelta`: the named field moves by the amount. */
  function WithDelta(b: Bio, d: Delta): (r: Bio)
    ensures r.energy == b.energy + Bump("energy", d)
    ensures r.stress == b.stress + Bump("stress", d)
    ensures r.cognitiveCapacity == b.cognitiveCapacity + Bump("cognitive_capacity", d)
    ensures r.mood == b.mood + Bump("mood", d)
    ensures r.physicalTension == b.physicalTension + Bump("physical_tension", d)
    ensures r.hunger == b.hunger + Bump("hunger", d)
    ensures r.socialDeficit == b.socialDeficit + Bump("social_deficit", d)
    ensures r.bodyTemp == b.bodyTemp + Bump("body_temp", d)
  {
    match d.field
    case "energy" => b.(energy := b.energy + d.amount)
    case "stress" => b.(stress := b.stress + d.amount)
    case "cognitive_capacity" => b.(cognitiveCapacity := b.cognitiveCapacity + d.amount)
    case "mood" => b.(mood := b.mood + d.amount)
    case "physical_tension" => b.(physicalTension := b.physicalTension + d.amount)
    case "hunger" => b.(hunger := b.hunger + d.amount)
    case "social_deficit" => b.(socialDeficit := b.socialDeficit + d.amount)
    case "body_temp" => b.(bodyTemp := b.bodyTemp + d.amount)
    case _ => b
  }

  /** A delta moves exactly the field it names and leaves every other field alone. */
  lemma WithDeltaOnlyNamedField(b: Bio, d: Delta, k: nat)
    requires k < |FieldNames|
    ensures Field(WithDelta(b, d), FieldNames[k])
         == Field(b, FieldNames[k]) + (if FieldNames[k] == d.field then d.amount else 0.0)
  {
  }

  /** A delta naming no known field changes nothing. */
  lemma UnknownFieldNoOp(b: Bio, d: Delta)
    requires d.field !in FieldNames
    ensures WithDelta(b, d) == b
  {
  }

  /** The deltas applied one after another, first to last. */
  function ApplyDeltas(b: Bio, ds: seq<Delta>): Bio
    decreases |ds|
  {
    if ds == [] then b else ApplyDeltas(WithDelta(b, ds[0]), ds[1..])
  }

  /** Total amount a list of deltas adds to the field `name`. */
  function AmountFor(ds: seq<Delta>, name: string): real
    decreases |ds|
  {
    if ds == [] then 0.0 else Bump(name, ds[0]) + AmountFor(ds[1..], name)
  }

  /** Applying `xs` then `ys` is applying `xs + ys`. */
  lemma {:induction false} ApplyDeltasAppend(b: Bio, xs: seq<Delta>, ys: seq<Delta>)
    ensures ApplyDeltas(b, xs + ys) == ApplyDeltas(ApplyDeltas(b, xs), ys)
    decreases |xs|
  {
    if xs == [] {
      assert xs + ys == ys;
    } else {
      assert (xs + ys)[1..] == xs[1..] + ys;
      ApplyDeltasAppend(WithDelta(b, xs[0]), xs[1..], ys);
    }
  }

  /** One more delta at the end is one more `WithDelta`. */
  lemma ApplyDeltasSnoc(b: Bio, ds: seq<Delta>, d: Delta)
    ensures ApplyDeltas(b, ds + [d]) == WithDelta(ApplyDeltas(b, ds), d)
  {
    ApplyDeltasAppend(b, ds, [d]);
    assert ApplyDeltas(ApplyDeltas(b, ds), [d]) == ApplyDeltas(WithDelta(ApplyDeltas(b, ds), d), []);
  }

  /** Each field ends up moved by the sum of the amounts naming it, whatever their order. */
  lemma {:induction false} ApplyDeltasSums(b: Bio, ds: seq<Delta>)
    ensures ApplyDeltas(b, ds).energy == b.energy + AmountFor(ds, "energy")
    ensures ApplyDeltas(b, ds).stress == b.stress + AmountFor(ds, "stress")
    ensures ApplyDeltas(b, ds).cognitiveCapacity == b.cognitiveCapacity + AmountFor(ds, "cognitive_capacity")
    ensures ApplyDeltas(b, ds).mood == b.mood + AmountFor(ds, "mood")
    ensures ApplyDeltas(b, ds).physicalTension == b.physicalTension + AmountFor(ds, "physical_tension")
    ensures ApplyDeltas(b, ds).hunger == b.hunger + AmountFor(ds, "hunger")
    ensures ApplyDeltas(b, ds).socialDeficit == b.socialDeficit + AmountFor(ds, "social_deficit")
    ensures ApplyDeltas(b, ds).bodyTemp == b.bodyTemp + AmountFor(ds, "body_temp")
    decreases |ds|
  {
    if ds != [] {
      ApplyDeltasSums(WithDelta(b, ds[0]), ds[1..]);
    }
  }

  /** Deltas whose amounts are all zero leave the snapshot unchanged. */
  lemma {:induction false} ZeroDeltasNoOp(b: Bio, ds: seq<Delta>)
    requires forall i :: 0 <= i < |ds| ==> ds[i].amount == 0.0
    ensures ApplyDeltas(b, ds) == b
    decreases |ds|
  {
    if ds != [] {
      assert WithDelta(b, ds[0]) == b;
      ZeroDeltasNoOp(b, ds[1..]);
    }
  }

  /** The mutable Go `State`; `UpdatedAt` is not modelled. */
  class State {
    var energy: real
    var stress: real
    var cognitiveCapacity: real
    var mood: real
    var physicalTension: real
    var hunger: real
    var socialDeficit: real
    var bodyTemp: real

    function Value(): Bio
      reads this
    {
      Bio(energy, stress, cognitiveCapacity, mood, physicalTension, hunger, socialDeficit, bodyTemp)
    }

    /** `NewDefaultState`. */
    constructor ()
      ensures Value() == DefaultBio()
    {
      energy := 0.80;
      stress := 0.10;
      cognitiveCapacity := 1.00;
      mood := 0.50;
      physicalTension := 0.05;
      hunger := 0.10;
      socialDeficit := 0.00;
      bodyTemp := 36.6;
    }
  }

  /** `ClampAll`: every field is clamped in place. */
  method ClampAll(s: State)
    modifies s
    ensures s.Value() == Clamped(old(s.Value()))
    ensures InRange(s.Value())
  {
    s.energy := Clamp(s.energy, UnitRange.min, UnitRange.max);
    s.stress := Clamp(s.stress, UnitRange.min, UnitRange.max);
    s.cognitiveCapacity := Clamp(s.cognitiveCapacity, UnitRange.min, UnitRange.max);
    s.mood := Clamp(s.mood, UnitRange.min, UnitRange.max);
    s.physicalTension := Clamp(s.physicalTension, UnitRange.min, UnitRange.max);
    s.hunger := Clamp(s.hunger, UnitRange.min, UnitRange.max);
    s.socialDeficit := Clamp(s.socialDeficit, UnitRange.min, UnitRange.max);
    s.bodyTemp := Clamp(s.bodyTemp, BodyTempRange.min, BodyTempRange.max);
  }

  /** `applyDelta`: add the amount to the named field, ignore unknown names. */
  method ApplyDelta(s: State, d: Delta)
    modifies s
    ensures s.Value() == WithDelta(old(s.Value()), d)
  {
    match d.field
    case "energy" => s.energy := s.energy + d.amount;
    case "stress" => s.stress := s.stress + d.amount;
    case "cognitive_capacity" => s.cognitiveCapacity := s.cognitiveCapacity + d.amount;
    case "mood" => s.mood := s.mood + d.amount;
    case "physical_tension" => s.physicalTension := s.physicalTension + d.amount;
    case "hunger" => s.hunger := s.hunger + d.amount;
    case "social_deficit" => s.socialDeficit := s.socialDeficit + d.amount;
    case "body_temp" => s.bodyTemp := s.bodyTemp + d.amount;
    case _ =>
  }
}
