// The biology processor's stimulus path, its significance filter and the
// guard and cap on a tick's elapsed time, over the v1 variable model.
module BiologyProcessor {
  import opened Wrappers
  import opened V1Biology
  import opened V1Interactions
  import opened CriticalThresholds

  /** Go's `sense.Channel int`, numbered from `Visual`. */
  type Channel = int
  const Visual: Channel := 0
  const Auditory: Channel := 1
  const Tactile: Channel := 2
  const Thermal: Channel := 3
  const Pain: Channel := 4
  const Olfactory: Channel := 5
  const Gustatory: Channel := 6
  const Vestibular: Channel := 7
  const Interoceptive: Channel := 8

  /** A sensory event: the channel and its intensity (nominally 0..1). */
  datatype Event = Event(channel: Channel, intensity: real)

  function Abs(x: real): (r: real)
    ensures r >= 0.0 && (r == x || r == -x)
  {
    if x < 0.0 then -x else x
  }

  // ---------------------------------------------------------------------------
  // Significance

  /** `isSignificant`: the per-variable threshold on the size of a change. */
  predicate IsSignificant(c: StateChange)
  {
    if c.variable == VarHeartRate then Abs(c.delta) >= 2.0
    else if c.variable == VarBloodPressure then Abs(c.delta) >= 3.0
    else if c.variable == VarBodyTemp then Abs(c.delta) >= 0.1
    else if c.variable == VarRespiratoryRate then Abs(c.delta) >= 1.0
    else if c.variable == VarBloodSugar then Abs(c.delta) >= 2.0
    else if c.variable == VarSpO2 then Abs(c.delta) >= 0.5
    else Abs(c.delta) >= 0.01
  }

  /** Significance depends on the size of a change, not its direction. */
  lemma SignificanceIgnoresSign(c: StateChange)
    ensures IsSignificant(c) <==> IsSignificant(c.(delta := -c.delta))
  {
  }

  /** A larger change of the same variable is significant whenever a smaller one is. */
  lemma SignificanceMonotone(c: StateChange, d: real)
    requires Abs(d) >= Abs(c.delta)
    ensures IsSignificant(c) ==> IsSignificant(c.(delta := d))
  {
  }

  /** The cut-offs for the six vital signs and for a ratio variable, just below and above. */
  lemma SignificanceThresholdExamples()
    ensures !IsSignificant(StateChange(VarHeartRate, 1.5, "test")) && IsSignificant(StateChange(VarHeartRate, 2.5, "test"))
    ensures !IsSignificant(StateChange(VarBloodPressure, 2.0, "test")) && IsSignificant(StateChange(VarBloodPressure, 4.0, "test"))
    ensures !IsSignificant(StateChange(VarBodyTemp, 0.05, "test")) && IsSignificant(StateChange(VarBodyTemp, 0.15, "test"))
    ensures !IsSignificant(StateChange(VarRespiratoryRate, 0.5, "test")) && IsSignificant(StateChange(VarRespiratoryRate, 1.5, "test"))
    ensures !IsSignificant(StateChange(VarBloodSugar, 1.0, "test")) && IsSignificant(StateChange(VarBloodSugar, 3.0, "test"))
    ensures !IsSignificant(StateChange(VarSpO2, 0.3, "test")) && IsSignificant(StateChange(VarSpO2, 0.7, "test"))
    ensures !IsSignificant(StateChange(VarCortisol, 0.005, "test")) && IsSignificant(StateChange(VarCortisol, 0.02, "test"))
  {
  }

  /** The significant changes, in order: the specification of `SignificantChanges`. */
  function Significant(cs: seq<StateChange>): seq<StateChange>
  {
    if cs == [] then []
    else Significant(cs[..|cs| - 1]) + (if IsSignificant(cs[|cs| - 1]) then [cs[|cs| - 1]] else [])
  }

  /** A change survives the filter exactly when it is in the input and significant. */
  lemma {:induction false} SignificantMembership(cs: seq<StateChange>, c: StateChange)
    ensures c in Significant(cs) <==> c in cs && IsSignificant(c)
  {
    if cs != [] {
      var init := cs[..|cs| - 1];
      SignificantMembership(init, c);
      assert cs == init + [cs[|cs| - 1]];
    }
  }

  /** Filtering a concatenation filters each part: the relative order is kept. */
  lemma {:induction false} SignificantAppend(a: seq<StateChange>, b: seq<StateChange>)
    ensures Significant(a + b) == Significant(a) + Significant(b)
    decreases |b|
  {
    if b == [] {
      assert a + b == a;
    } else {
      var init := b[..|b| - 1];
      assert (a + b)[..|a + b| - 1] == a + init;
      SignificantAppend(a, init);
    }
  }

  /** Nothing is dropped when every change is significant. */
  lemma {:induction false} SignificantKeepsSignificant(cs: seq<StateChange>)
    requires forall i :: 0 <= i < |cs| ==> IsSignificant(cs[i])
    ensures Significant(cs) == cs
  {
    if cs != [] {
      SignificantKeepsSignificant(cs[..|cs| - 1]);
    }
  }

  /** Filtering twice is filtering once. */
  lemma {:induction false} SignificantIdempotent(cs: seq<StateChange>)
    ensures Significant(Significant(cs)) == Significant(cs)
  {
    var r := Significant(cs);
    forall i | 0 <= i < |r|
      ensures IsSignificant(r[i])
    {
      assert r[i] in r;
      SignificantMembership(cs, r[i]);
    }
    SignificantKeepsSignificant(r);
  }

  /** `SignificantChanges`: a filter loop over the changes; empty input gives an empty result. */
  method SignificantChanges(changes: seq<StateChange>) returns (significant: seq<StateChange>)
    ensures significant == Significant(changes)
    ensures changes == [] ==> significant == []
  {
    significant := [];
    var i := 0;
    while i < |changes|
      invariant 0 <= i <= |changes|
      invariant significant == Significant(changes[..i])
    {
      assert changes[..i + 1][..i] == changes[..i];
      if IsSignificant(changes[i]) {
        significant := significant + [changes[i]];
      }
      i := i + 1;
    }
    assert changes[..i] == changes;
  }

  // ---------------------------------------------------------------------------
  // Stimuli

  /** `processThermal`: below 0.5 a cold shift, otherwise a heat shift, four degrees per unit. */
  function ThermalChanges(e: Event): (r: seq<StateChange>)
    ensures |r| == 1 && r[0].variable == VarBodyTemp
    ensures e.intensity < 0.5 <==> r[0].delta < 0.0
    ensures 0.0 <= e.intensity <= 1.0 ==> -2.0 <= r[0].delta <= 2.0
  {
    if e.intensity < 0.5 then [StateChange(VarBodyTemp, -(0.5 - e.intensity) * 4.0, "thermal_stimulus_cold")]
    else [StateChange(VarBodyTemp, (e.intensity - 0.5) * 4.0, "thermal_stimulus_heat")]
  }

  /** `processPain`: pain rises by the intensity, adrenaline by 30% of it. */
  function PainChanges(e: Event): (r: seq<StateChange>)
    ensures |r| == 2 && r[0].variable == VarPain && r[1].variable == VarAdrenaline
    ensures r[0].delta == e.intensity && r[1].delta == 0.3 * r[0].delta
  {
    [StateChange(VarPain, e.intensity, "pain_stimulus"),
     StateChange(VarAdrenaline, e.intensity * 0.3, "pain_adrenaline_response")]
  }

  /** `processAuditory`: only a sound above 0.7 startles, raising adrenaline and heart rate. */
  function AuditoryChanges(e: Event): (r: seq<StateChange>)
    ensures r == [] <==> e.intensity <= 0.7
    ensures r != [] ==> (|r| == 2 && r[0].variable == VarAdrenaline && r[1].variable == VarHeartRate
      && r[0].delta > 0.0 && r[1].delta == 40.0 * r[0].delta)
  {
    if e.intensity > 0.7 then
      [StateChange(VarAdrenaline, (e.intensity - 0.7) * 0.5, "startle_response"),
       StateChange(VarHeartRate, (e.intensity - 0.7) * 20.0, "startle_response")]
    else []
  }

  /** `processVisual`: only a sight above 0.8 is threatening and raises adrenaline. */
  function VisualChanges(e: Event): (r: seq<StateChange>)
    ensures r == [] <==> e.intensity <= 0.8
    ensures r != [] ==> |r| == 1 && r[0].variable == VarAdrenaline && r[0].delta > 0.0
  {
    if e.intensity > 0.8 then [StateChange(VarAdrenaline, (e.intensity - 0.8) * 0.4, "visual_threat")]
    else []
  }

  /** The changes `ProcessStimulus` derives for an event, by channel; other channels give none. */
  function StimulusChanges(e: Event): seq<StateChange>
  {
    if e.channel == Thermal then ThermalChanges(e)
    else if e.channel == Pain then PainChanges(e)
    else if e.channel == Auditory then AuditoryChanges(e)
    else if e.channel == Visual then VisualChanges(e)
    else []
  }

  /** Quiet sounds and harmless sights produce no change. */
  lemma QuietStimuliAreSilent(e: Event)
    ensures e.channel == Auditory && e.intensity <= 0.7 ==> StimulusChanges(e) == []
    ensures e.channel == Visual && e.intensity <= 0.8 ==> StimulusChanges(e) == []
  {
  }

  /** One change applied as `ProcessStimulus` applies it: the sum, clamped into the variable's range. */
  function ApplyChange(b: Body, c: StateChange): Body
  {
    Assign(b, c.variable, ClampVariable(c.variable, Lookup(b, c.variable) + c.delta))
  }

  /** The body after applying the changes in order. */
  function Applied(b: Body, cs: seq<StateChange>): Body
  {
    if cs == [] then b else ApplyChange(Applied(b, cs[..|cs| - 1]), cs[|cs| - 1])
  }

  predicate Touches(cs: seq<StateChange>, v: Variable)
  {
    exists i :: 0 <= i < |cs| && cs[i].variable == v
  }

  /** One applied change puts its own variable in range and leaves every other variable alone. */
  lemma ApplyChangeEffect(b: Body, c: StateChange, v: Variable)
    ensures c.variable == v && IsVariable(v) ==>
      VariableRanges[v].lo <= Lookup(ApplyChange(b, c), v) <= VariableRanges[v].hi
    ensures c.variable != v ==> Lookup(ApplyChange(b, c), v) == Lookup(b, v)
  {
    var x := ClampVariable(c.variable, Lookup(b, c.variable) + c.delta);
    if c.variable == v {
      if IsVariable(v) {
        GetAfterSet(b, v, x);
      }
    } else {
      SetLeavesOthers(b, c.variable, v, x);
    }
  }

  /** Applying the changes leaves every variable they do not name as it was. */
  lemma {:induction false} AppliedLeavesOthers(b: Body, cs: seq<StateChange>, v: Variable)
    requires !Touches(cs, v)
    ensures Lookup(Applied(b, cs), v) == Lookup(b, v)
  {
    if cs != [] {
      var init, last := cs[..|cs| - 1], cs[|cs| - 1];
      assert !Touches(init, v) by {
        forall i | 0 <= i < |init|
          ensures init[i].variable != v
        {
          assert init[i] == cs[i];
        }
      }
      AppliedLeavesOthers(b, init, v);
      assert last.variable != v;
      ApplyChangeEffect(Applied(b, init), last, v);
    }
  }

  /** Every variable the changes name ends inside its range. */
  lemma {:induction false} AppliedInRange(b: Body, cs: seq<StateChange>, v: Variable)
    requires IsVariable(v) && Touches(cs, v)
    ensures VariableRanges[v].lo <= Lookup(Applied(b, cs), v) <= VariableRanges[v].hi
  {
    var init, last := cs[..|cs| - 1], cs[|cs| - 1];
    ApplyChangeEffect(Applied(b, init), last, v);
    if last.variable != v {
      TouchesBeforeLast(cs, v);
      AppliedInRange(b, init, v);
    }
  }

  lemma TouchesBeforeLast(cs: seq<StateChange>, v: Variable)
    requires Touches(cs, v) && cs[|cs| - 1].variable != v
    ensures Touches(cs[..|cs| - 1], v)
  {
    var i :| 0 <= i < |cs| && cs[i].variable == v;
    assert cs[..|cs| - 1][i] == cs[i];
  }

  /** Channels without a handler produce no change and leave the body as it was. */
  lemma UnhandledChannelsAreSilent(b: Body, e: Event)
    requires e.channel !in {Thermal, Pain, Auditory, Visual}
    ensures StimulusChanges(e) == [] && Applied(b, StimulusChanges(e)) == b
  {
  }

  /** `ProcessStimulus`: derive the changes, then apply each one clamped, in order. */
  method ProcessStimulus(s: State, e: Event) returns (changes: seq<StateChange>)
    modifies s
    ensures changes == StimulusChanges(e)
    ensures s.Value() == Applied(old(s.Value()), changes)
  {
    changes := StimulusChanges(e);
    ghost var b := s.Value();
    var i := 0;
    while i < |changes|
      invariant 0 <= i <= |changes|
      invariant s.Value() == Applied(b, changes[..i])
    {
      var c := changes[i];
      assert changes[..i + 1][..i] == changes[..i];
      s.Set(c.variable, ClampVariable(c.variable, s.Get(c.variable) + c.delta));
      i := i + 1;
    }
    assert changes[..i] == changes;
  }

  /** A pain event of intensity 0.5 on a resting body leaves pain at 0.5 and adrenaline at 0.15. */
  lemma PainEventExample()
    ensures Lookup(Applied(DefaultBody(), StimulusChanges(Event(Pain, 0.5))), VarPain) == 0.5
    ensures Lookup(Applied(DefaultBody(), StimulusChanges(Event(Pain, 0.5))), VarAdrenaline) == 0.15
  {
    var cs := StimulusChanges(Event(Pain, 0.5));
    assert cs[..1][..0] == [] && cs[..|cs| - 1] == cs[..1];
    var p := ApplyChange(DefaultBody(), cs[0]);
    assert Applied(DefaultBody(), cs[..1]) == p;
    assert p == Assign(DefaultBody(), VarPain, 0.5);
    GetAfterSet(DefaultBody(), VarPain, 0.5);
    SetLeavesOthers(DefaultBody(), VarPain, VarAdrenaline, 0.5);
    assert Lookup(p, VarAdrenaline) == 0.0;
    assert ApplyChange(p, cs[1]) == Assign(p, VarAdrenaline, 0.15);
    GetAfterSet(p, VarAdrenaline, 0.15);
    SetLeavesOthers(p, VarAdrenaline, VarPain, 0.15);
  }

  // ---------------------------------------------------------------------------
  // Tick

  /** Longest elapsed time one tick accounts for, in seconds. */
  const MaxTickDt: real := 300.0

  /** The tick's guard and cap: no tick at all unless time moved forward; at most five minutes. */
  function TickDt(dt: real): (r: Option<real>)
    ensures r.None? <==> dt <= 0.0
    ensures r.Some? ==> 0.0 < r.value <= MaxTickDt
    ensures r.Some? && dt <= MaxTickDt ==> r.value == dt
  {
    if dt <= 0.0 then None else if dt > MaxTickDt then Some(MaxTickDt) else Some(dt)
  }

  /** Any gap beyond five minutes ticks exactly as five minutes do. */
  lemma TickDtCapped(dt: real)
    requires dt >= MaxTickDt
    ensures TickDt(dt) == TickDt(MaxTickDt) == Some(MaxTickDt)
  {
  }

  /**
   * The cap does not protect the hypothermia overrides: a 20-second tick, well inside it,
   * takes adrenaline 0.5 to -0.5 with the uncapped drop, while the capped drop stops at 0.
   */
  lemma TickCapAllowsNegativeAdrenaline()
    ensures TickDt(20.0) == Some(20.0)
    ensures 0.5 - AdrenalineDropAsWritten(0.5, TickDt(20.0).value) < 0.0
    ensures 0.5 - AdrenalineDrop(0.5, TickDt(20.0).value) == 0.0
  {
  }
}
