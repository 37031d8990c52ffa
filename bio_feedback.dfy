// Tick-end feedback: effects collected during a tick are committed once at its
// end. Rates are per second and scaled by the tick's dt; pulses are absolute.
module BioFeedback {
  import opened BioState

  datatype BioRate = BioRate(field: string, perSecond: real)
  datatype BioPulse = BioPulse(field: string, amount: real)
  datatype FeedbackEnvelope = FeedbackEnvelope(rates: seq<BioRate>, pulses: seq<BioPulse>)

  /** The deltas the rates contribute over `dt` seconds. */
  function RateDeltas(rates: seq<BioRate>, dt: real): (ds: seq<Delta>)
    ensures |ds| == |rates|
    ensures forall i :: 0 <= i < |rates| ==>
      ds[i].field == rates[i].field && ds[i].amount == rates[i].perSecond * dt
  {
    seq(|rates|, i requires 0 <= i < |rates| => Delta(rates[i].field, rates[i].perSecond * dt))
  }

  /** Appending a rate appends its scaled delta. */
  lemma RateDeltasSnoc(rates: seq<BioRate>, r: BioRate, dt: real)
    ensures RateDeltas(rates + [r], dt) == RateDeltas(rates, dt) + [Delta(r.field, r.perSecond * dt)]
  {
    var lhs := RateDeltas(rates + [r], dt);
    var rhs := RateDeltas(rates, dt) + [Delta(r.field, r.perSecond * dt)];
    assert |lhs| == |rhs|;
    forall k | 0 <= k < |lhs|
      ensures lhs[k] == rhs[k]
    {
      if k < |rates| {
        assert (rates + [r])[k] == rates[k];
      }
    }
  }

  /** The deltas the pulses contribute, independent of dt. */
  function PulseDeltas(pulses: seq<BioPulse>): (ds: seq<Delta>)
    ensures |ds| == |pulses|
    ensures forall i :: 0 <= i < |pulses| ==>
      ds[i].field == pulses[i].field && ds[i].amount == pulses[i].amount
  {
    seq(|pulses|, i requires 0 <= i < |pulses| => Delta(pulses[i].field, pulses[i].amount))
  }

  /** The snapshot after `ApplyFeedbackAtTickEnd`: rates, then pulses, then clamping. */
  function FeedbackResult(b: Bio, dt: real, env: FeedbackEnvelope): (r: Bio)
    ensures InRange(r)
  {
    Clamped(ApplyDeltas(ApplyDeltas(b, RateDeltas(env.rates, dt)), PulseDeltas(env.pulses)))
  }

  /** At dt = 0 the rates contribute nothing and only the pulses act. */
  lemma ZeroDtOnlyPulses(b: Bio, env: FeedbackEnvelope)
    ensures FeedbackResult(b, 0.0, env) == Clamped(ApplyDeltas(b, PulseDeltas(env.pulses)))
  {
    ZeroDeltasNoOp(b, RateDeltas(env.rates, 0.0));
  }

  /** A mood rate of 0.01/s over 10 s plus a mood pulse of 0.10 lifts 0.30 to 0.50. */
  lemma RateScaledPulseAbsoluteExample()
    ensures FeedbackResult(DefaultBio().(mood := 0.30), 10.0,
              FeedbackEnvelope([BioRate("mood", 0.01)], [BioPulse("mood", 0.10)])).mood == 0.50
  {
    var b := DefaultBio().(mood := 0.30);
    var rates := RateDeltas([BioRate("mood", 0.01)], 10.0);
    var pulses := PulseDeltas([BioPulse("mood", 0.10)]);
    assert rates == [Delta("mood", 0.01 * 10.0)];
    assert pulses == [Delta("mood", 0.10)];
    ApplyDeltasSums(b, rates);
    ApplyDeltasSums(ApplyDeltas(b, rates), pulses);
    assert AmountFor(rates, "mood") == 0.1;
    assert AmountFor(pulses, "mood") == 0.10;
  }

  /** At dt = 0 a stress rate is ignored while a stress pulse of -0.10 takes 0.20 to 0.10. */
  lemma PulseAppliesAtZeroDtExample()
    ensures FeedbackResult(DefaultBio().(stress := 0.20), 0.0,
              FeedbackEnvelope([BioRate("stress", 0.50)], [BioPulse("stress", -0.10)])).stress == 0.10
  {
    var b := DefaultBio().(stress := 0.20);
    var env := FeedbackEnvelope([BioRate("stress", 0.50)], [BioPulse("stress", -0.10)]);
    ZeroDtOnlyPulses(b, env);
    var pulses := PulseDeltas(env.pulses);
    assert pulses == [Delta("stress", -0.10)];
    ApplyDeltasSums(b, pulses);
    assert AmountFor(pulses, "stress") == -0.10;
  }

  /** `ApplyFeedbackAtTickEnd`. */
  method ApplyFeedbackAtTickEnd(s: State, dt: real, env: FeedbackEnvelope)
    modifies s
    ensures s.Value() == FeedbackResult(old(s.Value()), dt, env)
  {
    ghost var b0 := s.Value();
    var i := 0;
    while i < |env.rates|
      invariant 0 <= i <= |env.rates|
      invariant s.Value() == ApplyDeltas(b0, RateDeltas(env.rates[..i], dt))
    {
      var d := Delta(env.rates[i].field, env.rates[i].perSecond * dt);
      ApplyDeltasSnoc(b0, RateDeltas(env.rates[..i], dt), d);
      ghost var done, r := env.rates[..i], env.rates[i];
      assert env.rates[..i + 1] == done + [r];
      RateDeltasSnoc(done, r, dt);
      assert d == Delta(r.field, r.perSecond * dt);
      ApplyDelta(s, d);
      i := i + 1;
    }
    assert env.rates[..i] == env.rates;
    ghost var b1 := s.Value();
    var j := 0;
    while j < |env.pulses|
      invariant 0 <= j <= |env.pulses|
      invariant s.Value() == ApplyDeltas(b1, PulseDeltas(env.pulses[..j]))
    {
      var d := Delta(env.pulses[j].field, env.pulses[j].amount);
      ApplyDeltasSnoc(b1, PulseDeltas(env.pulses[..j]), d);
      assert PulseDeltas(env.pulses[..j + 1]) == PulseDeltas(env.pulses[..j]) + [d];
      ApplyDelta(s, d);
      j := j + 1;
    }
    assert env.pulses[..j] == env.pulses;
    ClampAll(s);
  }

  /** Collects effects during a tick without touching any `State`. */
  class TickFeedbackBuffer {
    var rates: seq<BioRate>
    var pulses: seq<BioPulse>

    /** The zero value: nothing collected. */
    constructor ()
      ensures rates == [] && pulses == []
    {
      rates := [];
      pulses := [];
    }

    method AddRates(more: seq<BioRate>)
      modifies this`rates
      ensures rates == old(rates) + more
    {
      if |more| == 0 {
        return;
      }
      rates := rates + more;
    }

    method AddPulses(more: seq<BioPulse>)
      modifies this`pulses
      ensures pulses == old(pulses) + more
    {
      if |more| == 0 {
        return;
      }
      pulses := pulses + more;
    }

    /** Commit everything collected to `s` and empty both buffers. */
    method ApplyAtTickEnd(s: State, dt: real)
      modifies this, s
      ensures s.Value() == FeedbackResult(old(s.Value()), dt, FeedbackEnvelope(old(rates), old(pulses)))
      ensures rates == [] && pulses == []
    {
      ApplyFeedbackAtTickEnd(s, dt, FeedbackEnvelope(rates, pulses));
      rates := [];
      pulses := [];
    }
  }

  /**
   * A hunger pulse of -0.20 and a stress rate of 0.05/s, collected into an
   * empty buffer and committed over 2 s, take hunger 0.70 to 0.50 and stress
   * 0.10 to 0.20; the state is untouched until the commit.
   */
  method BufferAppliesOnlyAtTickEnd() returns (hunger: real, stress: real)
    ensures hunger == 0.50 && stress == 0.20
  {
    var s := new State();
    s.hunger := 0.70;
    s.stress := 0.10;
    var buffer := new TickFeedbackBuffer();
    buffer.AddPulses([BioPulse("hunger", -0.20)]);
    buffer.AddRates([BioRate("stress", 0.05)]);
    assert s.hunger == 0.70 && s.stress == 0.10;
    assert buffer.rates == [BioRate("stress", 0.05)];
    assert buffer.pulses == [BioPulse("hunger", -0.20)];
    ghost var b := s.Value();
    buffer.ApplyAtTickEnd(s, 2.0);
    var rates := RateDeltas([BioRate("stress", 0.05)], 2.0);
    var pulses := PulseDeltas([BioPulse("hunger", -0.20)]);
    assert rates == [Delta("stress", 0.05 * 2.0)];
    assert pulses == [Delta("hunger", -0.20)];
    ApplyDeltasSums(b, rates);
    ApplyDeltasSums(ApplyDeltas(b, rates), pulses);
    assert AmountFor(rates, "stress") == 0.1;
    assert AmountFor(rates, "hunger") == 0.0;
    assert AmountFor(pulses, "hunger") == -0.20;
    assert AmountFor(pulses, "stress") == 0.0;
    hunger, stress := s.hunger, s.stress;
  }
}
