// Autonomous linear decay of five of the eight variables, with the elapsed
// time capped at one minute. No clamping happens here.
module BioDecay {
  import opened BioState

  const EnergyDecayRate: real := 0.00067
  const HungerDecayRate: real := 0.00083
  const CogCapDecayRate: real := 0.00050
  const MoodDecayRate: real := 0.00033
  const SocialDecayRate: real := 0.00033

  /** Longest elapsed time one decay step accounts for, in seconds. */
  const MaxDecayDt: real := 60.0

  datatype DecayConfig = DecayConfig(decayMultiplier: real, homeostasisEnabled: bool)

  /** The development default: five times normal speed, no homeostasis. */
  const DefaultDecayConfig := DecayConfig(5.0, false)

  function CappedDt(dt: real): (r: real)
    ensures r <= MaxDecayDt
    ensures dt <= MaxDecayDt ==> r == dt
    ensures MaxDecayDt < dt ==> r == MaxDecayDt
  {
    if dt > MaxDecayDt then MaxDecayDt else dt
  }

  /** The multiplier applied to every per-second decay rate: speed times capped elapsed time. */
  function DecayRate(cfg: DecayConfig, dt: real): real
  {
    cfg.decayMultiplier * CappedDt(dt)
  }

  /** The snapshot after `ApplyDecay`. */
  function Decayed(b: Bio, cfg: DecayConfig, dt: real): (r: Bio)
    ensures r.stress == b.stress && r.physicalTension == b.physicalTension && r.bodyTemp == b.bodyTemp
  {
    var rate := DecayRate(cfg, dt);
    b.(energy := b.energy - EnergyDecayRate * rate,
       hunger := b.hunger + HungerDecayRate * rate,
       cognitiveCapacity := b.cognitiveCapacity - CogCapDecayRate * rate,
       mood := b.mood - MoodDecayRate * rate,
       socialDeficit := b.socialDeficit + SocialDecayRate * rate)
  }

  /** `ApplyDecay`: in-place decrements and increments of the five decaying fields. */
  method ApplyDecay(s: State, cfg: DecayConfig, dt: real)
    modifies s
    ensures s.Value() == Decayed(old(s.Value()), cfg, dt)
  {
    var elapsed := dt;
    if elapsed > MaxDecayDt {
      elapsed := MaxDecayDt;
    }
    var rate := cfg.decayMultiplier * elapsed;
    s.energy := s.energy - EnergyDecayRate * rate;
    s.hunger := s.hunger + HungerDecayRate * rate;
    s.cognitiveCapacity := s.cognitiveCapacity - CogCapDecayRate * rate;
    s.mood := s.mood - MoodDecayRate * rate;
    s.socialDeficit := s.socialDeficit + SocialDecayRate * rate;
  }

  /** Any elapsed time beyond a minute decays exactly as a minute does. */
  lemma DecayCapped(b: Bio, cfg: DecayConfig, dt: real)
    requires dt >= MaxDecayDt
    ensures Decayed(b, cfg, dt) == Decayed(b, cfg, MaxDecayDt)
  {
  }

  /** No elapsed time, no change. */
  lemma DecayZeroDt(b: Bio, cfg: DecayConfig)
    ensures Decayed(b, cfg, 0.0) == b
  {
  }

  /** A zero multiplier switches decay off. */
  lemma DecayZeroMultiplier(b: Bio, dt: real)
    ensures Decayed(b, DecayConfig(0.0, false), dt) == b
  {
  }

  /** With positive multiplier and elapsed time, the depleting fields fall and the rising ones rise. */
  lemma DecayDirection(b: Bio, cfg: DecayConfig, dt: real)
    requires cfg.decayMultiplier > 0.0 && dt > 0.0
    ensures Decayed(b, cfg, dt).energy < b.energy
    ensures Decayed(b, cfg, dt).cognitiveCapacity < b.cognitiveCapacity
    ensures Decayed(b, cfg, dt).mood < b.mood
    ensures Decayed(b, cfg, dt).hunger > b.hunger
    ensures Decayed(b, cfg, dt).socialDeficit > b.socialDeficit
  {
    var rate := DecayRate(cfg, dt);
    assert rate > 0.0 by {
      assert CappedDt(dt) > 0.0;
      PositiveProduct(cfg.decayMultiplier, CappedDt(dt));
    }
  }

  lemma PositiveProduct(x: real, y: real)
    requires x > 0.0 && y > 0.0
    ensures x * y > 0.0
  {
  }

  /** Two steps within the cap decay as much as one step over their combined time. */
  lemma DecaySteps(b: Bio, cfg: DecayConfig, t1: real, t2: real)
    requires 0.0 <= t1 && 0.0 <= t2 && t1 + t2 <= MaxDecayDt
    ensures Decayed(Decayed(b, cfg, t1), cfg, t2) == Decayed(b, cfg, t1 + t2)
  {
    var m := cfg.decayMultiplier;
    assert CappedDt(t1) == t1 && CappedDt(t2) == t2 && CappedDt(t1 + t2) == t1 + t2;
    assert DecayRate(cfg, t1 + t2) == DecayRate(cfg, t1) + DecayRate(cfg, t2) by {
      assert m * (t1 + t2) == m * t1 + m * t2;
    }
  }

  /** One capped minute at the default 5x speed takes 0.201 off energy and adds 0.249 to hunger. */
  lemma DefaultMinuteOfDecay(b: Bio, dt: real)
    requires dt >= MaxDecayDt
    ensures Decayed(b, DefaultDecayConfig, dt).energy == b.energy - 0.201
    ensures Decayed(b, DefaultDecayConfig, dt).hunger == b.hunger + 0.249
  {
  }
}
