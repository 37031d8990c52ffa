// Social isolation: the elapsed time since contact drives a loneliness level
// and a phase, both along a fixed timeline in hours.
module Isolation {
  import opened V1PsychologyState

  const NanosPerSecond := 1000000000
  const NanosPerHour := 3600000000000

  /** Go's float-to-integer conversion: truncation toward zero. */
  function Truncate(x: real): (r: int)
    ensures x >= 0.0 ==> r as real <= x < r as real + 1.0
    ensures x < 0.0 ==> r as real - 1.0 < x <= r as real
  {
    if x >= 0.0 then x.Floor else -((-x).Floor)
  }

  /** `Duration.Hours`. */
  function Hours(duration: int): real
  {
    duration as real / NanosPerHour as real
  }

  /** `computeIsolationPhase`: boundaries at 2, 8, 24, 72 and 168 hours, each inclusive below. */
  function IsolationPhaseFor(hours: real): (p: IsolationPhase)
    ensures hours <= 2.0 <==> p == IsolationNone
    ensures hours > 168.0 <==> p == IsolationSevere
  {
    if hours <= 2.0 then IsolationNone
    else if hours <= 8.0 then IsolationBoredom
    else if hours <= 24.0 then IsolationLoneliness
    else if hours <= 72.0 then IsolationSignificant
    else if hours <= 168.0 then IsolationDestabilizing
    else IsolationSevere
  }

  /** A longer isolation is never in an earlier phase. */
  lemma PhaseMonotone(h1: real, h2: real)
    requires h1 <= h2
    ensures PhaseRank(IsolationPhaseFor(h1)) <= PhaseRank(IsolationPhaseFor(h2))
  {
  }

  /** The timeline's sample points: 0, 1, 3, 7, 12, 20, 48, 70, 100, 160 and 200 hours. */
  lemma PhaseTimelineExamples()
    ensures IsolationPhaseFor(0.0) == IsolationNone && IsolationPhaseFor(1.0) == IsolationNone
    ensures IsolationPhaseFor(3.0) == IsolationBoredom && IsolationPhaseFor(7.0) == IsolationBoredom
    ensures IsolationPhaseFor(12.0) == IsolationLoneliness && IsolationPhaseFor(20.0) == IsolationLoneliness
    ensures IsolationPhaseFor(48.0) == IsolationSignificant && IsolationPhaseFor(70.0) == IsolationSignificant
    ensures IsolationPhaseFor(100.0) == IsolationDestabilizing && IsolationPhaseFor(160.0) == IsolationDestabilizing
    ensures IsolationPhaseFor(200.0) == IsolationSevere
  {
  }

  /** The loneliness before the final clamp; the extraversion factor applies up to 72 hours only. */
  function RawLoneliness(hours: real, factor: real): real
  {
    if hours <= 2.0 then 0.05 * factor
    else if hours <= 8.0 then (0.1 + (hours - 2.0) / 6.0 * 0.15) * factor
    else if hours <= 24.0 then (0.25 + (hours - 8.0) / 16.0 * 0.25) * factor
    else if hours <= 72.0 then (0.5 + (hours - 24.0) / 48.0 * 0.2) * factor
    else if hours <= 168.0 then 0.7 + (hours - 72.0) / 96.0 * 0.15
    else 0.85 + Clamp((hours - 168.0) / 336.0 * 0.1, 0.0, 0.15)
  }

  /** `computeLoneliness`: the timeline value, clamped into [0, 1]. */
  function Loneliness(hours: real, factor: real): (r: real)
    ensures 0.0 <= r <= 1.0
  {
    Clamp(RawLoneliness(hours, factor), 0.0, 1.0)
  }

  /** The timeline's coefficient before the extraversion factor, up to 72 hours: never negative. */
  function BaseRate(hours: real): (r: real)
    ensures r >= 0.05
  {
    if hours <= 2.0 then 0.05
    else if hours <= 8.0 then 0.1 + (hours - 2.0) / 6.0 * 0.15
    else if hours <= 24.0 then 0.25 + (hours - 8.0) / 16.0 * 0.25
    else 0.5 + (if hours <= 72.0 then hours - 24.0 else 48.0) / 48.0 * 0.2
  }

  lemma ScaleMonotone(base: real, f1: real, f2: real)
    requires base >= 0.0 && f1 <= f2
    ensures base * f1 <= base * f2
  {
    assert base * f2 - base * f1 == base * (f2 - f1);
  }

  /** A more extraverted person is at least as lonely after the same time. */
  lemma LonelinessGrowsWithExtraversion(hours: real, f1: real, f2: real)
    requires f1 <= f2
    ensures Loneliness(hours, f1) <= Loneliness(hours, f2)
  {
    if hours <= 72.0 {
      ScaleMonotone(BaseRate(hours), f1, f2);
      assert RawLoneliness(hours, f1) == BaseRate(hours) * f1;
      assert RawLoneliness(hours, f2) == BaseRate(hours) * f2;
      assert RawLoneliness(hours, f1) <= RawLoneliness(hours, f2);
    } else {
      assert RawLoneliness(hours, f1) == RawLoneliness(hours, f2);
    }
  }

  /**
   * Up to 72 hours, a strictly more extraverted person is strictly lonelier after the same time,
   * as long as the higher value has not reached the clamp at 1.
   */
  lemma LonelinessStrictlyGrowsWithExtraversion(hours: real, f1: real, f2: real)
    requires hours <= 72.0 && 0.0 <= f1 < f2 && BaseRate(hours) * f2 <= 1.0
    ensures Loneliness(hours, f1) < Loneliness(hours, f2)
  {
    var b := BaseRate(hours);
    assert RawLoneliness(hours, f1) == b * f1;
    assert RawLoneliness(hours, f2) == b * f2;
    assert b * f2 - b * f1 == b * (f2 - f1);
    assert b * (f2 - f1) > 0.0;
    assert 0.0 <= b * f1 <= 1.0;
    assert Clamp(b * f1, 0.0, 1.0) == b * f1;
    assert Loneliness(hours, f1) == b * f1;
    assert Loneliness(hours, f2) == b * f2;
  }

  /** After 12 hours, extraversion 0.9 is lonelier than extraversion 0.2. */
  lemma HighExtraversionLonelierExample()
    ensures Loneliness(12.0, IsolationDistressRate(Personality(0.0, 0.0, 0.9, 0.0, 0.0)))
          > Loneliness(12.0, IsolationDistressRate(Personality(0.0, 0.0, 0.2, 0.0, 0.0)))
  {
    var low, high := IsolationDistressRate(Personality(0.0, 0.0, 0.2, 0.0, 0.0)),
      IsolationDistressRate(Personality(0.0, 0.0, 0.9, 0.0, 0.0));
    assert low == 0.55 && high == 1.6;
    assert BaseRate(12.0) == 0.3125;
    LonelinessStrictlyGrowsWithExtraversion(12.0, low, high);
  }

  /** At average extraversion loneliness never falls as isolation lengthens. */
  lemma LonelinessMonotoneAtAverage(h1: real, h2: real)
    requires h1 <= h2
    ensures Loneliness(h1, 1.0) <= Loneliness(h2, 1.0)
  {
  }

  /** After two weeks at average extraversion loneliness is above 0.8. */
  lemma TwoWeeksNearMaximum()
    ensures Loneliness(336.0, 1.0) > 0.8
  {
  }

  /**
   * Beyond average extraversion the timeline is not monotone: the factor stops applying
   * after 72 hours, so one hour more of isolation lowers loneliness from 1.0 to about 0.70.
   */
  lemma LonelinessDropsAfterThreeDaysForExtraverts()
    ensures Loneliness(72.0, 1.6) == 1.0
    ensures Loneliness(73.0, 1.6) < 0.71
  {
  }

  /** `UpdateIsolation`: dt seconds more isolation, then loneliness and phase recomputed from the total. */
  function UpdateIsolation(current: IsolationState, p: Personality, dt: real): (r: IsolationState)
    ensures r.duration == current.duration + Truncate(dt * NanosPerSecond as real)
    ensures r.phase == IsolationPhaseFor(Hours(r.duration))
    ensures 0.0 <= r.lonelinessLevel <= 1.0
  {
    var duration := current.duration + Truncate(dt * NanosPerSecond as real);
    var hours := Hours(duration);
    current.(duration := duration,
             lonelinessLevel := Loneliness(hours, IsolationDistressRate(p)),
             phase := IsolationPhaseFor(hours))
  }

  /** Time moving forward never moves the phase back. */
  lemma UpdateNeverRegresses(current: IsolationState, p: Personality, dt: real)
    requires dt >= 0.0
    ensures PhaseRank(UpdateIsolation(current, p, dt).phase) >= PhaseRank(IsolationPhaseFor(Hours(current.duration)))
  {
    var d := UpdateIsolation(current, p, dt).duration;
    assert d >= current.duration;
    assert Hours(d) >= Hours(current.duration);
    PhaseMonotone(Hours(current.duration), Hours(d));
  }

  /** Two hours from a fresh state at average extraversion: still no phase, loneliness 0.05. */
  lemma TwoHoursExample(p: Personality)
    requires p.extraversion == 0.5
    ensures UpdateIsolation(IsolationState(0, 0.0, IsolationNone), p, 7200.0)
      == IsolationState(2 * NanosPerHour, 0.05, IsolationNone)
  {
    assert Truncate(7200.0 * NanosPerSecond as real) == 2 * NanosPerHour;
    assert Hours(2 * NanosPerHour) == 2.0;
  }
}
