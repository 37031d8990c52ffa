// The v1 psychology layer's value types that isolation and coping work on.
module V1PsychologyState {

  /** The Big Five traits, each nominally in [0, 1]. */
  datatype Personality = Personality(
    openness: real, conscientiousness: real, extraversion: real, agreeableness: real, neuroticism: real)

  /** `CopingStrategy`, in the package's declared order. */
  datatype CopingStrategy = ProblemSolving | Reappraisal | Acceptance | Distraction | Suppression | Rumination | Denial

  /** `IsolationPhase`, the stages of isolation from none to severe. */
  datatype IsolationPhase = IsolationNone | IsolationBoredom | IsolationLoneliness
    | IsolationSignificant | IsolationDestabilizing | IsolationSevere

  /** The phase's position in the declared order, 0 for none up to 5 for severe. */
  function PhaseRank(p: IsolationPhase): nat
  {
    match p
    case IsolationNone => 0
    case IsolationBoredom => 1
    case IsolationLoneliness => 2
    case IsolationSignificant => 3
    case IsolationDestabilizing => 4
    case IsolationSevere => 5
  }

  /** `IsolationState`: time since the last social contact in nanoseconds, loneliness and phase. */
  datatype IsolationState = IsolationState(duration: int, lonelinessLevel: real, phase: IsolationPhase)

  /** The package's `clamp`: the lower bound is tested first. */
  function Clamp(v: real, lo: real, hi: real): (r: real)
    ensures lo <= hi ==> lo <= r <= hi
    ensures lo <= v <= hi ==> r == v
    ensures v < lo ==> r == lo
  {
    if v < lo then lo else if v > hi then hi else v
  }

  /** `IsolationDistressRate`: 1 at average extraversion, 0.25 to 1.75 over [0, 1]. */
  function IsolationDistressRate(p: Personality): (r: real)
    ensures 0.0 <= p.extraversion <= 1.0 ==> 0.25 <= r <= 1.75
    ensures p.extraversion == 0.5 ==> r == 1.0
  {
    1.0 + (p.extraversion - 0.5) * 1.5
  }
}
