// Drive urgencies of the v2 motivation layer: a deterministic function of the
// bio snapshot, a personality and chronic pressures, with every input clamped
// before use and the active goal chosen by a fixed priority tie-break.
module Motivation {
  import opened BioState

  /** Drives and actions are Go string types; other strings can occur. */
  type Drive = string
  type Action = string

  const DriveEnergy: Drive := "energy"
  const DriveSocialConnection: Drive := "social_connection"
  const DriveStimulation: Drive := "stimulation_novelty"
  const DriveSafety: Drive := "safety"
  const DriveIdentityCoherence: Drive := "identity_coherence"

  const ActionRest: Action := "rest"
  const ActionEat: Action := "eat"
  const ActionHydrate: Action := "hydrate"
  const ActionReachOut: Action := "reach_out"
  const ActionJournal: Action := "journal"
  const ActionBreathe: Action := "breathe"
  const ActionScanArea: Action := "scan_environment"
  const ActionSeekWarm: Action := "seek_warmth"
  const ActionSeekCool: Action := "seek_cooling"
  const ActionMicroTask: Action := "micro_task"

  datatype Personality = Personality(
    stressSensitivity: real,
    energyResilience: real,
    curiosity: real,
    selfObservation: real,
    frustrationTolerance: real,
    riskAversion: real,
    socialFactor: real)

  datatype ChronicState = ChronicState(
    threatLoad: real,
    isolationLoad: real,
    identityStrain: real,
    fatiguePressure: real)

  datatype ActionConstraints = ActionConstraints(
    hasFood: bool,
    hasPeopleNearby: bool,
    canRest: bool,
    canExplore: bool,
    hasQuietSpace: bool)

  datatype MotivationState = MotivationState(
    energyUrgency: real,
    socialUrgency: real,
    stimulationUrgency: real,
    safetyUrgency: real,
    identityUrgency: real,
    activeGoalDrive: Drive,
    activeGoalUrgency: real)

  /** Tie-break order of the active goal: earlier wins. */
  const DrivePriority: seq<Drive> :=
    [DriveSafety, DriveEnergy, DriveSocialConnection, DriveIdentityCoherence, DriveStimulation]

  function Clamp01(v: real): (r: real)
    ensures InUnit(r)
    ensures InUnit(v) ==> r == v
  {
    Clamp(v, 0.0, 1.0)
  }

  function Abs(x: real): (r: real)
    ensures r >= 0.0 && (r == x || r == -x)
  {
    if x < 0.0 then -x else x
  }

  /** The urgency the state holds for a drive; 0 for a string that is no drive. */
  function Urgency(m: MotivationState, d: Drive): real
  {
    if d == DriveEnergy then m.energyUrgency
    else if d == DriveSocialConnection then m.socialUrgency
    else if d == DriveStimulation then m.stimulationUrgency
    else if d == DriveSafety then m.safetyUrgency
    else if d == DriveIdentityCoherence then m.identityUrgency
    else 0.0
  }

  /** Position of a drive in the tie-break order. */
  function PriorityIndex(d: Drive): (k: nat)
    requires d in DrivePriority
    ensures k < |DrivePriority| && DrivePriority[k] == d
  {
    if d == DriveSafety then 0
    else if d == DriveEnergy then 1
    else if d == DriveSocialConnection then 2
    else if d == DriveIdentityCoherence then 3
    else 4
  }

  /** `d` with urgency `v` is a maximal drive, and the earliest maximal one in priority order. */
  ghost predicate IsActiveGoal(m: MotivationState, d: Drive, v: real)
  {
    d in DrivePriority
    && v == Urgency(m, d)
    && (forall k :: 0 <= k < |DrivePriority| ==> Urgency(m, DrivePriority[k]) <= v)
    && (forall k :: 0 <= k < |DrivePriority| && Urgency(m, DrivePriority[k]) == v ==> PriorityIndex(d) <= k)
  }

  /** At most one drive is the active goal. */
  lemma ActiveGoalUnique(m: MotivationState, d1: Drive, v1: real, d2: Drive, v2: real)
    requires IsActiveGoal(m, d1, v1) && IsActiveGoal(m, d2, v2)
    ensures d1 == d2 && v1 == v2
  {
    var k1, k2 := PriorityIndex(d1), PriorityIndex(d2);
    assert Urgency(m, DrivePriority[k2]) <= v1 && Urgency(m, DrivePriority[k1]) <= v2;
  }

  /** The loop of `selectActiveGoal` from position `i`, holding the best index so far. */
  function PickFrom(vals: seq<real>, i: nat, best: nat): (r: nat)
    requires best < i <= |vals|
    ensures best <= r < |vals|
    ensures vals[best] <= vals[r]
    decreases |vals| - i
  {
    if i == |vals| then best
    else if vals[i] > vals[best] then PickFrom(vals, i + 1, i)
    else PickFrom(vals, i + 1, best)
  }

  /** The strict `>` makes the fold return the first maximum. */
  lemma {:induction false} PickFromFirstMax(vals: seq<real>, i: nat, best: nat)
    requires best < i <= |vals|
    requires forall k :: 0 <= k < i ==> vals[k] <= vals[best]
    requires forall k :: 0 <= k < best ==> vals[k] < vals[best]
    ensures forall k :: 0 <= k < |vals| ==> vals[k] <= vals[PickFrom(vals, i, best)]
    ensures forall k :: 0 <= k < PickFrom(vals, i, best) ==> vals[k] < vals[PickFrom(vals, i, best)]
    decreases |vals| - i
  {
    if i < |vals| {
      if vals[i] > vals[best] {
        PickFromFirstMax(vals, i + 1, i);
      } else {
        PickFromFirstMax(vals, i + 1, best);
      }
    }
  }

  function UrgenciesByPriority(m: MotivationState): (vals: seq<real>)
    ensures |vals| == |DrivePriority|
    ensures forall k :: 0 <= k < |vals| ==> vals[k] == Urgency(m, DrivePriority[k])
  {
    [m.safetyUrgency, m.energyUrgency, m.socialUrgency, m.identityUrgency, m.stimulationUrgency]
  }

  /** `selectActiveGoal`. */
  function SelectActiveGoal(m: MotivationState): (r: (Drive, real))
    ensures IsActiveGoal(m, r.0, r.1)
  {
    var vals := UrgenciesByPriority(m);
    PickFromFirstMax(vals, 1, 0);
    var k := PickFrom(vals, 1, 0);
    assert PriorityIndex(DrivePriority[k]) == k;
    (DrivePriority[k], vals[k])
  }

  /** `normalizedBio`: every field clamped, body temperature to its own range. */
  function NormalizedBio(b: Bio): Bio
  {
    b.(energy := Clamp01(b.energy),
       stress := Clamp01(b.stress),
       cognitiveCapacity := Clamp01(b.cognitiveCapacity),
       mood := Clamp01(b.mood),
       physicalTension := Clamp01(b.physicalTension),
       hunger := Clamp01(b.hunger),
       socialDeficit := Clamp01(b.socialDeficit),
       bodyTemp := Clamp(b.bodyTemp, BodyTempRange.min, BodyTempRange.max))
  }

  /** The motivation layer's normalisation agrees with the biology layer's `ClampAll`. */
  lemma NormalizedBioIsClampAll(b: Bio)
    ensures NormalizedBio(b) == Clamped(b)
  {
  }

  function ClampedPersonality(p: Personality): (r: Personality)
    ensures InUnit(r.stressSensitivity) && InUnit(r.energyResilience) && InUnit(r.curiosity)
    ensures InUnit(r.selfObservation) && InUnit(r.frustrationTolerance)
    ensures InUnit(r.riskAversion) && InUnit(r.socialFactor)
    ensures InUnit(p.curiosity) ==> r.curiosity == p.curiosity
    ensures (InUnit(p.stressSensitivity) && InUnit(p.energyResilience) && InUnit(p.curiosity)
             && InUnit(p.selfObservation) && InUnit(p.frustrationTolerance)
             && InUnit(p.riskAversion) && InUnit(p.socialFactor)) ==> r == p
  {
    Personality(
      Clamp01(p.stressSensitivity), Clamp01(p.energyResilience), Clamp01(p.curiosity),
      Clamp01(p.selfObservation), Clamp01(p.frustrationTolerance),
      Clamp01(p.riskAversion), Clamp01(p.socialFactor))
  }

  function ClampedChronic(c: ChronicState): (r: ChronicState)
    ensures InUnit(r.threatLoad) && InUnit(r.isolationLoad)
    ensures InUnit(r.identityStrain) && InUnit(r.fatiguePressure)
    ensures (InUnit(c.threatLoad) && InUnit(c.isolationLoad)
             && InUnit(c.identityStrain) && InUnit(c.fatiguePressure)) ==> r == c
  {
    ChronicState(
      Clamp01(c.threatLoad), Clamp01(c.isolationLoad),
      Clamp01(c.identityStrain), Clamp01(c.fatiguePressure))
  }

  /** Distance from 36.6 °C, one unit per 6 °C, capped at 1. */
  function TempDeviation(bodyTemp: real): (r: real)
    ensures InUnit(r)
    ensures bodyTemp == 36.6 ==> r == 0.0
    ensures (bodyTemp <= 30.6 || 42.6 <= bodyTemp) ==> r == 1.0
  {
    Clamp01(Abs(bodyTemp - 36.6) / 6.0)
  }

  function EnergyMultiplier(p: Personality): (r: real)
    ensures 0.5 <= r <= 1.5
  {
    Clamp(1.0 + 0.6 * (0.5 - p.energyResilience) + 0.3 * (0.5 - p.frustrationTolerance), 0.5, 1.5)
  }

  function SocialMultiplier(p: Personality): (r: real)
    ensures 0.6 <= r <= 1.4
  {
    Clamp(1.0 + 0.8 * (p.socialFactor - 0.5), 0.6, 1.4)
  }

  function StimulationMultiplier(p: Personality): (r: real)
    ensures 0.6 <= r <= 1.4
  {
    Clamp(1.0 + 0.8 * (p.curiosity - 0.5), 0.6, 1.4)
  }

  function SafetyMultiplier(p: Personality): (r: real)
    ensures 0.5 <= r <= 1.5
  {
    Clamp(1.0 + 0.6 * (p.stressSensitivity - 0.5) + 0.4 * (p.riskAversion - 0.5), 0.5, 1.5)
  }

  function IdentityMultiplier(p: Personality): (r: real)
    ensures 0.5 <= r <= 1.5
  {
    Clamp(1.0 + 0.6 * (p.selfObservation - 0.5) + 0.3 * (0.5 - p.frustrationTolerance), 0.5, 1.5)
  }

  /** The five pre-multiplier drive bases of a normalised snapshot. */
  function EnergyBase(b: Bio, c: ChronicState): real
  {
    Clamp01(0.65 * (1.0 - b.energy) + 0.35 * b.hunger + 0.15 * c.fatiguePressure)
  }

  function SocialBase(b: Bio, c: ChronicState): real
  {
    Clamp01(b.socialDeficit + 0.25 * c.isolationLoad)
  }

  function StimulationBase(b: Bio): real
  {
    Clamp01(0.60 * (1.0 - b.cognitiveCapacity) + 0.40 * (1.0 - b.mood))
  }

  function SafetyBase(b: Bio, c: ChronicState): real
  {
    Clamp01(0.50 * b.stress + 0.25 * b.physicalTension + 0.25 * TempDeviation(b.bodyTemp) + 0.20 * c.threatLoad)
  }

  function IdentityBase(b: Bio, c: ChronicState): real
  {
    Clamp01(0.55 * (1.0 - b.mood) + 0.45 * (1.0 - b.cognitiveCapacity) + 0.20 * c.identityStrain)
  }

  /** A base scaled by a personality multiplier and clamped back into [0,1]. */
  function Scaled01(base: real, k: real): (r: real)
    ensures InUnit(r)
  {
    Clamp01(base * k)
  }

  /** Scaling by a non-negative multiplier keeps the order of the bases. */
  lemma Scaled01Monotone(x: real, y: real, k: real)
    requires x <= y && k >= 0.0
    ensures Scaled01(x, k) <= Scaled01(y, k)
  {
    ScaleMonotone(x, y, k);
    ClampMonotone(x * k, y * k, 0.0, 1.0);
  }

  /** The five urgencies of `Compute`, each from the clamped inputs. */
  function EnergyUrgency(bio: Bio, p: Personality, c: ChronicState): real
  {
    Scaled01(EnergyBase(NormalizedBio(bio), ClampedChronic(c)), EnergyMultiplier(ClampedPersonality(p)))
  }

  function SocialUrgency(bio: Bio, p: Personality, c: ChronicState): real
  {
    Scaled01(SocialBase(NormalizedBio(bio), ClampedChronic(c)), SocialMultiplier(ClampedPersonality(p)))
  }

  function StimulationUrgency(bio: Bio, p: Personality): real
  {
    Scaled01(StimulationBase(NormalizedBio(bio)), StimulationMultiplier(ClampedPersonality(p)))
  }

  function SafetyUrgency(bio: Bio, p: Personality, c: ChronicState): real
  {
    Scaled01(SafetyBase(NormalizedBio(bio), ClampedChronic(c)), SafetyMultiplier(ClampedPersonality(p)))
  }

  function IdentityUrgency(bio: Bio, p: Personality, c: ChronicState): real
  {
    Scaled01(IdentityBase(NormalizedBio(bio), ClampedChronic(c)), IdentityMultiplier(ClampedPersonality(p)))
  }

  /** The state with its active goal filled in by `selectActiveGoal`. */
  function WithActiveGoal(m: MotivationState): (r: MotivationState)
    ensures r.energyUrgency == m.energyUrgency && r.socialUrgency == m.socialUrgency
    ensures r.stimulationUrgency == m.stimulationUrgency && r.safetyUrgency == m.safetyUrgency
    ensures r.identityUrgency == m.identityUrgency
    ensures IsActiveGoal(r, r.activeGoalDrive, r.activeGoalUrgency)
  {
    var goal := SelectActiveGoal(m);
    var r := m.(activeGoalDrive := goal.0, activeGoalUrgency := goal.1);
    assert forall d :: Urgency(r, d) == Urgency(m, d);
    r
  }

  /** `Compute`: every urgency in [0,1] and the active goal chosen by `selectActiveGoal`. */
  function Compute(bio: Bio, personality: Personality, chronic: ChronicState): (m: MotivationState)
    ensures m.energyUrgency == EnergyUrgency(bio, personality, chronic)
    ensures m.socialUrgency == SocialUrgency(bio, personality, chronic)
    ensures m.stimulationUrgency == StimulationUrgency(bio, personality)
    ensures m.safetyUrgency == SafetyUrgency(bio, personality, chronic)
    ensures m.identityUrgency == IdentityUrgency(bio, personality, chronic)
    ensures InUnit(m.energyUrgency) && InUnit(m.socialUrgency) && InUnit(m.stimulationUrgency)
    ensures InUnit(m.safetyUrgency) && InUnit(m.identityUrgency)
    ensures IsActiveGoal(m, m.activeGoalDrive, m.activeGoalUrgency)
    ensures InUnit(m.activeGoalUrgency)
  {
    WithActiveGoal(MotivationState(
      EnergyUrgency(bio, personality, chronic),
      SocialUrgency(bio, personality, chronic),
      StimulationUrgency(bio, personality),
      SafetyUrgency(bio, personality, chronic),
      IdentityUrgency(bio, personality, chronic),
      "", 0.0))
  }

  /** Clamping the inputs first changes nothing: out-of-range inputs act as their clamped values. */
  lemma ComputeClampsInputs(bio: Bio, p: Personality, c: ChronicState)
    ensures Compute(bio, p, c) == Compute(Clamped(bio), ClampedPersonality(p), ClampedChronic(c))
  {
    ClampedIdempotent(bio);
    NormalizedBioIsClampAll(bio);
    NormalizedBioIsClampAll(Clamped(bio));
    assert ClampedPersonality(ClampedPersonality(p)) == ClampedPersonality(p);
    assert ClampedChronic(ClampedChronic(c)) == ClampedChronic(c);
  }

  lemma ClampMonotone(x: real, y: real, lo: real, hi: real)
    requires x <= y && lo <= hi
    ensures Clamp(x, lo, hi) <= Clamp(y, lo, hi)
  {
  }

  lemma ScaleMonotone(x: real, y: real, k: real)
    requires x <= y && 0.0 <= k
    ensures x * k <= y * k
  {
  }

  /** Less energy never lowers the energy urgency. */
  lemma EnergyUrgencyMonotone(b: Bio, lower: real, higher: real, p: Personality, c: ChronicState)
    requires lower <= higher
    ensures Compute(b.(energy := higher), p, c).energyUrgency
         <= Compute(b.(energy := lower), p, c).energyUrgency
  {
    EnergyUrgencyMonotoneStep(b, lower, higher, p, c);
  }

  lemma EnergyUrgencyMonotoneStep(b: Bio, lower: real, higher: real, p: Personality, c: ChronicState)
    requires lower <= higher
    ensures EnergyUrgency(b.(energy := higher), p, c) <= EnergyUrgency(b.(energy := lower), p, c)
  {
    var cc := ClampedChronic(c);
    var k := EnergyMultiplier(ClampedPersonality(p));
    var baseHi := EnergyBase(NormalizedBio(b.(energy := higher)), cc);
    var baseLo := EnergyBase(NormalizedBio(b.(energy := lower)), cc);
    assert baseHi <= baseLo;
    Scaled01Monotone(baseHi, baseLo, k);
  }

  /** A larger social deficit never lowers the social urgency. */
  lemma SocialUrgencyMonotone(b: Bio, lower: real, higher: real, p: Personality, c: ChronicState)
    requires lower <= higher
    ensures Compute(b.(socialDeficit := lower), p, c).socialUrgency
         <= Compute(b.(socialDeficit := higher), p, c).socialUrgency
  {
    SocialUrgencyMonotoneStep(b, lower, higher, p, c);
  }

  lemma SocialUrgencyMonotoneStep(b: Bio, lower: real, higher: real, p: Personality, c: ChronicState)
    requires lower <= higher
    ensures SocialUrgency(b.(socialDeficit := lower), p, c) <= SocialUrgency(b.(socialDeficit := higher), p, c)
  {
    var cc := ClampedChronic(c);
    var k := SocialMultiplier(ClampedPersonality(p));
    var baseLo := SocialBase(NormalizedBio(b.(socialDeficit := lower)), cc);
    var baseHi := SocialBase(NormalizedBio(b.(socialDeficit := higher)), cc);
    assert baseLo <= baseHi;
    Scaled01Monotone(baseLo, baseHi, k);
  }

  /** Curiosity modulates the stimulation urgency only. */
  lemma CuriosityOnlyAffectsStimulation(b: Bio, p: Personality, c: ChronicState, x: real)
    ensures Compute(b, p.(curiosity := x), c).energyUrgency == Compute(b, p, c).energyUrgency
    ensures Compute(b, p.(curiosity := x), c).socialUrgency == Compute(b, p, c).socialUrgency
    ensures Compute(b, p.(curiosity := x), c).safetyUrgency == Compute(b, p, c).safetyUrgency
    ensures Compute(b, p.(curiosity := x), c).identityUrgency == Compute(b, p, c).identityUrgency
  {
    var p1, p2 := ClampedPersonality(p.(curiosity := x)), ClampedPersonality(p);
    assert EnergyMultiplier(p1) == EnergyMultiplier(p2);
    assert SocialMultiplier(p1) == SocialMultiplier(p2);
    assert SafetyMultiplier(p1) == SafetyMultiplier(p2);
    assert IdentityMultiplier(p1) == IdentityMultiplier(p2);
  }

  const BaselinePersonality := Personality(0.5, 0.5, 0.5, 0.5, 0.5, 0.5, 0.5)
  const NoChronic := ChronicState(0.0, 0.0, 0.0, 0.0)

  /** At the baseline, curiosity 0 gives stimulation urgency 0.12 and curiosity 1 gives 0.28. */
  lemma CuriosityRaisesStimulationExample()
    ensures Compute(DefaultBio(), BaselinePersonality.(curiosity := 0.0), NoChronic).stimulationUrgency == 0.12
    ensures Compute(DefaultBio(), BaselinePersonality.(curiosity := 1.0), NoChronic).stimulationUrgency == 0.28
  {
    var b := DefaultBio();
    assert NormalizedBio(b) == b;
    assert StimulationBase(b) == 0.2;
    assert StimulationMultiplier(ClampedPersonality(BaselinePersonality.(curiosity := 0.0))) == 0.6;
    assert StimulationMultiplier(ClampedPersonality(BaselinePersonality.(curiosity := 1.0))) == 1.4;
  }

  /** With energy and safety both saturated at 1, safety wins the tie. */
  lemma TieBreakPrefersSafety()
    ensures Compute(DefaultBio().(energy := 0.0, hunger := 1.0, stress := 1.0,
                                  physicalTension := 1.0, bodyTemp := 42.6),
                    BaselinePersonality, NoChronic).activeGoalDrive == DriveSafety
  {
    var b := DefaultBio().(energy := 0.0, hunger := 1.0, stress := 1.0, physicalTension := 1.0, bodyTemp := 42.6);
    var m := Compute(b, BaselinePersonality, NoChronic);
    assert NormalizedBio(b) == b;
    assert ClampedPersonality(BaselinePersonality) == BaselinePersonality;
    assert ClampedChronic(NoChronic) == NoChronic;
    assert TempDeviation(42.6) == 1.0;
    assert SafetyBase(b, NoChronic) == 1.0;
    assert SafetyMultiplier(BaselinePersonality) == 1.0;
    assert m.safetyUrgency == 1.0;
    assert Urgency(m, DrivePriority[0]) == 1.0;
    assert PriorityIndex(m.activeGoalDrive) <= 0;
  }
}
