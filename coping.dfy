// The coping decision tree: stress, personality, available resources and the
// stressor's controllability choose a primary and an optional secondary strategy.
module Coping {
  import opened V1PsychologyState

  /** `CopingResources`, each nominally in [0, 1]. */
  datatype CopingResources = CopingResources(cognitive: real, energy: real, regulation: real)

  /** `SelectCoping`. */
  function SelectCoping(stress: real, p: Personality, res: CopingResources, controllability: real): (r: seq<CopingStrategy>)
    ensures 1 <= |r| <= 2
    ensures |r| == 2 ==> r[0] != r[1]
  {
    if stress > 0.85 && res.cognitive < 0.2 then [Denial]
    else if stress > 0.85 && p.neuroticism > 0.7 then [Rumination]
    else if controllability > 0.5 then
      if res.cognitive > 0.4 && res.energy > 0.3 then
        if p.conscientiousness > 0.5 then [ProblemSolving] else [ProblemSolving, Distraction]
      else [Distraction]
    else if res.cognitive > 0.4 then
      if p.openness > 0.5 && res.regulation > 0.4 then [Reappraisal]
      else if p.agreeableness > 0.6 then [Acceptance]
      else [Distraction]
    else if p.neuroticism > 0.6 then [Rumination, Suppression]
    else [Distraction, Acceptance]
  }

  /** Extreme stress with almost no cognitive capacity left collapses into denial. */
  lemma ExtremeStressDenial(stress: real, p: Personality, res: CopingResources, c: real)
    ensures (SelectCoping(stress, p, res, c) == [Denial]) <==> (stress > 0.85 && res.cognitive < 0.2)
  {
  }

  /** Extreme stress in a highly neurotic person with some capacity left gives rumination alone. */
  lemma ExtremeStressRumination(stress: real, p: Personality, res: CopingResources, c: real)
    requires stress > 0.85 && res.cognitive >= 0.2 && p.neuroticism > 0.7
    ensures SelectCoping(stress, p, res, c) == [Rumination]
  {
  }

  /** Problem solving leads exactly when the stressor is controllable and resources allow it, outside the collapse. */
  lemma ProblemSolvingNeedsControlAndResources(stress: real, p: Personality, res: CopingResources, c: real)
    ensures SelectCoping(stress, p, res, c)[0] == ProblemSolving <==>
      (!(stress > 0.85 && (res.cognitive < 0.2 || p.neuroticism > 0.7))
       && c > 0.5 && res.cognitive > 0.4 && res.energy > 0.3)
  {
  }

  /** A controllable stressor without the resources for it gives distraction alone. */
  lemma ControllableButDepleted(stress: real, p: Personality, res: CopingResources, c: real)
    requires stress <= 0.85 && c > 0.5 && !(res.cognitive > 0.4 && res.energy > 0.3)
    ensures SelectCoping(stress, p, res, c) == [Distraction]
  {
  }

  /**
   * Low resources against an uncontrollable stressor give one of the two fixed pairs, chosen by
   * neuroticism, whenever extreme stress has not already settled on denial or rumination.
   */
  lemma LowResourcesUncontrollable(stress: real, p: Personality, res: CopingResources, c: real)
    requires !(stress > 0.85 && (res.cognitive < 0.2 || p.neuroticism > 0.7)) && c <= 0.5 && res.cognitive <= 0.4
    ensures SelectCoping(stress, p, res, c) == (if p.neuroticism > 0.6 then [Rumination, Suppression] else [Distraction, Acceptance])
  {
  }

  /** Reappraisal is chosen only for an uncontrollable stressor met with openness and spare regulation. */
  lemma ReappraisalNeedsOpennessAndRegulation(stress: real, p: Personality, res: CopingResources, c: real)
    ensures Reappraisal in SelectCoping(stress, p, res, c) ==> p.openness > 0.5 && res.regulation > 0.4 && c <= 0.5
  {
  }
}
