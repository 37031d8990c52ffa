// The v1 spontaneous-thought queue: candidates gathered by priority category,
// a weighted pick driven by a supplied random value, and the bookkeeping
// methods that maintain the queue's lists and absorption flag.
module ThoughtQueueModule {
  import opened V1PsychologyState

  /** Go's `Priority int`, from the most to the least pressing category. */
  type Priority = int
  const PriorityPredictionError: Priority := 0
  const PriorityBiologicalNeed: Priority := 1
  const PriorityGoalRehearsal: Priority := 2
  const PrioritySocialModeling: Priority := 3
  const PriorityAssociativeDrift: Priority := 4

  /** The part of the psychological state the queue reads. */
  datatype Affect = Affect(arousal: real, valence: real, energy: real, isolationPhase: IsolationPhase)

  datatype ThoughtCandidate = ThoughtCandidate(priority: Priority, category: string, prompt: string)

  /** `priorityWeight`: 8, 5, 3, 2, 1 from prediction errors down to drift; 1 for any other value. */
  function PriorityWeight(p: Priority): (w: real)
    ensures w >= 1.0
  {
    if p == PriorityPredictionError then 8.0
    else if p == PriorityBiologicalNeed then 5.0
    else if p == PriorityGoalRehearsal then 3.0
    else if p == PrioritySocialModeling then 2.0
    else 1.0
  }

  /** A more pressing category always weighs strictly more. */
  lemma PriorityWeightStrictlyDecreasing(p: Priority, q: Priority)
    requires PriorityPredictionError <= p < q <= PriorityAssociativeDrift
    ensures PriorityWeight(p) > PriorityWeight(q)
  {
  }

  const DrainedPrompt := "Your mind drifts, thoughts moving slowly. You feel drained."
  const DarkPrompt := "Your thoughts wander into darker territory. Something nags at you."
  const QuietPrompt := "Your mind is quiet and open. Thoughts arise and pass without urgency."
  const FreePrompt := "Your mind wanders freely, one thought leading to another."

  /** `associativeDriftPrompt`: a mind-wandering prompt coloured by energy, valence and arousal. */
  function DriftPrompt(ps: Affect): string
  {
    if ps.energy < 0.3 then DrainedPrompt
    else if ps.valence < -0.3 then DarkPrompt
    else if ps.arousal < 0.2 && ps.energy > 0.5 then QuietPrompt
    else FreePrompt
  }

  /**
   * The drift prompt's precedence: low energy decides first, whatever the valence; then a
   * negative valence; then a calm, rested state; anything else wanders freely. The four
   * prompts are distinct, so each prompt tells which case held.
   */
  lemma DriftPromptPrecedence(ps: Affect)
    ensures DriftPrompt(ps) == DrainedPrompt <==> ps.energy < 0.3
    ensures DriftPrompt(ps) == DarkPrompt <==> ps.energy >= 0.3 && ps.valence < -0.3
    ensures DriftPrompt(ps) == QuietPrompt <==> ps.energy > 0.5 && ps.valence >= -0.3 && ps.arousal < 0.2
    ensures DriftPrompt(ps) == FreePrompt <==>
      ps.energy >= 0.3 && ps.valence >= -0.3 && !(ps.arousal < 0.2 && ps.energy > 0.5)
  {
    assert |DrainedPrompt| == 59 && |DarkPrompt| == 66 && |QuietPrompt| == 69 && |FreePrompt| == 57;
  }

  /** One candidate per item, all of the given priority and category, in the items' order. */
  function Tagged(items: seq<string>, priority: Priority, category: string): (r: seq<ThoughtCandidate>)
    ensures |r| == |items|
    ensures forall i :: 0 <= i < |r| ==> r[i] == ThoughtCandidate(priority, category, items[i])
  {
    seq(|items|, i requires 0 <= i < |items| => ThoughtCandidate(priority, category, items[i]))
  }

  /** Candidates are ordered by priority, most pressing first. */
  predicate ByPriority(cs: seq<ThoughtCandidate>)
  {
    forall i, j :: 0 <= i <= j < |cs| ==> cs[i].priority <= cs[j].priority
  }

  function Weight(c: ThoughtCandidate): real
  {
    PriorityWeight(c.priority)
  }

  /** The total weight of the first n candidates. */
  function CumWeight(cs: seq<ThoughtCandidate>, n: nat): real
    requires n <= |cs|
  {
    if n == 0 then 0.0 else CumWeight(cs, n - 1) + Weight(cs[n - 1])
  }

  /**
   * The index the cumulative scan stops at, scanning from i: the first candidate whose
   * running total reaches r, or the last candidate when none does.
   */
  function PickFrom(cs: seq<ThoughtCandidate>, r: real, i: nat): (k: nat)
    requires cs != [] && i <= |cs|
    ensures i <= k < |cs| || (i == |cs| && k == |cs| - 1)
    decreases |cs| - i
  {
    if i == |cs| then |cs| - 1
    else if r <= CumWeight(cs, i + 1) then i
    else PickFrom(cs, r, i + 1)
  }

  /** The running total up to and including candidate j is still short of r. */
  predicate NotReached(cs: seq<ThoughtCandidate>, r: real, j: nat)
    requires j < |cs|
  {
    r > CumWeight(cs, j + 1)
  }

  /** The scan stops at the first candidate whose running total reaches r, and falls back only when none does. */
  lemma {:induction false} PickFromIsFirstReach(cs: seq<ThoughtCandidate>, r: real, i: nat)
    requires cs != [] && i <= |cs|
    requires forall j :: 0 <= j < i ==> NotReached(cs, r, j)
    ensures var k := PickFrom(cs, r, i);
      && (forall j :: 0 <= j < k ==> NotReached(cs, r, j))
      && (r <= CumWeight(cs, |cs|) ==> r <= CumWeight(cs, k + 1))
    decreases |cs| - i
  {
    if i < |cs| && r > CumWeight(cs, i + 1) {
      PickFromIsFirstReach(cs, r, i + 1);
    }
  }

  /** The random value scaled to the total weight. */
  function Scaled(randVal: real, total: real): real
  {
    randVal * total
  }

  /** The index the weighted scan selects for a random value. */
  function PickIndex(cs: seq<ThoughtCandidate>, randVal: real): nat
    requires cs != []
  {
    PickFrom(cs, Scaled(randVal, CumWeight(cs, |cs|)), 0)
  }

  /** The candidate the weighted scan selects for a random value in [0, 1). */
  function Pick(cs: seq<ThoughtCandidate>, randVal: real): ThoughtCandidate
    requires cs != []
  {
    cs[PickIndex(cs, randVal)]
  }

  /** Every candidate weighs at least 1, so the first n weigh at least n. */
  lemma {:induction false} CumWeightAtLeastCount(cs: seq<ThoughtCandidate>, n: nat)
    requires n <= |cs|
    ensures CumWeight(cs, n) >= n as real
  {
    if n > 0 {
      CumWeightAtLeastCount(cs, n - 1);
    }
  }

  /**
   * For a random value in [0, 1] the pick is the first candidate whose running total
   * reaches the scaled value: every earlier one falls short and the picked one reaches it.
   */
  lemma PickIsFirstReach(cs: seq<ThoughtCandidate>, randVal: real)
    requires cs != [] && 0.0 <= randVal <= 1.0
    ensures var r, k := Scaled(randVal, CumWeight(cs, |cs|)), PickIndex(cs, randVal);
      && k < |cs|
      && (forall j :: 0 <= j < k ==> NotReached(cs, r, j))
      && r <= CumWeight(cs, k + 1)
  {
    var total := CumWeight(cs, |cs|);
    CumWeightAtLeastCount(cs, |cs|);
    assert Scaled(randVal, total) <= total by {
      assert randVal * total <= 1.0 * total;
    }
    PickFromIsFirstReach(cs, Scaled(randVal, total), 0);
  }

  /** A random value of 0 always picks the first candidate. */
  lemma ZeroPicksFirst(cs: seq<ThoughtCandidate>)
    requires cs != []
    ensures Pick(cs, 0.0) == cs[0]
  {
    CumWeightAtLeastCount(cs, 1);
  }

  /**
   * The selection loops: weigh every candidate, scale `randVal` by the total, and return
   * the first candidate whose running total reaches it (the last when none does).
   */
  method PickWeighted(candidates: seq<ThoughtCandidate>, randVal: real) returns (c: ThoughtCandidate)
    requires candidates != []
    ensures c == Pick(candidates, randVal)
  {
    var weights: seq<real> := [];
    var totalWeight := 0.0;
    for i := 0 to |candidates|
      invariant |weights| == i
      invariant forall k :: 0 <= k < i ==> weights[k] == Weight(candidates[k])
      invariant totalWeight == CumWeight(candidates, i)
    {
      var w := PriorityWeight(candidates[i].priority);
      weights := weights + [w];
      totalWeight := totalWeight + w;
    }
    var r := randVal * totalWeight;
    assert r == Scaled(randVal, CumWeight(candidates, |candidates|));
    c := ScanCumulative(candidates, weights, r);
  }

  /** The cumulative scan over precomputed weights for the scaled value r. */
  method ScanCumulative(candidates: seq<ThoughtCandidate>, weights: seq<real>, r: real) returns (c: ThoughtCandidate)
    requires candidates != [] && |weights| == |candidates|
    requires forall k :: 0 <= k < |weights| ==> weights[k] == Weight(candidates[k])
    ensures c == candidates[PickFrom(candidates, r, 0)]
  {
    var cumulative := 0.0;
    for i := 0 to |weights|
      invariant cumulative == CumWeight(candidates, i)
      invariant PickFrom(candidates, r, i) == PickFrom(candidates, r, 0)
    {
      cumulative := cumulative + weights[i];
      if r <= cumulative {
        return candidates[i];
      }
    }
    assert PickFrom(candidates, r, |candidates|) == |candidates| - 1;
    return candidates[|candidates| - 1];
  }

  /** `ThoughtQueue`: the pending items per category and the absorption state. */
  class ThoughtQueue {
    var unresolvedErrors: seq<string>
    var activeNeeds: seq<string>
    var activeGoals: seq<string>
    var socialConcerns: seq<string>
    var absorbed: bool
    var absorptionDepth: real

    /** `NewThoughtQueue`: everything empty, not absorbed. */
    constructor ()
      ensures unresolvedErrors == [] && activeNeeds == [] && activeGoals == [] && socialConcerns == []
      ensures !absorbed && absorptionDepth == 0.0
    {
      unresolvedErrors, activeNeeds, activeGoals, socialConcerns := [], [], [], [];
      absorbed, absorptionDepth := false, 0.0;
    }

    /**
     * `buildCandidates`: errors, needs, goals and social concerns, each under its priority,
     * then one associative-drift candidate last, so there is always something to pick.
     */
    function BuildCandidates(ps: Affect): (r: seq<ThoughtCandidate>)
      reads this
      ensures |r| == |unresolvedErrors| + |activeNeeds| + |activeGoals| + |socialConcerns| + 1
      ensures r[|r| - 1] == ThoughtCandidate(PriorityAssociativeDrift, "associative_drift", DriftPrompt(ps))
      ensures ByPriority(r)
    {
      var e := Tagged(unresolvedErrors, PriorityPredictionError, "prediction_error");
      var n := Tagged(activeNeeds, PriorityBiologicalNeed, "biological_need");
      var g := Tagged(activeGoals, PriorityGoalRehearsal, "goal_rehearsal");
      var s := Tagged(socialConcerns, PrioritySocialModeling, "social_modeling");
      var drift := [ThoughtCandidate(PriorityAssociativeDrift, "associative_drift", DriftPrompt(ps))];
      CategoriesInOrder(e, n, g, s, drift);
      e + n + g + s + drift
    }

    /** `SelectSpontaneousDeterministic`: the weighted pick among the current candidates. */
    method SelectSpontaneousDeterministic(ps: Affect, randVal: real) returns (c: ThoughtCandidate)
      ensures c == Pick(BuildCandidates(ps), randVal)
    {
      var candidates := BuildCandidates(ps);
      c := PickWeighted(candidates, randVal);
    }

    /** `AddPredictionError`: the description is queued last. */
    method AddPredictionError(description: string)
      modifies this`unresolvedErrors
      ensures unresolvedErrors == old(unresolvedErrors) + [description]
    {
      unresolvedErrors := unresolvedErrors + [description];
    }

    /** `ResolvePredictionError`: the first equal entry goes; everything else stays in order. */
    method ResolvePredictionError(description: string)
      modifies this`unresolvedErrors
      ensures unresolvedErrors == RemoveFirst(old(unresolvedErrors), description)
    {
      ghost var s := unresolvedErrors;
      var i := 0;
      while i < |unresolvedErrors|
        invariant unresolvedErrors == s
        invariant 0 <= i <= |s|
        invariant RemoveFirst(s, description) == s[..i] + RemoveFirst(s[i..], description)
      {
        RemoveFirstStep(s, description, i);
        if unresolvedErrors[i] == description {
          unresolvedErrors := unresolvedErrors[..i] + unresolvedErrors[i + 1..];
          return;
        }
        i := i + 1;
      }
      assert s[i..] == [];
    }

    /** `UpdateNeeds`: the needs list is rebuilt from the current state alone. */
    method UpdateNeeds(ps: Affect)
      modifies this`activeNeeds
      ensures activeNeeds == NeedsFor(ps)
    {
      activeNeeds := [];
      if ps.energy < 0.2 {
        activeNeeds := activeNeeds + [ExhaustionNeed];
      }
      if ps.valence < -0.5 && ps.arousal > 0.6 {
        activeNeeds := activeNeeds + [DistressNeed];
      }
      if PhaseRank(ps.isolationPhase) >= PhaseRank(IsolationLoneliness) {
        activeNeeds := activeNeeds + [ContactNeed];
      }
    }

    /** `EnterAbsorption`. */
    method EnterAbsorption(depth: real)
      modifies this`absorbed, this`absorptionDepth
      ensures absorbed && absorptionDepth == depth
    {
      absorbed := true;
      absorptionDepth := depth;
    }

    /** `ExitAbsorption`: back to not absorbed, at depth 0. */
    method ExitAbsorption()
      modifies this`absorbed, this`absorptionDepth
      ensures !absorbed && absorptionDepth == 0.0
    {
      absorbed := false;
      absorptionDepth := 0.0;
    }
  }

  /** Concatenating the category lists in priority order gives a list ordered by priority. */
  lemma CategoriesInOrder(e: seq<ThoughtCandidate>, n: seq<ThoughtCandidate>, g: seq<ThoughtCandidate>,
                          s: seq<ThoughtCandidate>, d: seq<ThoughtCandidate>)
    requires forall i :: 0 <= i < |e| ==> e[i].priority == PriorityPredictionError
    requires forall i :: 0 <= i < |n| ==> n[i].priority == PriorityBiologicalNeed
    requires forall i :: 0 <= i < |g| ==> g[i].priority == PriorityGoalRehearsal
    requires forall i :: 0 <= i < |s| ==> s[i].priority == PrioritySocialModeling
    requires forall i :: 0 <= i < |d| ==> d[i].priority == PriorityAssociativeDrift
    ensures ByPriority(e + n + g + s + d)
  {
    var r := e + n + g + s + d;
    forall i, j | 0 <= i <= j
      ensures Band(i, |e|, |n|, |g|, |s|) <= Band(j, |e|, |n|, |g|, |s|)
    {
    }
    forall i | 0 <= i < |r|
      ensures r[i].priority == Band(i, |e|, |n|, |g|, |s|)
    {
      if i < |e| {
        assert r[i] == e[i];
      } else if i < |e| + |n| {
        assert r[i] == n[i - |e|];
      } else if i < |e| + |n| + |g| {
        assert r[i] == g[i - |e| - |n|];
      } else if i < |e| + |n| + |g| + |s| {
        assert r[i] == s[i - |e| - |n| - |g|];
      } else {
        assert r[i] == d[i - |e| - |n| - |g| - |s|];
      }
    }
  }

  /** The priority of position i in a list made of category runs of the given lengths. */
  function Band(i: int, ne: int, nn: int, ng: int, ns: int): Priority
  {
    if i < ne then PriorityPredictionError
    else if i < ne + nn then PriorityBiologicalNeed
    else if i < ne + nn + ng then PriorityGoalRehearsal
    else if i < ne + nn + ng + ns then PrioritySocialModeling
    else PriorityAssociativeDrift
  }

  const ExhaustionNeed := "You are exhausted. Your body demands rest."
  const DistressNeed := "Something is wrong. You feel distressed and agitated."
  const ContactNeed := "You feel deeply alone. You crave human contact."

  /** The needs `UpdateNeeds` records: exhaustion, distress and loneliness, in that order. */
  function NeedsFor(ps: Affect): (r: seq<string>)
    ensures |r| <= 3
    ensures (ExhaustionNeed in r) <==> ps.energy < 0.2
    ensures (DistressNeed in r) <==> ps.valence < -0.5 && ps.arousal > 0.6
    ensures (ContactNeed in r) <==> PhaseRank(ps.isolationPhase) >= 2
  {
    (if ps.energy < 0.2 then [ExhaustionNeed] else [])
    + (if ps.valence < -0.5 && ps.arousal > 0.6 then [DistressNeed] else [])
    + (if PhaseRank(ps.isolationPhase) >= PhaseRank(IsolationLoneliness) then [ContactNeed] else [])
  }

  /** `s` without its first occurrence of `x`. */
  function RemoveFirst(s: seq<string>, x: string): seq<string>
  {
    if s == [] then [] else if s[0] == x then s[1..] else [s[0]] + RemoveFirst(s[1..], x)
  }

  /** One step of the scan in `ResolvePredictionError`: entry `i` either goes or joins the kept prefix. */
  lemma RemoveFirstStep(s: seq<string>, x: string, i: nat)
    requires i < |s|
    ensures s[i] == x ==> s[..i] + RemoveFirst(s[i..], x) == s[..i] + s[i + 1..]
    ensures s[i] != x ==> s[..i] + RemoveFirst(s[i..], x) == s[..i + 1] + RemoveFirst(s[i + 1..], x)
  {
    assert s[i..][0] == s[i] && s[i..][1..] == s[i + 1..];
    assert s[..i + 1] == s[..i] + [s[i]];
  }

  /** Resolving removes exactly one occurrence of a queued entry and nothing when it is absent. */
  lemma {:induction false} RemoveFirstRemovesOne(s: seq<string>, x: string)
    ensures x !in s ==> RemoveFirst(s, x) == s
    ensures x in s ==> multiset(RemoveFirst(s, x)) == multiset(s) - multiset{x}
  {
    if s != [] {
      RemoveFirstRemovesOne(s[1..], x);
      assert s == [s[0]] + s[1..];
    }
  }

  /** Resolving drops the first occurrence and keeps the entries before and after it in order. */
  lemma {:induction false} RemoveFirstKeepsOrder(s: seq<string>, x: string, i: nat)
    requires i < |s| && s[i] == x && x !in s[..i]
    ensures RemoveFirst(s, x) == s[..i] + s[i + 1..]
  {
    if i > 0 {
      assert s[0] in s[..i];
      assert s[1..][..i - 1] == s[1..i];
      RemoveFirstKeepsOrder(s[1..], x, i - 1);
      assert s[..i] == [s[0]] + s[1..i];
    }
  }

  /** Queueing two errors and resolving the first leaves just the second. */
  method ResolveExample() returns (left: seq<string>)
    ensures left == ["noise B"]
  {
    var q := new ThoughtQueue();
    q.AddPredictionError("noise A");
    q.AddPredictionError("noise B");
    q.ResolvePredictionError("noise A");
    assert ["noise A", "noise B"][1..] == ["noise B"];
    left := q.unresolvedErrors;
  }

  /** With one error queued, a random value of 0.99 reaches the drift candidate. */
  method DriftAtHighRandExample() returns (c: ThoughtCandidate)
    ensures c.priority == PriorityAssociativeDrift
  {
    var q := new ThoughtQueue();
    q.AddPredictionError("unexpected noise");
    var ps := Affect(0.0, 0.0, 0.5, IsolationNone);
    c := q.SelectSpontaneousDeterministic(ps, 0.99);
    var cs := q.BuildCandidates(ps);
    assert |cs| == 2 && cs[0].priority == PriorityPredictionError;
    assert CumWeight(cs, 1) == 8.0 && CumWeight(cs, 2) == 9.0;
  }
}
