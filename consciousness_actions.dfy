// What the mind's reply does to the body: the parsed emotional state becomes
// one-shot pulses, and a chosen action, once gated by the environment and by
// per-action cooldowns, becomes the pulses of its effect.
module ConsciousnessActions {
  import opened Text
  import opened BioState
  import opened BioFeedback
  import opened Motivation
  import opened ConsciousnessTypes

  /** Seconds since the epoch, and cooldown lengths in seconds, keyed by action. */
  type CooldownState = map<string, int>
  type Cooldowns = map<string, int>

  function ClampSigned(v: real): (r: real)
    ensures -1.0 <= r <= 1.0
    ensures -1.0 <= v <= 1.0 ==> r == v
  {
    Clamp(v, -1.0, 1.0)
  }

  function Max0(v: real): (r: real)
    ensures r >= 0.0 && r >= v
    ensures r == v || r == 0.0
  {
    if v < 0.0 then 0.0 else v
  }

  /** `EmotionalPulseFromState`: four absolute pulses from clamped arousal and valence. */
  function EmotionalPulseFromState(state: ParsedState): (r: seq<BioPulse>)
    ensures |r| == 4
    ensures r[0].field == "stress" && r[1].field == "mood"
    ensures r[2].field == "physical_tension" && r[3].field == "cognitive_capacity"
    ensures -0.20 <= r[0].amount <= 0.20 && -0.21 <= r[1].amount <= 0.21
    ensures 0.0 <= r[2].amount <= 0.10 && -0.06 <= r[3].amount <= 0.04
  {
    var arousal := ClampSigned(state.arousal);
    var valence := ClampSigned(state.valence);
    [BioPulse("stress", 0.12 * arousal - 0.08 * valence),
     BioPulse("mood", 0.16 * valence - 0.05 * arousal),
     BioPulse("physical_tension", 0.10 * Max0(arousal)),
     BioPulse("cognitive_capacity", -0.06 * Max0(arousal) + 0.04 * Max0(valence))]
  }

  /** Arousal and valence beyond [-1,1] act as their bounds. */
  lemma EmotionalPulseSaturates(state: ParsedState)
    ensures EmotionalPulseFromState(state)
      == EmotionalPulseFromState(ParsedState(ClampSigned(state.arousal), ClampSigned(state.valence)))
  {
  }

  /** A calm, neutral reply moves nothing. */
  lemma NeutralStateNoPulse()
    ensures var r := EmotionalPulseFromState(ParsedState(0.0, 0.0));
      r[0].amount == 0.0 && r[1].amount == 0.0 && r[2].amount == 0.0 && r[3].amount == 0.0
  {
    assert ClampSigned(0.0) == 0.0 && Max0(0.0) == 0.0;
  }

  /** Arousal 0.8 with valence -0.5 gives stress +0.136, mood -0.12, tension +0.08, capacity -0.048. */
  lemma EmotionalPulseExample()
    ensures var r := EmotionalPulseFromState(ParsedState(0.8, -0.5));
      r[0].amount == 0.136 && r[1].amount == -0.12 && r[2].amount == 0.08 && r[3].amount == -0.048
  {
  }

  /** The key actions are looked up by: trimmed and lower-cased. */
  function Normalize(action: string): string
  {
    ToLower(TrimSpace(action))
  }

  /** Normalizing twice is normalizing once. */
  lemma NormalizeIdempotent(action: string)
    ensures Normalize(Normalize(action)) == Normalize(action)
  {
    var n := Normalize(action);
    LowerTrimCommute(action);
    assert TrimSpace(n) == n;
    ToLowerIdempotent(TrimSpace(action));
  }

  const KnownActions: seq<Action> :=
    [ActionEat, ActionHydrate, ActionRest, ActionReachOut, ActionJournal,
     ActionBreathe, ActionScanArea, ActionSeekWarm, ActionSeekCool, ActionMicroTask]

  /** The effect of each known action; an unknown key has none. */
  function PulsesFor(key: string): (r: seq<BioPulse>)
    ensures r != [] <==> key in KnownActions
  {
    match key
    case "eat" => [BioPulse("hunger", -0.30), BioPulse("energy", 0.08), BioPulse("mood", 0.04)]
    case "hydrate" => [BioPulse("stress", -0.03), BioPulse("mood", 0.01)]
    case "rest" => [BioPulse("energy", 0.18), BioPulse("stress", -0.06), BioPulse("physical_tension", -0.08)]
    case "reach_out" => [BioPulse("social_deficit", -0.20), BioPulse("mood", 0.06)]
    case "journal" => [BioPulse("stress", -0.02), BioPulse("mood", 0.03)]
    case "breathe" => [BioPulse("stress", -0.08), BioPulse("physical_tension", -0.10)]
    case "scan_environment" => [BioPulse("stress", -0.04)]
    case "seek_warmth" => [BioPulse("body_temp", 0.60), BioPulse("stress", -0.02)]
    case "seek_cooling" => [BioPulse("body_temp", -0.60), BioPulse("stress", -0.02)]
    case "micro_task" => [BioPulse("cognitive_capacity", 0.04), BioPulse("mood", 0.02), BioPulse("energy", -0.02)]
    case _ => []
  }

  /** `ActionPulse`: the effect of an action that was executed and satisfied; nothing otherwise. */
  function ActionPulse(outcome: ActionOutcome): (r: seq<BioPulse>)
    ensures !(outcome.executed && outcome.satisfied) ==> r == []
    ensures outcome.executed && outcome.satisfied ==> (r != [] <==> Normalize(outcome.action) in KnownActions)
  {
    if !outcome.executed || !outcome.satisfied then [] else PulsesFor(Normalize(outcome.action))
  }

  /** Every pulse of every action names one of the eight variables. */
  lemma PulseFieldsAreVariables(key: string, i: int)
    requires 0 <= i < |PulsesFor(key)|
    ensures PulsesFor(key)[i].field in FieldNames
  {
  }

  /** A string without upper-case ASCII letters is its own lower case. */
  lemma LowerFixed(s: string)
    requires forall i :: 0 <= i < |s| ==> !('A' <= s[i] <= 'Z')
    ensures ToLower(s) == s
  {
  }

  /** The known action names are already normalized. */
  lemma KnownActionsNormalized(k: int)
    requires 0 <= k < |KnownActions|
    ensures Normalize(KnownActions[k]) == KnownActions[k]
  {
    var a := KnownActions[k];
    assert Trimmed(a);
    LowerFixed(a);
  }

  /** Eating, committed at tick end, takes 0.30 off hunger that has that much to give. */
  lemma EatingRelievesHunger(b: Bio)
    requires InRange(b) && b.hunger >= 0.30
    ensures FeedbackResult(b, 0.0, FeedbackEnvelope([], ActionPulse(ActionOutcome("eat", true, true)))).hunger
      == b.hunger - 0.30
  {
    KnownActionsNormalized(0);
    var pulses := ActionPulse(ActionOutcome("eat", true, true));
    ZeroDtOnlyPulses(b, FeedbackEnvelope([], pulses));
    var ds := PulseDeltas(pulses);
    assert ds == [Delta("hunger", -0.30), Delta("energy", 0.08), Delta("mood", 0.04)];
    ApplyDeltasSums(b, ds);
    assert ds[1..] == [Delta("energy", 0.08), Delta("mood", 0.04)];
    assert ds[1..][1..] == [Delta("mood", 0.04)];
    assert ds[1..][1..][1..] == [];
    assert AmountFor(ds[1..][1..], "hunger") == 0.0;
    assert AmountFor(ds[1..], "hunger") == 0.0;
    assert AmountFor(ds, "hunger") == -0.30;
  }

  /** `ResolveActionOutcome`: the environment's verdict decides both flags. */
  function ResolveActionOutcome(action: string, allowed: bool): (r: ActionOutcome)
    ensures r.action == Normalize(action)
    ensures r.executed == allowed && r.satisfied == allowed
  {
    ActionOutcome(Normalize(action), allowed, allowed)
  }

  /** A blocked action has no bodily effect; an allowed known action has one, however it was spelled. */
  lemma ResolvedPulse(action: string, allowed: bool)
    ensures !allowed ==> ActionPulse(ResolveActionOutcome(action, allowed)) == []
    ensures allowed ==>
      ActionPulse(ResolveActionOutcome(action, allowed)) == ActionPulse(ActionOutcome(action, true, true))
  {
    NormalizeIdempotent(action);
  }

  /** A missing cooldown entry reads as zero. */
  function CooldownFor(cooldowns: Cooldowns, key: string): int
  {
    if key in cooldowns then cooldowns[key] else 0
  }

  /** The outcome and next state of `ResolveActionOutcomeWithCooldown` for an already normalized key. */
  function CooldownOutcome(key: string, allowed: bool, now: int, cooldowns: Cooldowns, state: CooldownState)
    : (r: (ActionOutcome, CooldownState))
    ensures r.0.action == key && r.0.executed == r.0.satisfied
    ensures r.0.executed <==> allowed && !(key in state && now < state[key])
    ensures !r.0.executed ==> r.1 == state
    ensures forall k :: k != key ==> (k in r.1 <==> k in state)
    ensures forall k :: k != key && k in state ==> r.1[k] == state[k]
    ensures r.0.executed && CooldownFor(cooldowns, key) > 0 ==>
      key in r.1 && r.1[key] == now + CooldownFor(cooldowns, key)
    ensures r.0.executed && CooldownFor(cooldowns, key) <= 0 ==> r.1 == state
  {
    if !allowed then (ActionOutcome(key, false, false), state)
    else if key in state && now < state[key] then (ActionOutcome(key, false, false), state)
    else
      var duration := CooldownFor(cooldowns, key);
      var next := if duration > 0 then state[key := now + duration] else state;
      (ActionOutcome(key, true, true), next)
  }

  /** `cloneCooldownState`: a fresh map with the same entries. */
  method CloneCooldownState(src: CooldownState) returns (out: CooldownState)
    ensures out == src
  {
    if |src| == 0 {
      return map[];
    }
    out := map[];
    var remaining := src.Keys;
    while remaining != {}
      invariant remaining <= src.Keys
      invariant out.Keys == src.Keys - remaining
      invariant forall k :: k in out ==> out[k] == src[k]
      decreases |remaining|
    {
      var k :| k in remaining;
      out := out[k := src[k]];
      remaining := remaining - {k};
    }
  }

  /** `ResolveActionOutcomeWithCooldown`: the caller's state is cloned, never changed. */
  method ResolveActionOutcomeWithCooldown(action: string, allowedByEnvironment: bool, nowSeconds: int,
                                          cooldowns: Cooldowns, state: CooldownState)
    returns (outcome: ActionOutcome, nextState: CooldownState)
    ensures (outcome, nextState) == CooldownOutcome(Normalize(action), allowedByEnvironment, nowSeconds, cooldowns, state)
  {
    var normalized := Normalize(action);
    ghost var decision := CooldownOutcome(normalized, allowedByEnvironment, nowSeconds, cooldowns, state);
    nextState := CloneCooldownState(state);
    if !allowedByEnvironment {
      assert decision == (ActionOutcome(normalized, false, false), state);
      return ActionOutcome(normalized, false, false), nextState;
    }
    if normalized in nextState && nowSeconds < nextState[normalized] {
      assert decision == (ActionOutcome(normalized, false, false), state);
      return ActionOutcome(normalized, false, false), nextState;
    }
    var duration := CooldownFor(cooldowns, normalized);
    if duration > 0 {
      nextState := nextState[normalized := nowSeconds + duration];
    }
    outcome := ActionOutcome(normalized, true, true);
  }

  /** After an executed action starts a cooldown, a retry is refused until it expires and accepted from then on. */
  lemma CooldownWindow(key: string, now: int, later: int, cooldowns: Cooldowns, state: CooldownState)
    requires CooldownOutcome(key, true, now, cooldowns, state).0.executed
    requires CooldownFor(cooldowns, key) > 0
    ensures var next := CooldownOutcome(key, true, now, cooldowns, state).1;
      (!CooldownOutcome(key, true, later, cooldowns, next).0.executed <==> later < now + CooldownFor(cooldowns, key))
  {
  }

  /** Eat with a 30 s cooldown: accepted at 100, refused at 110, accepted again at 130. */
  lemma RepeatedEatExample()
    ensures var c := map["eat" := 30];
      var first := CooldownOutcome("eat", true, 100, c, map[]);
      var second := CooldownOutcome("eat", true, 110, c, first.1);
      var third := CooldownOutcome("eat", true, 130, c, second.1);
      first.0.executed && !second.0.executed && third.0.executed
  {
    var c := map["eat" := 30];
    assert CooldownFor(c, "eat") == 30;
  }

  /** An environment block starts no cooldown. */
  lemma BlockedStartsNoCooldown(key: string, now: int, cooldowns: Cooldowns)
    ensures CooldownOutcome(key, false, now, cooldowns, map[]).1 == map[]
  {
  }
}
