// The second-generation operator input adapter: raw lines are queued, then
// drained once per tick and folded into the tick's input (allowed actions,
// pre-biology rates and pulses, and the echoed external text).
module InputAdapterModule {
  import opened Wrappers
  import opened Text
  import opened BioFeedback
  import opened Motivation
  import opened SenseParser

  datatype TickInput = TickInput(
    allowedActions: map<string, bool>,
    nowSeconds: int,
    preBioRates: seq<BioRate>,
    preBioPulses: seq<BioPulse>,
    externalText: string)

  /** Go's map read: a missing action is not allowed. */
  predicate Allowed(t: TickInput, a: string)
  {
    a in t.allowedActions && t.allowedActions[a]
  }

  const DefaultActions: seq<Action> :=
    [ActionRest, ActionEat, ActionHydrate, ActionReachOut, ActionJournal,
     ActionBreathe, ActionScanArea, ActionSeekWarm, ActionSeekCool, ActionMicroTask]

  /** `defaultAllowedActions`: the ten actions, each allowed, and no other key. */
  function DefaultAllowedActions(): (r: map<string, bool>)
    ensures forall a :: a in r <==> a in DefaultActions
    ensures forall a :: a in r ==> r[a]
  {
    map a | a in DefaultActions :: true
  }

  // Keyword lists of the action and environment rules.
  const ViolenceWords: seq<string> := ["punch", "hit", "kick", "slap", "strike", "shove", "attack"]
  const ComfortWords: seq<string> := ["hug", "comfort", "reassure", "support", "care"]
  const FeedWords: seq<string> := ["feed", "food", "meal", "snack"]
  const ColdWords: seq<string> := ["cold", "freezing", "chilly", "frigid"]
  const HotWords: seq<string> := ["hot", "heat", "scorching", "sweltering"]
  const NoisyWords: seq<string> := ["loud", "crowd", "chaos", "sirens"]
  const CalmWords: seq<string> := ["quiet", "calm", "safe", "peaceful"]
  const NoFoodWords: seq<string> := ["no food", "without food", "food unavailable"]
  const FoodWords: seq<string> := ["food available", "food is available", "has food", "meal nearby", "kitchen stocked"]
  const NoWaterWords: seq<string> := ["no water", "without water", "water unavailable"]
  const WaterWords: seq<string> := ["water available", "drinkable water"]
  const NoRestWords: seq<string> := ["no quiet space", "cannot rest", "rest impossible"]
  const RestWords: seq<string> := ["quiet space available", "can rest", "safe resting place"]

  const ViolencePulses: seq<BioPulse> :=
    [BioPulse("stress", 0.20), BioPulse("physical_tension", 0.15), BioPulse("mood", -0.08)]
  const ComfortPulses: seq<BioPulse> :=
    [BioPulse("stress", -0.12), BioPulse("physical_tension", -0.08), BioPulse("mood", 0.08)]
  const FeedPulse: BioPulse := BioPulse("hunger", -0.20)

  /** The pulses an action line contributes, in rule order. */
  function ActionPulses(lower: string): seq<BioPulse>
  {
    (if ContainsAny(lower, ViolenceWords) then ViolencePulses else [])
    + (if ContainsAny(lower, ComfortWords) then ComfortPulses else [])
    + (if ContainsAny(lower, FeedWords) then [FeedPulse] else [])
  }

  /** `applyActionInput`: appends pulses; a mention of food also allows eating. */
  function ActionApplied(content: string, t: TickInput): TickInput
  {
    var lower := ToLower(content);
    var pulses := t.preBioPulses;
    var pulses := if ContainsAny(lower, ViolenceWords) then pulses + ViolencePulses else pulses;
    var pulses := if ContainsAny(lower, ComfortWords) then pulses + ComfortPulses else pulses;
    if ContainsAny(lower, FeedWords) then
      t.(preBioPulses := pulses + [FeedPulse], allowedActions := t.allowedActions[ActionEat := true])
    else
      t.(preBioPulses := pulses)
  }

  /** The rates an environment line contributes, in rule order. */
  function EnvironmentRates(lower: string): seq<BioRate>
  {
    (if ContainsAny(lower, ColdWords) then [BioRate("body_temp", -0.03)] else [])
    + (if ContainsAny(lower, HotWords) then [BioRate("body_temp", 0.03)] else [])
    + (if ContainsAny(lower, NoisyWords) then [BioRate("stress", 0.03)] else [])
    + (if ContainsAny(lower, CalmWords) then [BioRate("stress", -0.02)] else [])
  }

  /**
   * One availability gate: a denial blocks the action, otherwise an affirmation
   * allows it, otherwise the gate keeps its value.
   */
  function Gate(allowed: map<string, bool>, action: string, denied: bool, affirmed: bool): map<string, bool>
  {
    if denied then allowed[action := false]
    else if affirmed then allowed[action := true]
    else allowed
  }

  /** A gate changes at most its own entry, and sets it as the denial and affirmation say. */
  lemma GateEffect(allowed: map<string, bool>, action: string, denied: bool, affirmed: bool)
    ensures var r := Gate(allowed, action, denied, affirmed);
      && allowed.Keys <= r.Keys <= allowed.Keys + {action}
      && (forall a :: a in allowed && a != action ==> r[a] == allowed[a])
      && (denied ==> action in r && !r[action])
      && (!denied && affirmed ==> action in r && r[action])
      && (!denied && !affirmed ==> r == allowed)
  {
  }

  /** The three gates of an environment line: eat, then hydrate, then rest. */
  function EnvironmentGates(allowed: map<string, bool>, lower: string): map<string, bool>
  {
    var eat := Gate(allowed, ActionEat, ContainsAny(lower, NoFoodWords), ContainsAny(lower, FoodWords));
    var hydrate := Gate(eat, ActionHydrate, ContainsAny(lower, NoWaterWords), ContainsAny(lower, WaterWords));
    Gate(hydrate, ActionRest, ContainsAny(lower, NoRestWords), ContainsAny(lower, RestWords))
  }

  /**
   * Only the eat, hydrate and rest entries can change; the eat entry is blocked by a
   * denial of food, else allowed by an affirmation, else kept.
   */
  lemma EnvironmentGatesEffect(allowed: map<string, bool>, lower: string)
    ensures var r := EnvironmentGates(allowed, lower);
      && allowed.Keys <= r.Keys <= allowed.Keys + {ActionEat, ActionHydrate, ActionRest}
      && (forall a :: a in allowed && a != ActionEat && a != ActionHydrate && a != ActionRest ==> r[a] == allowed[a])
      && (ContainsAny(lower, NoFoodWords) ==> ActionEat in r && !r[ActionEat])
      && (!ContainsAny(lower, NoFoodWords) && ContainsAny(lower, FoodWords) ==> ActionEat in r && r[ActionEat])
      && (!ContainsAny(lower, NoFoodWords) && !ContainsAny(lower, FoodWords) && ActionEat in allowed ==>
            ActionEat in r && r[ActionEat] == allowed[ActionEat])
  {
    var eat := Gate(allowed, ActionEat, ContainsAny(lower, NoFoodWords), ContainsAny(lower, FoodWords));
    var hydrate := Gate(eat, ActionHydrate, ContainsAny(lower, NoWaterWords), ContainsAny(lower, WaterWords));
    GateEffect(allowed, ActionEat, ContainsAny(lower, NoFoodWords), ContainsAny(lower, FoodWords));
    GateEffect(eat, ActionHydrate, ContainsAny(lower, NoWaterWords), ContainsAny(lower, WaterWords));
    GateEffect(hydrate, ActionRest, ContainsAny(lower, NoRestWords), ContainsAny(lower, RestWords));
    assert ActionEat != ActionHydrate && ActionEat != ActionRest;
  }

  /** `applyEnvironmentInput`: appends rates and sets the eat, hydrate and rest gates. */
  function EnvironmentApplied(content: string, t: TickInput): TickInput
  {
    var lower := ToLower(content);
    var rates := t.preBioRates;
    var rates := if ContainsAny(lower, ColdWords) then rates + [BioRate("body_temp", -0.03)] else rates;
    var rates := if ContainsAny(lower, HotWords) then rates + [BioRate("body_temp", 0.03)] else rates;
    var rates := if ContainsAny(lower, NoisyWords) then rates + [BioRate("stress", 0.03)] else rates;
    var rates := if ContainsAny(lower, CalmWords) then rates + [BioRate("stress", -0.02)] else rates;
    t.(preBioRates := rates, allowedActions := EnvironmentGates(t.allowedActions, lower))
  }

  /**
   * An action line adds its pulses after the earlier ones, touches no rate, and
   * changes the allowed actions only by allowing eating when it mentions food.
   */
  lemma ActionAppliedEffect(content: string, t: TickInput)
    ensures var r := ActionApplied(content, t);
      && r.nowSeconds == t.nowSeconds && r.preBioRates == t.preBioRates && r.externalText == t.externalText
      && r.preBioPulses == t.preBioPulses + ActionPulses(ToLower(content))
      && (ContainsAny(ToLower(content), FeedWords) ==> r.allowedActions == t.allowedActions[ActionEat := true])
      && (!ContainsAny(ToLower(content), FeedWords) ==> r.allowedActions == t.allowedActions)
  {
  }

  /** An environment line adds its rates after the earlier ones, touches no pulse, and applies the three gates. */
  lemma EnvironmentAppliedEffect(content: string, t: TickInput)
    ensures var r := EnvironmentApplied(content, t);
      && r.nowSeconds == t.nowSeconds && r.preBioPulses == t.preBioPulses && r.externalText == t.externalText
      && r.preBioRates == t.preBioRates + EnvironmentRates(ToLower(content))
      && r.allowedActions == EnvironmentGates(t.allowedActions, ToLower(content))
  {
  }

  /** The tick input before any line is applied. */
  function InitialInput(now: int): (r: TickInput)
    ensures r.allowedActions == DefaultAllowedActions() && r.nowSeconds == now
    ensures r.preBioRates == [] && r.preBioPulses == [] && r.externalText == []
  {
    TickInput(DefaultAllowedActions(), now, [], [], "")
  }

  /** The drain loop's state: the tick input so far and the echoed lines. */
  datatype Folding = Folding(out: TickInput, external: seq<string>)

  /** The switch on the parsed kind: actions and environment changes apply, speech has no effect. */
  function ApplyParsed(p: ParsedInput, t: TickInput): TickInput
  {
    match p.kind
    case InputAction => ActionApplied(p.content, t)
    case InputEnvironment => EnvironmentApplied(p.content, t)
    case InputSpeech => t
  }

  /** One loop iteration: rejected lines are skipped, accepted ones echoed and applied by kind. */
  function Absorb(acc: Folding, raw: string): Folding
  {
    match Parse(raw)
    case None => acc
    case Some(p) => Folding(ApplyParsed(p, acc.out), acc.external + [TrimSpace(raw)])
  }

  /** The loop over the drained items, in queue order. */
  function FoldLines(acc: Folding, items: seq<string>): Folding
    decreases |items|
  {
    if items == [] then acc
    else Absorb(FoldLines(acc, items[..|items| - 1]), items[|items| - 1])
  }

  lemma FoldLinesSnoc(acc: Folding, items: seq<string>, raw: string)
    ensures FoldLines(acc, items + [raw]) == Absorb(FoldLines(acc, items), raw)
  {
    assert (items + [raw])[..|items + [raw]| - 1] == items;
  }

  /** What `Drain` returns for the drained items at clock reading `now`. */
  function DrainResult(items: seq<string>, now: int): TickInput
  {
    var f := FoldLines(Folding(InitialInput(now), []), items);
    f.out.(externalText := Join(f.external, "\n"))
  }

  lemma TakeOneMore(s: seq<string>, i: nat)
    requires i < |s|
    ensures s[..i + 1] == s[..i] + [s[i]]
  {
  }

  /** The adapter; the parser is the convention parser and the clock reading is a parameter. */
  class InputAdapter {
    var queue: seq<string>

    constructor ()
      ensures queue == []
    {
      queue := [];
    }

    method Enqueue(raw: string)
      modifies this`queue
      ensures queue == old(queue) + [raw]
    {
      queue := queue + [raw];
    }

    /** Take every queued line, leave the queue empty, and fold the lines into a tick input. */
    method Drain(now: int) returns (out: TickInput)
      modifies this`queue
      ensures queue == []
      ensures out == DrainResult(old(queue), now)
    {
      var rawItems := queue;
      queue := [];
      out := InitialInput(now);
      var external: seq<string> := [];
      ghost var start := Folding(out, external);
      var i := 0;
      assert rawItems[..i] == [];
      while i < |rawItems|
        invariant 0 <= i <= |rawItems| && queue == []
        invariant Folding(out, external) == FoldLines(start, rawItems[..i])
      {
        var raw := rawItems[i];
        ghost var before := Folding(out, external);
        var parsed := Parse(raw);
        if parsed.Some? {
          external := external + [TrimSpace(raw)];
          out := ApplyParsed(parsed.value, out);
        }
        assert Folding(out, external) == Absorb(before, raw);
        FoldLinesSnoc(start, rawItems[..i], raw);
        TakeOneMore(rawItems, i);
        i := i + 1;
      }
      assert rawItems[..i] == rawItems;
      out := out.(externalText := Join(external, "\n"));
    }
  }

  /** A second drain without new input sees nothing: defaults, no effects, no text. */
  method DrainTwice(a: InputAdapter, now: int) returns (first: TickInput, second: TickInput)
    modifies a
    ensures first == DrainResult(old(a.queue), now)
    ensures second == InitialInput(now) && a.queue == []
  {
    first := a.Drain(now);
    second := a.Drain(now);
  }

  /** The trimmed lines the parser accepts, in order. */
  function AcceptedLines(items: seq<string>): seq<string>
    decreases |items|
  {
    if items == [] then []
    else
      var last := items[|items| - 1];
      AcceptedLines(items[..|items| - 1]) + (if AllSpace(last) then [] else [TrimSpace(last)])
  }

  lemma {:induction false} FoldEchoesAccepted(acc: Folding, items: seq<string>)
    ensures FoldLines(acc, items).external == acc.external + AcceptedLines(items)
    decreases |items|
  {
    if items != [] {
      FoldEchoesAccepted(acc, items[..|items| - 1]);
    }
  }

  /** The external text is the trimmed accepted lines joined by newlines, in queue order. */
  lemma ExternalTextIsAcceptedLines(items: seq<string>, now: int)
    ensures DrainResult(items, now).externalText == Join(AcceptedLines(items), "\n")
  {
    FoldEchoesAccepted(Folding(InitialInput(now), []), items);
    var f := FoldLines(Folding(InitialInput(now), []), items);
    assert f.external == AcceptedLines(items);
    assert DrainResult(items, now) == f.out.(externalText := Join(f.external, "\n"));
  }

  /** The gated actions have entries (they start among the defaults and are never removed). */
  predicate GatesPresent(t: TickInput)
  {
    ActionEat in t.allowedActions && ActionHydrate in t.allowedActions && ActionRest in t.allowedActions
  }

  lemma {:induction false} FoldKeepsGates(acc: Folding, items: seq<string>)
    requires GatesPresent(acc.out)
    ensures GatesPresent(FoldLines(acc, items).out)
    decreases |items|
  {
    if items != [] {
      var prev := FoldLines(acc, items[..|items| - 1]);
      FoldKeepsGates(acc, items[..|items| - 1]);
      match Parse(items[|items| - 1])
      case None =>
      case Some(p) =>
        if p.kind == InputAction {
          ActionAppliedEffect(p.content, prev.out);
        } else if p.kind == InputEnvironment {
          EnvironmentAppliedEffect(p.content, prev.out);
          EnvironmentGatesEffect(prev.out.allowedActions, ToLower(p.content));
        }
    }
  }

  /** An environment line that denies food blocks eating, whatever came before it. */
  lemma LastLineDeniesFood(items: seq<string>, line: string, c: string, now: int)
    requires Parse(line) == Some(ParsedInput(InputEnvironment, c))
    requires ContainsAny(ToLower(c), NoFoodWords)
    ensures !Allowed(DrainResult(items + [line], now), ActionEat)
  {
    assert (items + [line])[..|items + [line]| - 1] == items;
    var prev := FoldLines(Folding(InitialInput(now), []), items).out;
    EnvironmentAppliedEffect(c, prev);
    EnvironmentGatesEffect(prev.allowedActions, ToLower(c));
  }

  /** An environment line that affirms food and denies none allows eating, whatever came before it. */
  lemma LastLineAffirmsFood(items: seq<string>, line: string, c: string, now: int)
    requires Parse(line) == Some(ParsedInput(InputEnvironment, c))
    requires !ContainsAny(ToLower(c), NoFoodWords) && ContainsAny(ToLower(c), FoodWords)
    ensures Allowed(DrainResult(items + [line], now), ActionEat)
  {
    assert (items + [line])[..|items + [line]| - 1] == items;
    var prev := FoldLines(Folding(InitialInput(now), []), items).out;
    EnvironmentAppliedEffect(c, prev);
    EnvironmentGatesEffect(prev.allowedActions, ToLower(c));
  }

  /** "no food" wins over "food available" in the same line. */
  lemma DenialBeatsAffirmation(allowed: map<string, bool>, lower: string)
    requires Contains(lower, "no food") && Contains(lower, "food available")
    ensures ActionEat in EnvironmentGates(allowed, lower) && !EnvironmentGates(allowed, lower)[ActionEat]
  {
    assert Contains(lower, NoFoodWords[0]);
    EnvironmentGatesEffect(allowed, lower);
  }

  /** An environment line that says nothing about food leaves the eat gate as the earlier lines set it. */
  lemma SilentLineKeepsEatGate(items: seq<string>, line: string, c: string, now: int)
    requires Parse(line) == Some(ParsedInput(InputEnvironment, c))
    requires !ContainsAny(ToLower(c), NoFoodWords) && !ContainsAny(ToLower(c), FoodWords)
    ensures Allowed(DrainResult(items + [line], now), ActionEat) == Allowed(DrainResult(items, now), ActionEat)
  {
    var acc := Folding(InitialInput(now), []);
    var f := FoldLines(acc, items);
    FoldLinesSnoc(acc, items, line);
    assert FoldLines(acc, items + [line]).out == EnvironmentApplied(c, f.out);
    EnvironmentAppliedEffect(c, f.out);
    EnvironmentGatesEffect(f.out.allowedActions, ToLower(c));
    InitialGatesPresent(now);
    FoldKeepsGates(acc, items);
  }

  lemma InitialGatesPresent(now: int)
    ensures GatesPresent(InitialInput(now))
  {
    assert ActionEat in DefaultActions && ActionHydrate in DefaultActions && ActionRest in DefaultActions;
  }

  /** An action line mentioning food allows eating and ends the pulses with the hunger pulse. */
  lemma FeedingActionAllowsEat(items: seq<string>, line: string, c: string, now: int)
    requires Parse(line) == Some(ParsedInput(InputAction, c))
    requires ContainsAny(ToLower(c), FeedWords)
    ensures Allowed(DrainResult(items + [line], now), ActionEat)
    ensures var p := DrainResult(items + [line], now).preBioPulses; |p| > 0 && p[|p| - 1] == FeedPulse
  {
    assert (items + [line])[..|items + [line]| - 1] == items;
    ActionAppliedEffect(c, FoldLines(Folding(InitialInput(now), []), items).out);
  }

  /** A speech line is echoed but has no effect on the tick input. */
  lemma SpeechOnlyEchoes(acc: Folding, raw: string)
    requires Parse(raw).Some? && Parse(raw).value.kind == InputSpeech
    ensures Absorb(acc, raw) == Folding(acc.out, acc.external + [TrimSpace(raw)])
  {
  }
}
