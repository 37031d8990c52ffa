// The v2 operator-input conventions: "*text*" is an action, "~text" an
// environment change, anything else speech; blank lines are rejected.
module SenseParser {
  import opened Wrappers
  import opened Text

  datatype InputKind = InputSpeech | InputAction | InputEnvironment
  datatype ParsedInput = ParsedInput(kind: InputKind, content: string)

  /** Starts and ends with '*' and has something in between. */
  predicate StarWrapped(t: string)
  {
    HasPrefix(t, "*") && HasSuffix(t, "*") && |t| > 2
  }

  /** `ConventionParser.Parse`; `None` stands for the `false` flag. */
  function Parse(raw: string): (r: Option<ParsedInput>)
    ensures r.None? <==> AllSpace(raw)
    ensures r.Some? ==> Trimmed(r.value.content)
    ensures r.Some? && r.value.kind == InputAction ==> r.value.content != []
    ensures r.Some? && r.value.kind == InputSpeech ==> r.value.content == TrimSpace(raw)
  {
    var trimmed := TrimSpace(raw);
    if trimmed == "" then None
    else if StarWrapped(trimmed) && TrimSpace(trimmed[1..|trimmed| - 1]) != "" then
      Some(ParsedInput(InputAction, TrimSpace(trimmed[1..|trimmed| - 1])))
    else if HasPrefix(trimmed, "~") then
      Some(ParsedInput(InputEnvironment, TrimSpace(trimmed[1..])))
    else
      Some(ParsedInput(InputSpeech, trimmed))
  }

  /** "*x*" is the action x, trimmed, whenever x is not blank. */
  lemma ParseAction(inner: string)
    requires !AllSpace(inner)
    ensures Parse("*" + inner + "*") == Some(ParsedInput(InputAction, TrimSpace(inner)))
  {
    var t := "*" + inner + "*";
    StarWrappedForm(inner, t);
    assert TrimSpace(inner) != "";
  }

  /** "*" + x + "*" is its own trimming, star-wrapped iff x is not empty, with inner text x. */
  lemma StarWrappedForm(inner: string, t: string)
    requires t == "*" + inner + "*"
    ensures TrimSpace(t) == t && (StarWrapped(t) <==> inner != [])
    ensures |t| == |inner| + 2 && t[1..|t| - 1] == inner
    ensures HasPrefix(t, "*") && !HasPrefix(t, "~")
  {
    assert t[0] == '*' && t[|t| - 1] == '*';
    assert Trimmed(t);
    assert t[..1] == "*";
    assert t[|t| - 1..] == "*";
    assert t[1..|t| - 1] == inner;
  }

  /** "*" around blank text is not an action: it is spoken as typed. */
  lemma BlankStarsAreSpeech(inner: string)
    requires AllSpace(inner)
    ensures Parse("*" + inner + "*") == Some(ParsedInput(InputSpeech, "*" + inner + "*"))
  {
    var t := "*" + inner + "*";
    StarWrappedForm(inner, t);
    BlankTrimsEmpty(inner);
    SpeechWhenNotActionOrEnvironment(t);
  }

  lemma BlankTrimsEmpty(inner: string)
    requires AllSpace(inner)
    ensures TrimSpace(inner) == ""
  {
  }

  /** A trimmed, non-empty line that is neither a real action nor environment is spoken as is. */
  lemma SpeechWhenNotActionOrEnvironment(t: string)
    requires TrimSpace(t) == t && t != []
    requires !(StarWrapped(t) && TrimSpace(t[1..|t| - 1]) != "")
    requires !HasPrefix(t, "~")
    ensures Parse(t) == Some(ParsedInput(InputSpeech, t))
  {
  }

  /** "~" followed by anything is the environment change it names, trimmed, possibly empty. */
  lemma ParseEnvironment(rest: string)
    requires rest == [] || !IsSpace(rest[|rest| - 1])
    ensures Parse("~" + rest) == Some(ParsedInput(InputEnvironment, TrimSpace(rest)))
  {
    var t := "~" + rest;
    assert Trimmed(t);
    assert t[1..] == rest;
    assert !StarWrapped(t);
  }

  /** "**" is too short to be an action. */
  lemma DoubleStarIsSpeech()
    ensures Parse("**") == Some(ParsedInput(InputSpeech, "**"))
  {
    assert "*" + "" + "*" == "**";
    BlankStarsAreSpeech("");
  }
}
