// The first-generation input conventions: "*text*" is an action, "~text" an
// environment change, anything else speech (blank input included).
module InputClassifier {
  import opened Text

  datatype InputType = TypeSpeech | TypeAction | TypeEnvironment

  /** Starts and ends with '*' and has something in between. */
  predicate StarWrapped(t: string)
  {
    HasPrefix(t, "*") && HasSuffix(t, "*") && |t| > 2
  }

  /** `classifyInput`: the classification of the input with surrounding white space removed. */
  function ClassifyInput(raw: string): (r: (InputType, string))
    ensures Trimmed(r.1)
    ensures r.0 == TypeSpeech ==> r.1 == TrimSpace(raw)
    ensures r.0 == TypeAction <==> StarWrapped(TrimSpace(raw))
    ensures r.0 == TypeEnvironment <==> !StarWrapped(TrimSpace(raw)) && HasPrefix(TrimSpace(raw), "~")
  {
    ClassifyTrimmed(TrimSpace(raw))
  }

  /** The conventions applied to an already trimmed input: the marker characters are cut off and the rest trimmed. */
  function ClassifyTrimmed(trimmed: string): (r: (InputType, string))
    requires Trimmed(trimmed)
    ensures Trimmed(r.1)
    ensures r.0 == TypeSpeech ==> r.1 == trimmed
    ensures r.0 == TypeAction <==> StarWrapped(trimmed)
    ensures r.0 == TypeEnvironment <==> !StarWrapped(trimmed) && HasPrefix(trimmed, "~")
  {
    if StarWrapped(trimmed) then (TypeAction, TrimSpace(trimmed[1..|trimmed| - 1]))
    else if HasPrefix(trimmed, "~") then (TypeEnvironment, TrimSpace(trimmed[1..]))
    else (TypeSpeech, trimmed)
  }

  /** Surrounding white space never changes the classification. */
  lemma ClassifyIgnoresPadding(raw: string)
    ensures ClassifyInput(TrimSpace(raw)) == ClassifyInput(raw)
  {
    TrimSpaceIdempotent(raw);
  }

  /** "*" + x + "*" is its own trimming, star-wrapped iff x is not empty, with inner text x. */
  lemma StarForm(inner: string, t: string)
    requires t == "*" + inner + "*"
    ensures TrimSpace(t) == t && (StarWrapped(t) <==> inner != [])
    ensures |t| == |inner| + 2 && t[1..|t| - 1] == inner
    ensures HasPrefix(t, "*") && !HasPrefix(t, "~")
  {
    StarEnds(inner, t);
    assert Trimmed(t);
    assert t[..1] == "*";
    assert t[|t| - 1..] == "*";
  }

  lemma StarEnds(inner: string, t: string)
    requires t == "*" + inner + "*"
    ensures |t| == |inner| + 2 && t[0] == '*' && t[|t| - 1] == '*' && t[1..|t| - 1] == inner
  {
    assert t[1..|t| - 1] == inner;
  }

  /** "*x*" with any non-empty x is the action x, trimmed; blank x gives an empty action. */
  lemma ClassifyAction(inner: string)
    requires inner != []
    ensures ClassifyInput("*" + inner + "*") == (TypeAction, TrimSpace(inner))
  {
    StarForm(inner, "*" + inner + "*");
  }

  /** "**" is speech. */
  lemma DoubleStarIsSpeech()
    ensures ClassifyInput("**") == (TypeSpeech, "**")
  {
    StarForm("", "**");
  }

  /** "~" + x, x without trailing white space, is the environment change x trimmed; a bare "~" gives "". */
  lemma ClassifyEnvironment(rest: string)
    requires rest == [] || !IsSpace(rest[|rest| - 1])
    ensures ClassifyInput("~" + rest) == (TypeEnvironment, TrimSpace(rest))
  {
    var t := "~" + rest;
    assert Trimmed(t);
    assert t[1..] == rest;
    assert !StarWrapped(t);
  }
}
