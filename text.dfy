/**
 * The string operations the system relies on: Go's strings.TrimSpace,
 * strings.ToLower/ToUpper (and JavaScript's toLowerCase/toUpperCase),
 * strings.Contains, strings.HasPrefix/HasSuffix and strings.Join.
 * Strings are sequences of Unicode scalar values; case mapping covers ASCII letters only.
 */
module Text {

  /** White space as Go's unicode.IsSpace defines it (Latin-1 space characters and category Z). */
  predicate IsSpace(c: char) {
    ('\t' <= c <= '\r') || c == ' ' || c == '\U{0085}' || c == '\U{00A0}' || c == '\U{1680}'
    || ('\U{2000}' <= c <= '\U{200A}') || c == '\U{2028}' || c == '\U{2029}' || c == '\U{202F}'
    || c == '\U{205F}' || c == '\U{3000}'
  }

  /** A string with no white space at either end. */
  predicate Trimmed(s: string) {
    s == [] || (!IsSpace(s[0]) && !IsSpace(s[|s| - 1]))
  }

  predicate AllSpace(s: string) {
    forall i :: 0 <= i < |s| ==> IsSpace(s[i])
  }

  /** The string without its leading white space. */
  function TrimLeft(s: string): string
  {
    if |s| > 0 && IsSpace(s[0]) then TrimLeft(s[1..]) else s
  }

  /** The string without its trailing white space. */
  function TrimRight(s: string): string
  {
    if |s| > 0 && IsSpace(s[|s| - 1]) then TrimRight(s[..|s| - 1]) else s
  }

  /** Trimming the front leaves a suffix that does not start with white space. */
  lemma {:induction false} TrimLeftFacts(s: string)
    ensures var r := TrimLeft(s);
      && (r == [] || !IsSpace(r[0]))
      && |r| <= |s| && r == s[|s| - |r|..]
  {
    if |s| > 0 && IsSpace(s[0]) {
      TrimLeftFacts(s[1..]);
    }
  }

  /** Trimming the back leaves a prefix that does not end with white space. */
  lemma {:induction false} TrimRightFacts(s: string)
    ensures var r := TrimRight(s);
      && (r == [] || !IsSpace(r[|r| - 1]))
      && |r| <= |s| && r == s[..|r|]
  {
    if |s| > 0 && IsSpace(s[|s| - 1]) {
      TrimRightFacts(s[..|s| - 1]);
    }
  }

  lemma TrimRightKeepsFront(s: string)
    requires s != [] && !IsSpace(s[0])
    ensures TrimRight(s) != [] && TrimRight(s)[0] == s[0]
  {
    if IsSpace(s[|s| - 1]) {
      TrimRightKeepsFront(s[..|s| - 1]);
    }
  }

  /** Go's strings.TrimSpace: the string with leading and trailing white space removed. */
  function TrimSpace(s: string): (r: string)
    ensures Trimmed(r)
    ensures Trimmed(s) ==> r == s
    ensures r == [] <==> AllSpace(s)
    ensures exists i :: 0 <= i <= |s| - |r| && IsSliceAt(s, r, i)
  {
    TrimBothEndsTrimmed(s);
    TrimBothEndsKeepsTrimmed(s);
    EmptyTrimIffSpace(s);
    TrimBothEndsIsSlice(s);
    TrimRight(TrimLeft(s))
  }

  lemma TrimBothEndsTrimmed(s: string)
    ensures Trimmed(TrimRight(TrimLeft(s)))
  {
    var l := TrimLeft(s);
    TrimLeftFacts(s);
    TrimRightFacts(l);
    if l != [] {
      TrimRightKeepsFront(l);
    }
  }

  lemma TrimBothEndsKeepsTrimmed(s: string)
    ensures Trimmed(s) ==> TrimRight(TrimLeft(s)) == s
  {
    if Trimmed(s) {
      TrimmedUnchanged(s);
    }
  }

  lemma TrimBothEndsIsSlice(s: string)
    ensures IsSliceAt(s, TrimRight(TrimLeft(s)), |s| - |TrimLeft(s)|)
  {
    var l := TrimLeft(s);
    TrimLeftFacts(s);
    var k := |s| - |l|;
    var r := TrimRight(l);
    TrimRightFacts(l);
    SliceOfSlice(s, k, |r|);
  }

  lemma SliceOfSlice(s: string, k: nat, m: nat)
    requires k + m <= |s|
    ensures s[k..k + m] == s[k..][..m]
  {
  }

  lemma {:induction false} TrimmedUnchanged(s: string)
    requires Trimmed(s)
    ensures TrimLeft(s) == s && TrimRight(s) == s
  {
  }

  lemma {:induction false} EmptyTrimIffSpace(s: string)
    ensures TrimRight(TrimLeft(s)) == [] <==> AllSpace(s)
  {
    var l := TrimLeft(s);
    TrimLeftFacts(s);
    if l != [] {
      TrimRightKeepsFront(l);
    }
    TrimLeftEmptyIff(s);
  }

  lemma {:induction false} TrimLeftEmptyIff(s: string)
    ensures TrimLeft(s) == [] <==> AllSpace(s)
  {
    if |s| > 0 {
      AllSpaceFront(s);
      if IsSpace(s[0]) {
        TrimLeftEmptyIff(s[1..]);
      }
    }
  }

  lemma AllSpaceFront(s: string)
    requires s != []
    ensures AllSpace(s) <==> IsSpace(s[0]) && AllSpace(s[1..])
  {
    if IsSpace(s[0]) && AllSpace(s[1..]) {
      forall i | 0 < i < |s| ensures IsSpace(s[i]) {
        assert s[i] == s[1..][i - 1];
      }
    }
  }

  /** `part` occurs in `s` starting at index i. */
  predicate IsSliceAt(s: string, part: string, i: int) {
    0 <= i && i + |part| <= |s| && s[i..i + |part|] == part
  }

  lemma TrimSpaceIdempotent(s: string)
    ensures TrimSpace(TrimSpace(s)) == TrimSpace(s)
  {
  }

  function LowerChar(c: char): char {
    if 'A' <= c <= 'Z' then (c as int + 32) as char else c
  }

  function UpperChar(c: char): char {
    if 'a' <= c <= 'z' then (c as int - 32) as char else c
  }

  function ToLower(s: string): (r: string)
    ensures |r| == |s|
    ensures forall i :: 0 <= i < |s| ==> r[i] == LowerChar(s[i])
  {
    seq(|s|, i requires 0 <= i < |s| => LowerChar(s[i]))
  }

  function ToUpper(s: string): (r: string)
    ensures |r| == |s|
    ensures forall i :: 0 <= i < |s| ==> r[i] == UpperChar(s[i])
  {
    seq(|s|, i requires 0 <= i < |s| => UpperChar(s[i]))
  }

  /** Lower-casing keeps white space where it was, so it commutes with trimming. */
  lemma LowerTrimCommute(s: string)
    ensures ToLower(TrimSpace(s)) == TrimSpace(ToLower(s))
  {
    TrimLeftLower(s);
    TrimRightLower(TrimLeft(s));
  }

  lemma {:induction false} TrimLeftLower(s: string)
    ensures ToLower(TrimLeft(s)) == TrimLeft(ToLower(s))
  {
    if |s| > 0 && IsSpace(s[0]) {
      assert ToLower(s)[1..] == ToLower(s[1..]);
      TrimLeftLower(s[1..]);
    } else if |s| > 0 {
      assert ToLower(s)[0] == LowerChar(s[0]);
      assert !IsSpace(LowerChar(s[0]));
    }
  }

  lemma {:induction false} TrimRightLower(s: string)
    ensures ToLower(TrimRight(s)) == TrimRight(ToLower(s))
  {
    if |s| > 0 && IsSpace(s[|s| - 1]) {
      assert ToLower(s)[..|s| - 1] == ToLower(s[..|s| - 1]);
      TrimRightLower(s[..|s| - 1]);
    } else if |s| > 0 {
      assert ToLower(s)[|s| - 1] == LowerChar(s[|s| - 1]);
      assert !IsSpace(LowerChar(s[|s| - 1]));
    }
  }

  lemma ToLowerIdempotent(s: string)
    ensures ToLower(ToLower(s)) == ToLower(s)
  {
  }

  /** Go's strings.Contains: `part` occurs somewhere in `s`. */
  function Contains(s: string, part: string): (r: bool)
    ensures r <==> exists i :: IsSliceAt(s, part, i)
    decreases |s|
  {
    if |part| > |s| then
      assert forall i :: !IsSliceAt(s, part, i);
      false
    else if s[..|part|] == part then
      assert IsSliceAt(s, part, 0);
      true
    else
      var rest := Contains(s[1..], part);
      assert forall i :: IsSliceAt(s, part, i) && i > 0 ==> IsSliceAt(s[1..], part, i - 1);
      assert forall i :: IsSliceAt(s[1..], part, i) ==> IsSliceAt(s, part, i + 1);
      rest
  }

  /** Any witness occurrence makes Contains true (for deciding concrete cases). */
  lemma ContainsAt(s: string, part: string, i: int)
    requires IsSliceAt(s, part, i)
    ensures Contains(s, part)
  {
  }

  /** A string in which no place where `part` would fit starts with the first two characters of `part` does not contain it. */
  lemma NotContainsByPair(s: string, part: string)
    requires |part| >= 2
    requires forall i :: 0 <= i <= |s| - |part| ==> !(s[i] == part[0] && s[i + 1] == part[1])
    ensures !Contains(s, part)
  {
    forall i | IsSliceAt(s, part, i) ensures s[i] == part[0] && s[i + 1] == part[1] {
      SliceStartsWith(s, part, i);
    }
  }

  lemma SliceStartsWith(s: string, part: string, i: int)
    requires |part| >= 2 && IsSliceAt(s, part, i)
    ensures s[i] == part[0] && s[i + 1] == part[1]
  {
    assert s[i..i + |part|][0] == s[i];
    assert s[i..i + |part|][1] == s[i + 1];
  }

  /** The helper containsAny of the input adapter: some pattern occurs in `s`. */
  function ContainsAny(s: string, patterns: seq<string>): (r: bool)
    ensures r <==> exists k :: 0 <= k < |patterns| && Contains(s, patterns[k])
  {
    if patterns == [] then false
    else if Contains(s, patterns[0]) then true
    else
      assert forall k :: 1 <= k < |patterns| ==> patterns[k] == patterns[1..][k - 1];
      ContainsAny(s, patterns[1..])
  }

  function HasPrefix(s: string, prefix: string): bool {
    |prefix| <= |s| && s[..|prefix|] == prefix
  }

  function HasSuffix(s: string, suffix: string): bool {
    |suffix| <= |s| && s[|s| - |suffix|..] == suffix
  }

  /** Go's strings.Join. */
  function Join(parts: seq<string>, sep: string): (r: string)
    ensures parts == [] ==> r == []
    ensures |parts| == 1 ==> r == parts[0]
  {
    if parts == [] then []
    else if |parts| == 1 then parts[0]
    else parts[0] + sep + Join(parts[1..], sep)
  }
}
