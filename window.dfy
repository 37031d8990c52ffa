/**
 * Bounded histories that keep only their newest entries: the dashboard's
 * 60-point chart series, the continuity buffer and the reviewer's recent thoughts.
 */
module Window {

  /** The last n elements of s, or all of s when it is shorter. */
  function KeepLast<T>(s: seq<T>, n: nat): (r: seq<T>)
    ensures |r| == if |s| <= n then |s| else n
    ensures r == s[|s| - |r|..]
  {
    if |s| <= n then s else s[|s| - n..]
  }

  /**
   * One step of a history that drops its oldest entry once it holds n entries
   * and then appends the new one (shifting an empty history does nothing).
   */
  function Roll<T>(s: seq<T>, x: T, n: nat): seq<T> {
    if |s| >= n && s != [] then s[1..] + [x] else s + [x]
  }

  /** While a history is within its bound, rolling it is keeping the newest n of it plus the new entry. */
  lemma RollIsKeepLast<T>(s: seq<T>, x: T, n: nat)
    requires 1 <= n && |s| <= n
    ensures Roll(s, x, n) == KeepLast(s + [x], n)
    ensures |Roll(s, x, n)| <= n
    ensures Roll(s, x, n)[|Roll(s, x, n)| - 1] == x
  {
    if |s| == n {
      assert (s + [x])[1..] == s[1..] + [x];
    }
  }

  /** Trimming before appending and trimming after appending agree. */
  lemma {:induction false} KeepLastAppend<T>(a: seq<T>, b: seq<T>, n: nat)
    ensures KeepLast(KeepLast(a, n) + b, n) == KeepLast(a + b, n)
  {
    var t := a + b;
    var k := KeepLast(a, n);
    assert k + b == t[|a| - |k|..];
    SuffixKeepLast(t, |a| - |k|, n);
  }

  lemma SuffixKeepLast<T>(t: seq<T>, j: nat, n: nat)
    requires j <= |t| && (j == 0 || |t| - j >= n)
    ensures KeepLast(t[j..], n) == KeepLast(t, n)
  {
  }

  /** The history after appending each of xs in turn, trimming to n after each step. */
  function PushAll<T>(s: seq<T>, xs: seq<T>, n: nat): seq<T>
    decreases |xs|
  {
    if xs == [] then s else PushAll(KeepLast(s + [xs[0]], n), xs[1..], n)
  }

  /** A bounded history fed a run of entries holds exactly the newest n of everything it was given. */
  lemma {:induction false} PushAllKeepsNewest<T>(s: seq<T>, xs: seq<T>, n: nat)
    requires |s| <= n
    ensures PushAll(s, xs, n) == KeepLast(s + xs, n)
    decreases |xs|
  {
    if xs != [] {
      var t := s + [xs[0]];
      PushAllKeepsNewest(KeepLast(t, n), xs[1..], n);
      KeepLastAppend(t, xs[1..], n);
      SplitFirst(s, xs);
    } else {
      assert s + xs == s;
    }
  }

  lemma SplitFirst<T>(s: seq<T>, xs: seq<T>)
    requires xs != []
    ensures s + [xs[0]] + xs[1..] == s + xs
  {
    assert xs == [xs[0]] + xs[1..];
  }

  /** The history after rolling in each of xs in turn. */
  function RollAll<T>(s: seq<T>, xs: seq<T>, n: nat): seq<T>
    decreases |xs|
  {
    if xs == [] then s else RollAll(Roll(s, xs[0], n), xs[1..], n)
  }

  /** A rolled history that starts within its bound always holds the newest n entries it was given. */
  lemma {:induction false} RollAllKeepsNewest<T>(s: seq<T>, xs: seq<T>, n: nat)
    requires 1 <= n && |s| <= n
    ensures RollAll(s, xs, n) == KeepLast(s + xs, n)
    decreases |xs|
  {
    if xs != [] {
      RollIsKeepLast(s, xs[0], n);
      var t := s + [xs[0]];
      RollAllKeepsNewest(Roll(s, xs[0], n), xs[1..], n);
      KeepLastAppend(t, xs[1..], n);
      SplitFirst(s, xs);
    } else {
      assert s + xs == s;
    }
  }
}
