/** The few Python string and list operations the sounding parser and the
    annotation reader rely on: `str.split()`, `str.strip()`, `str.startswith`,
    `str.split(c)[-1]` and `list.index`. */
module Text {
  import opened Wrappers

  /** Python's `str.isspace` for one character (the ASCII and Unicode white space
      that `split()` and `strip()` without arguments remove). */
  predicate IsSpace(c: char) {
    c == ' ' || c == '\t' || c == '\n' || c == '\r' || c == '\U{000B}' || c == '\U{000C}'
    || ('\U{001C}' <= c <= '\U{001F}') || c == '\U{0085}' || c == '\U{00A0}' || c == '\U{1680}'
    || ('\U{2000}' <= c <= '\U{200A}') || c == '\U{2028}' || c == '\U{2029}' || c == '\U{202F}'
    || c == '\U{205F}' || c == '\U{3000}'
  }

  predicate NoSpace(s: string) {
    forall i :: 0 <= i < |s| ==> !IsSpace(s[i])
  }

  /** Python's `s.strip()`: `s` without its leading and trailing white space. */
  function Strip(s: string): string
    decreases |s|
  {
    if s != [] && IsSpace(s[0]) then Strip(s[1..])
    else if s != [] && IsSpace(s[|s| - 1]) then Strip(s[..|s| - 1])
    else s
  }

  /** `Strip(s)` is a slice `s[a..b]` with only white space cut before `a` and
      after `b`; it begins and ends with a non-white-space character, and text
      already so is left as it is. */
  lemma {:induction false} StripTrims(s: string)
    ensures var r := Strip(s);
      && (r == [] || (!IsSpace(r[0]) && !IsSpace(r[|r| - 1])))
      && |r| <= |s|
      && (s == [] || (!IsSpace(s[0]) && !IsSpace(s[|s| - 1])) ==> r == s)
    ensures exists a, b | 0 <= a <= b <= |s| ::
      && Strip(s) == s[a..b]
      && (forall k | 0 <= k < a :: IsSpace(s[k]))
      && (forall k | b <= k < |s| :: IsSpace(s[k]))
    decreases |s|
  {
    if s != [] && IsSpace(s[0]) {
      StripTrims(s[1..]);
    } else if s != [] && IsSpace(s[|s| - 1]) {
      StripTrims(s[..|s| - 1]);
    }
    var a, b := StripBounds(s);
  }

  /** Where `Strip(s)` starts and ends in `s`. */
  lemma {:induction false} StripBounds(s: string) returns (a: nat, b: nat)
    ensures a <= b <= |s| && Strip(s) == s[a..b]
    ensures forall k | 0 <= k < a :: IsSpace(s[k])
    ensures forall k | b <= k < |s| :: IsSpace(s[k])
    decreases |s|
  {
    if s != [] && IsSpace(s[0]) {
      var t := s[1..];
      a, b := StripBounds(t);
      a, b := a + 1, b + 1;
      forall k | 0 < k < |s| ensures s[k] == t[k - 1] { }
    } else if s != [] && IsSpace(s[|s| - 1]) {
      var t := s[..|s| - 1];
      a, b := StripBounds(t);
      forall k | 0 <= k < |t| ensures s[k] == t[k] { }
    } else {
      a, b := 0, |s|;
    }
  }

  /** The leading run of non-white-space characters of `s`. */
  function Word(s: string): (r: string)
    ensures |r| <= |s|
    ensures s != [] && !IsSpace(s[0]) ==> r != []
  {
    if s == [] || IsSpace(s[0]) then [] else [s[0]] + Word(s[1..])
  }

  /** `Word(s)` is the longest prefix of `s` without white space. */
  lemma {:induction false} WordIsLongestRun(s: string)
    ensures var r := Word(s);
      r == s[..|r|] && NoSpace(r) && (|r| < |s| ==> IsSpace(s[|r|]))
  {
    if s != [] && !IsSpace(s[0]) {
      WordIsLongestRun(s[1..]);
    }
  }

  /** Python's `s.split()`: the maximal runs of non-white-space characters, in order. */
  function Split(s: string): seq<string>
    decreases |s|
  {
    if s == [] then []
    else if IsSpace(s[0]) then Split(s[1..])
    else
      var w := Word(s);
      [w] + Split(s[|w|..])
  }

  /** Every token of `Split(s)` is non-empty and holds no white space. */
  lemma {:induction false} SplitTokens(s: string)
    ensures forall k :: 0 <= k < |Split(s)| ==> Split(s)[k] != [] && NoSpace(Split(s)[k])
    decreases |s|
  {
    if s == [] {
    } else if IsSpace(s[0]) {
      SplitTokens(s[1..]);
    } else {
      var w := Word(s);
      WordIsLongestRun(s);
      SplitTokens(s[|w|..]);
    }
  }

  /** Python's `s.startswith(p)`. */
  predicate StartsWith(s: string, p: string) {
    p == [] || (s != [] && s[0] == p[0] && StartsWith(s[1..], p[1..]))
  }

  /** `s.startswith(p)` holds exactly when `p` is a prefix of `s`. */
  lemma {:induction false} StartsWithPrefix(s: string, p: string)
    ensures StartsWith(s, p) <==> |p| <= |s| && s[..|p|] == p
    decreases |p|
  {
    if p != [] && s != [] {
      StartsWithPrefix(s[1..], p[1..]);
      if |p| <= |s| {
        assert s[..|p|] == [s[0]] + s[1..][..|p| - 1];
        assert p == [p[0]] + p[1..];
      }
    }
  }

  /** Python's `s.split(c)[-1]`: what follows the last `c`, or all of `s` when there is none. */
  function AfterLast(s: string, c: char): string {
    if s == [] || s[|s| - 1] == c then [] else AfterLast(s[..|s| - 1], c) + [s[|s| - 1]]
  }

  /** `AfterLast(s, c)` is the suffix of `s` after the last `c`: it holds no `c`,
      and the character before it, if any, is a `c`. */
  lemma {:induction false} AfterLastSuffix(s: string, c: char)
    ensures var r := AfterLast(s, c);
      |r| <= |s| && r == s[|s| - |r|..] && c !in r && (|r| < |s| ==> s[|s| - |r| - 1] == c)
    decreases |s|
  {
    if s != [] && s[|s| - 1] != c {
      var t := s[..|s| - 1];
      AfterLastSuffix(t, c);
      var r := AfterLast(t, c);
      assert t[|t| - |r|..] + [s[|s| - 1]] == s[|s| - |r| - 1..];
    }
  }

  /** Position `i` holds the first occurrence of `x` in `xs`. */
  predicate IsFirst<T(==)>(xs: seq<T>, i: int, x: T) {
    0 <= i < |xs| && xs[i] == x && x !in xs[..i]
  }

  /** There is only one first occurrence. */
  lemma IsFirstUnique<T>(xs: seq<T>, i: int, j: int, x: T)
    requires IsFirst(xs, i, x) && IsFirst(xs, j, x)
    ensures i == j
  {
  }

  /** Python's `xs.index(x)`; `None` where Python raises `ValueError`. */
  function IndexOf<T(==)>(xs: seq<T>, x: T): (r: Option<nat>)
    ensures r.None? <==> x !in xs
    ensures r.Some? ==> IsFirst(xs, r.value, x)
  {
    if xs == [] then None
    else if xs[0] == x then Some(0)
    else
      match IndexOf(xs[1..], x)
      case None => None
      case Some(i) =>
        assert xs[1..][..i] == xs[1..i + 1];
        Some(i + 1)
  }
}
