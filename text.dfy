module Wrappers {

  datatype Option<+T> = None | Some(value: T)
}

/**
 * The handful of Python `str` operations the backend relies on: `isspace`
 * (which is also what the regular-expression class `\s` and the
 * separator-less `split()` and `strip()` treat as whitespace), `strip`,
 * `strip(chars)`, `split()`, `' '.join`, `lower` and substring search.
 */
module Text {

  /** Python's `str.isspace()` for a single code point. */
  predicate IsSpace(c: char) {
    var n := c as int;
    (0x09 <= n <= 0x0D) || (0x1C <= n <= 0x20) || n == 0x85 || n == 0xA0 || n == 0x1680
    || (0x2000 <= n <= 0x200A) || n == 0x2028 || n == 0x2029 || n == 0x202F || n == 0x205F
    || n == 0x3000
  }

  predicate AllSpace(s: string) {
    forall i :: 0 <= i < |s| ==> IsSpace(s[i])
  }

  /** Python's `str.strip()`: whitespace is dropped from both ends. */
  function Strip(s: string): (r: string)
    ensures |r| <= |s|
    ensures r == [] || (!IsSpace(r[0]) && !IsSpace(r[|r| - 1]))
    decreases |s|
  {
    if s != [] && IsSpace(s[0]) then Strip(s[1..])
    else if s != [] && IsSpace(s[|s| - 1]) then Strip(s[..|s| - 1])
    else s
  }

  /** How many characters `strip()` removes from the front of `s`. */
  function StripFront(s: string): (a: nat)
    ensures a <= |s|
  {
    if s != [] && IsSpace(s[0]) then 1 + StripFront(s[1..]) else 0
  }

  /** What `strip()` keeps is a slice of its input; what it removes is
      whitespace, and only from the two ends. */
  predicate StripsSpaceOnly(s: string) {
    var f, r := StripFront(s), Strip(s);
    && f + |r| <= |s|
    && (forall i :: 0 <= i < |r| ==> r[i] == s[f + i])
    && (forall i :: 0 <= i < f ==> IsSpace(s[i]))
    && (forall i :: f + |r| <= i < |s| ==> IsSpace(s[i]))
  }

  lemma {:induction false} StripSlice(s: string)
    ensures StripsSpaceOnly(s)
    decreases |s|
  {
    if s != [] && IsSpace(s[0]) {
      StripSlice(s[1..]);
      StripSliceFront(s);
    } else if s != [] && IsSpace(s[|s| - 1]) {
      StripSlice(s[..|s| - 1]);
      StripSliceBack(s);
    }
  }

  /** Dropping a leading whitespace character. */
  lemma StripSliceFront(s: string)
    requires s != [] && IsSpace(s[0]) && StripsSpaceOnly(s[1..])
    ensures StripsSpaceOnly(s)
  {
    var t := s[1..];
    assert Strip(s) == Strip(t) && StripFront(s) == 1 + StripFront(t);
    assert forall i :: 0 < i < |s| ==> s[i] == t[i - 1];
  }

  /** Dropping a trailing whitespace character after a non-space first one. */
  lemma StripSliceBack(s: string)
    requires s != [] && !IsSpace(s[0]) && IsSpace(s[|s| - 1]) && StripsSpaceOnly(s[..|s| - 1])
    ensures StripsSpaceOnly(s)
  {
    var t := s[..|s| - 1];
    assert |s| >= 2 && t[0] == s[0];
    assert StripFront(t) == 0 && StripFront(s) == 0;
    var r := Strip(t);
    assert Strip(s) == r;
    forall i | |r| <= i < |s|
      ensures IsSpace(s[i])
    {
      if i < |t| {
        assert s[i] == t[i];
      }
    }
    forall i | 0 <= i < |r|
      ensures r[i] == s[i]
    {
      assert s[i] == t[i];
    }
  }

  /** `strip()` leaves nothing exactly when there is nothing but whitespace. */
  lemma StripEmpty(s: string)
    ensures Strip(s) == [] <==> AllSpace(s)
  {
    StripSlice(s);
  }

  /** Python's `str.strip(chars)`: characters of `chars` are dropped from
      both ends. */
  function StripChars(s: string, chars: set<char>): (r: string)
    ensures |r| <= |s|
    ensures r == [] || (r[0] !in chars && r[|r| - 1] !in chars)
    decreases |s|
  {
    if s != [] && s[0] in chars then StripChars(s[1..], chars)
    else if s != [] && s[|s| - 1] in chars then StripChars(s[..|s| - 1], chars)
    else s
  }

  /** A piece of text with no leading, trailing or doubled whitespace,
      whose only whitespace characters are single spaces. */
  predicate Normalized(s: string) {
    && (s == [] || (!IsSpace(s[0]) && !IsSpace(s[|s| - 1])))
    && forall i :: 0 <= i < |s| && IsSpace(s[i]) ==> s[i] == ' ' && i + 1 < |s| && !IsSpace(s[i + 1])
  }

  /** A non-empty run of non-whitespace characters: what `split()` produces. */
  predicate IsWord(w: string) {
    w != [] && forall i :: 0 <= i < |w| ==> !IsSpace(w[i])
  }

  /** Length of the leading run of non-whitespace characters. */
  function WordLen(s: string): (n: nat)
    ensures n <= |s|
    ensures forall i :: 0 <= i < n ==> !IsSpace(s[i])
    ensures n < |s| ==> IsSpace(s[n])
  {
    if s == [] || IsSpace(s[0]) then 0 else 1 + WordLen(s[1..])
  }

  /** Python's `str.split()`: the maximal runs of non-whitespace, in order. */
  function Words(s: string): (ws: seq<string>)
    ensures forall k :: 0 <= k < |ws| ==> IsWord(ws[k])
    decreases |s|
  {
    if s == [] then []
    else if IsSpace(s[0]) then Words(s[1..])
    else
      var n := WordLen(s);
      [s[..n]] + Words(s[n..])
  }

  /** Length of the leading run of whitespace characters. */
  function SpaceLen(s: string): (n: nat)
    ensures n <= |s|
    ensures forall i :: 0 <= i < n ==> IsSpace(s[i])
    ensures n < |s| ==> !IsSpace(s[n])
  {
    if s == [] || !IsSpace(s[0]) then 0 else 1 + SpaceLen(s[1..])
  }

  /** Python's `' '.join(ws)`. */
  function Join(ws: seq<string>): string {
    if ws == [] then "" else if |ws| == 1 then ws[0] else ws[0] + " " + Join(ws[1..])
  }

  /** Python's `str.lower()`, on the ASCII letters. */
  function LowerChar(c: char): (d: char)
    ensures IsSpace(d) <==> IsSpace(c)
    ensures ('A' <= c <= 'Z') || d == c
  {
    if 'A' <= c <= 'Z' then (c as int + 32) as char else c
  }

  function Lower(s: string): (r: string)
    ensures |r| == |s|
    ensures forall i :: 0 <= i < |s| ==> r[i] == LowerChar(s[i])
  {
    if s == [] then [] else [LowerChar(s[0])] + Lower(s[1..])
  }

  /** Python's `sub in s`. */
  predicate Contains(s: string, sub: string) {
    exists i | 0 <= i <= |s| - |sub| :: OccursAt(s, sub, i)
  }

  predicate OccursAt(s: string, sub: string, i: nat) {
    i + |sub| <= |s| && s[i..i + |sub|] == sub
  }

  /** Python's `s.startswith(prefix)`. */
  predicate StartsWith(s: string, prefix: string) {
    |prefix| <= |s| && s[..|prefix|] == prefix
  }

  // ---------------------------------------------------------------------
  // Properties of split and join
  // ---------------------------------------------------------------------

  lemma {:induction false} WordLenOfWordThenSpace(w: string, rest: string)
    requires IsWord(w)
    ensures WordLen(w + " " + rest) == |w|
    decreases |w|
  {
    var s := w + " " + rest;
    if |w| > 1 {
      assert s[1..] == w[1..] + " " + rest;
      WordLenOfWordThenSpace(w[1..], rest);
    } else {
      assert s[1..] == " " + rest;
    }
  }

  lemma {:induction false} WordLenOfWord(w: string)
    requires IsWord(w)
    ensures WordLen(w) == |w|
    decreases |w|
  {
    if |w| > 1 {
      WordLenOfWord(w[1..]);
    }
  }

  /** `split()` undoes `' '.join` on a list of words. */
  lemma {:induction false} SplitJoin(ws: seq<string>)
    requires forall k :: 0 <= k < |ws| ==> IsWord(ws[k])
    ensures Words(Join(ws)) == ws
  {
    if |ws| == 1 {
      var w := ws[0];
      WordLenOfWord(w);
      assert w[..|w|] == w && w[|w|..] == [];
      assert Words(w) == [w[..|w|]] + Words(w[|w|..]);
    } else if |ws| > 1 {
      var w := ws[0];
      var s := w + " " + Join(ws[1..]);
      WordLenOfWordThenSpace(w, Join(ws[1..]));
      assert s[..|w|] == w;
      assert s[|w|..] == " " + Join(ws[1..]);
      assert s[|w|..][1..] == Join(ws[1..]);
      SplitJoin(ws[1..]);
    }
  }

  /** `' '.join` of words is normalised text, empty exactly when there are no words. */
  lemma {:induction false} JoinNormalized(ws: seq<string>)
    requires forall k :: 0 <= k < |ws| ==> IsWord(ws[k])
    ensures Normalized(Join(ws))
    ensures Join(ws) == [] <==> ws == []
  {
    if |ws| > 1 {
      JoinNormalized(ws[1..]);
      var w, t := ws[0], Join(ws[1..]);
      var s := w + " " + t;
      assert forall i :: 0 <= i < |w| ==> s[i] == w[i];
      assert forall i :: |w| < i < |s| ==> s[i] == t[i - |w| - 1];
      forall i | 0 <= i < |s| && IsSpace(s[i])
        ensures s[i] == ' ' && i + 1 < |s| && !IsSpace(s[i + 1])
      {
        if i == |w| {
          assert s[i + 1] == t[0];
        }
      }
      assert s[|s| - 1] == t[|t| - 1];
    }
  }

  /** `strip()` leaves normalised text alone. */
  lemma StripNormalized(s: string)
    requires Normalized(s)
    ensures Strip(s) == s
  {
  }

  /** Lower-casing commutes with concatenation. */
  lemma LowerAppend(a: string, b: string)
    ensures Lower(a + b) == Lower(a) + Lower(b)
  {
  }

  /** Lower-casing is idempotent. */
  lemma LowerLower(s: string)
    ensures Lower(Lower(s)) == Lower(s)
  {
  }

  /** `split()` sees a single space as a word boundary. */
  lemma {:induction false} WordsAroundSpace(a: string, b: string)
    ensures Words(a + " " + b) == Words(a) + Words(b)
    decreases |a|
  {
    var s := a + " " + b;
    if a == [] {
      assert s[1..] == b;
    } else if IsSpace(a[0]) {
      assert s[1..] == a[1..] + " " + b;
      WordsAroundSpace(a[1..], b);
    } else {
      var n := WordLen(a);
      WordLenPrefix(a, " " + b);
      assert s == a + (" " + b);
      assert s[..n] == a[..n];
      assert s[n..] == a[n..] + " " + b;
      WordsAroundSpace(a[n..], b);
    }
  }

  /** The first word of `a` is the first word of `a + t` when `t` starts with whitespace. */
  lemma {:induction false} WordLenPrefix(a: string, t: string)
    requires t != [] && IsSpace(t[0])
    ensures WordLen(a + t) == WordLen(a)
    decreases |a|
  {
    if a != [] && !IsSpace(a[0]) {
      assert (a + t)[1..] == a[1..] + t;
      WordLenPrefix(a[1..], t);
    }
  }
}
