/** Python text primitives used by the service: the `str.isspace` character
    class and `str.strip()` with no argument. Trimming is defined for any
    character class `ws` and instantiated with `IsSpace`. */
module PyText {

  /** The code points CPython classifies as whitespace (`str.isspace`); these are
      exactly the characters `str.strip()` removes when called without an argument. */
  predicate IsSpace(c: char) {
    || ('\t' <= c <= '\r')
    || ('\U{1C}' <= c <= ' ')
    || c == '\U{85}' || c == '\U{A0}' || c == '\U{1680}'
    || ('\U{2000}' <= c <= '\U{200A}')
    || c == '\U{2028}' || c == '\U{2029}' || c == '\U{202F}'
    || c == '\U{205F}' || c == '\U{3000}'
  }

  /** Every character of `s` at a position in `[lo, hi)` belongs to the class `ws`. */
  predicate AllInRange(s: string, ws: char -> bool, lo: int, hi: int) {
    forall k :: lo <= k < hi && 0 <= k < |s| ==> ws(s[k])
  }

  /** Every character of `s` belongs to the class `ws` (vacuously true of the
      empty string). */
  predicate AllIn(s: string, ws: char -> bool) {
    AllInRange(s, ws, 0, |s|)
  }

  /** `s` neither starts nor ends with a character of the class `ws`. */
  predicate Unpadded(s: string, ws: char -> bool) {
    s == [] || (!ws(s[0]) && !ws(s[|s| - 1]))
  }

  /** The left scan of `strip`: the first position at or after `from` whose
      character is outside the class, or `|s|` when there is none. */
  function SkipForward(s: string, ws: char -> bool, from: nat): (i: nat)
    requires from <= |s|
    ensures from <= i <= |s|
    ensures AllInRange(s, ws, from, i)
    ensures i == |s| || !ws(s[i])
    decreases |s| - from
  {
    if from == |s| || !ws(s[from]) then from else SkipForward(s, ws, from + 1)
  }

  /** The right scan of `strip`, which never moves below `lo`: the smallest `j`
      with every character in `[j, hi)` in the class, stopping after a character
      outside it or at `lo`. */
  function SkipBackward(s: string, ws: char -> bool, lo: nat, hi: nat): (j: nat)
    requires lo <= hi <= |s|
    ensures lo <= j <= hi
    ensures AllInRange(s, ws, j, hi)
    ensures j == lo || !ws(s[j - 1])
    decreases hi
  {
    if hi == lo || !ws(s[hi - 1]) then hi else SkipBackward(s, ws, lo, hi - 1)
  }

  /** Both ends trimmed, scanning from the left first and then from the right
      down to where the left scan stopped: the result is a slice of `s` with only
      class characters around it, it has no class character at either end, and
      it is empty exactly when every character of `s` is in the class. */
  function StripBy(s: string, ws: char -> bool): (r: string)
    ensures exists i, j :: (&& 0 <= i <= j <= |s| && r == s[i..j]
                           && AllInRange(s, ws, 0, i) && AllInRange(s, ws, j, |s|))
    ensures Unpadded(r, ws)
    ensures r == [] <==> AllIn(s, ws)
  {
    var i := SkipForward(s, ws, 0);
    var j := SkipBackward(s, ws, i, |s|);
    assert i < |s| ==> i < j;
    s[i..j]
  }

  /** Python's `s.strip()`. */
  function Strip(s: string): (r: string)
    ensures exists i, j :: (&& 0 <= i <= j <= |s| && r == s[i..j]
                           && AllInRange(s, IsSpace, 0, i) && AllInRange(s, IsSpace, j, |s|))
    ensures Unpadded(r, IsSpace)
    ensures r == [] <==> AllIn(s, IsSpace)
  {
    StripBy(s, IsSpace)
  }

  /** The left scan stops at the first character outside the class. */
  lemma {:induction false} SkipForwardStops(s: string, ws: char -> bool, from: nat, i: nat)
    requires from <= i <= |s|
    requires AllInRange(s, ws, from, i)
    requires i == |s| || !ws(s[i])
    ensures SkipForward(s, ws, from) == i
    decreases i - from
  {
    if from < i {
      assert ws(s[from]);
      SkipForwardStops(s, ws, from + 1, i);
    }
  }

  /** The right scan stops just after the last character outside the class. */
  lemma {:induction false} SkipBackwardStops(s: string, ws: char -> bool, lo: nat, hi: nat, j: nat)
    requires lo <= j <= hi <= |s|
    requires AllInRange(s, ws, j, hi)
    requires j == lo || !ws(s[j - 1])
    ensures SkipBackward(s, ws, lo, hi) == j
    decreases hi - j
  {
    if j < hi {
      assert ws(s[hi - 1]);
      SkipBackwardStops(s, ws, lo, hi - 1, j);
    }
  }

  /** Characterisation of trimming: whenever `s` splits into a prefix of class
      characters, an unpadded middle and a suffix of class characters,
      `StripBy` returns that middle. */
  lemma StripBySpec(s: string, ws: char -> bool, i: nat, j: nat)
    requires i <= j <= |s|
    requires AllInRange(s, ws, 0, i) && AllInRange(s, ws, j, |s|)
    requires Unpadded(s[i..j], ws)
    ensures StripBy(s, ws) == s[i..j]
  {
    if i == j {
      SkipForwardStops(s, ws, 0, |s|);
    } else {
      assert s[i..j][0] == s[i] && s[i..j][j - i - 1] == s[j - 1];
      SkipForwardStops(s, ws, 0, i);
      SkipBackwardStops(s, ws, i, |s|, j);
    }
  }

  /** `Strip` returns the middle of any split of `s` into leading whitespace,
      unpadded text and trailing whitespace. Together with `Strip`'s own
      contract this pins the result down uniquely. */
  lemma StripSpec(s: string, i: nat, j: nat)
    requires i <= j <= |s|
    requires AllInRange(s, IsSpace, 0, i) && AllInRange(s, IsSpace, j, |s|)
    requires Unpadded(s[i..j], IsSpace)
    ensures Strip(s) == s[i..j]
  {
    StripBySpec(s, IsSpace, i, j);
  }

  /** Text already free of surrounding whitespace comes back unchanged. */
  lemma StripUnpadded(s: string)
    requires Unpadded(s, IsSpace)
    ensures Strip(s) == s
  {
    assert s[0..|s|] == s;
    StripBySpec(s, IsSpace, 0, |s|);
  }

  /** Stripping twice is the same as stripping once. */
  lemma StripIdempotent(s: string)
    ensures Strip(Strip(s)) == Strip(s)
  {
    StripUnpadded(Strip(s));
  }

  /** Whitespace padding around unpadded text is removed, and nothing else is. */
  lemma StripPadding(pre: string, t: string, post: string)
    requires AllIn(pre, IsSpace) && AllIn(post, IsSpace) && Unpadded(t, IsSpace)
    ensures Strip(pre + t + post) == t
  {
    var s := pre + t + post;
    var i, j := |pre|, |pre| + |t|;
    assert AllInRange(s, IsSpace, 0, i) by {
      forall k | 0 <= k < i ensures IsSpace(s[k]) { assert s[k] == pre[k]; }
    }
    assert AllInRange(s, IsSpace, j, |s|) by {
      forall k | j <= k < |s| ensures IsSpace(s[k]) { assert s[k] == post[k - j]; }
    }
    assert s[i..j] == t;
    StripBySpec(s, IsSpace, i, j);
  }
}
