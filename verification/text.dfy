/**
 The two pieces of Python `str` behaviour the chat window relies on:
 `strip()` with no arguments and `startswith(prefix)`. Strings are
 sequences of Unicode code points, as in Python 3.
 */
module PyStr {

  /** Python's `str.isspace()` for a single code point: the ASCII
      whitespace and separator controls (9-13, 28-31), the space, NEL,
      NO-BREAK SPACE and the Unicode space separators. */
  predicate IsSpace(c: char) {
    var n := c as int;
    || (9 <= n <= 13)
    || (28 <= n <= 32)
    || n == 0x85
    || n == 0xA0
    || n == 0x1680
    || (0x2000 <= n <= 0x200A)
    || n == 0x2028
    || n == 0x2029
    || n == 0x202F
    || n == 0x205F
    || n == 0x3000
  }

  /** Every character of `s` is whitespace (true of the empty string). */
  predicate AllSpace(s: string) {
    forall i :: 0 <= i < |s| ==> IsSpace(s[i])
  }

  /** Neither end of `s` is whitespace: what `strip()` leaves behind. */
  predicate Trimmed(s: string) {
    s == [] || (!IsSpace(s[0]) && !IsSpace(s[|s| - 1]))
  }

  /** `r` is the piece of `s` starting at index `i`, and every character of
      `s` outside that piece is whitespace. */
  predicate CutAt(s: string, i: int, r: string) {
    && 0 <= i <= |s| - |r|
    && r == s[i..i + |r|]
    && forall m :: 0 <= m < |s| && (m < i || i + |r| <= m) ==> IsSpace(s[m])
  }

  /** The first index at or after `k` that is not whitespace, or `|s|`. */
  function SkipSpace(s: string, k: nat): (r: nat)
    requires k <= |s|
    ensures k <= r <= |s|
    ensures forall m :: k <= m < r ==> IsSpace(s[m])
    ensures r < |s| ==> !IsSpace(s[r])
    decreases |s| - k
  {
    if k < |s| && IsSpace(s[k]) then SkipSpace(s, k + 1) else k
  }

  /** The end of the last non-whitespace character before `k`, or 0. */
  function SkipSpaceBack(s: string, k: nat): (r: nat)
    requires k <= |s|
    ensures r <= k
    ensures forall m :: r <= m < k ==> IsSpace(s[m])
    ensures r > 0 ==> !IsSpace(s[r - 1])
  {
    if k > 0 && IsSpace(s[k - 1]) then SkipSpaceBack(s, k - 1) else k
  }

  /** `s.strip()`: `s` with whitespace removed from both ends. The result is
      a contiguous piece of `s`, everything cut off is whitespace, and the
      result is empty exactly when `s` is all whitespace. */
  function Strip(s: string): (r: string)
    ensures Trimmed(r)
    ensures exists i :: CutAt(s, i, r)
    ensures r == [] <==> AllSpace(s)
  {
    var i := SkipSpace(s, 0);
    var j := SkipSpaceBack(s, |s|);
    if i < j then
      assert CutAt(s, i, s[i..j]);
      s[i..j]
    else
      assert i == |s|;
      assert CutAt(s, 0, []);
      []
  }

  /** `s.startswith(p)`. */
  predicate StartsWith(s: string, p: string) {
    |p| <= |s| && s[..|p|] == p
  }

  /** `strip()` is the unique trimmed piece of `s` with only whitespace
      around it: any such piece is what `Strip` returns. */
  lemma StripUnique(s: string, i: nat, r: string)
    requires CutAt(s, i, r) && Trimmed(r)
    ensures Strip(s) == r
  {
    var a := SkipSpace(s, 0);
    var b := SkipSpaceBack(s, |s|);
    if r == [] {
      assert AllSpace(s);
    } else {
      assert s[i] == r[0] && s[i + |r| - 1] == r[|r| - 1];
      assert a == i;
      assert b == i + |r|;
    }
  }

  /** Whitespace in front of a string does not change what `strip()` returns. */
  lemma StripPadding(p: string, s: string)
    requires AllSpace(p)
    ensures Strip(p + s) == Strip(s)
  {
    var r := Strip(s);
    var i :| CutAt(s, i, r);
    var ps := p + s;
    assert ps[|p|..] == s;
    assert forall m :: 0 <= m < |ps| && m >= |p| ==> ps[m] == s[m - |p|];
    assert ps[|p| + i..|p| + i + |r|] == ps[|p|..][i..i + |r|];
    assert CutAt(ps, |p| + i, r);
    StripUnique(ps, |p| + i, r);
  }

  /** `strip()` is idempotent. */
  lemma StripIdempotent(s: string)
    ensures Strip(Strip(s)) == Strip(s)
  {
    var r := Strip(s);
    assert r[0..|r|] == r;
    StripUnique(r, 0, r);
  }

  /** A string with no whitespace at either end is unchanged by `strip()`. */
  lemma StripKeepsTrimmed(s: string)
    requires Trimmed(s)
    ensures Strip(s) == s
  {
    assert s[0..|s|] == s;
    StripUnique(s, 0, s);
  }
}
