/**
 * JavaScript's `String.prototype.trim`, which removes leading and trailing
 * white space and line terminators as ECMAScript defines them.
 */
module Text {

  /**
   * ECMAScript WhiteSpace (TAB, VT, FF, ZWNBSP and the space separators of
   * category Zs) and LineTerminator (LF, CR, LS, PS).
   */
  predicate IsWhiteSpace(c: char) {
    || '\t' <= c <= '\r'
    || c == ' ' || c == '\U{00A0}' || c == '\U{1680}'
    || '\U{2000}' <= c <= '\U{200A}'
    || c == '\U{2028}' || c == '\U{2029}' || c == '\U{202F}' || c == '\U{205F}'
    || c == '\U{3000}' || c == '\U{FEFF}'
  }

  /** Every character of s from index lo up to (not including) hi is white space. */
  predicate WhiteSpaceBetween(s: string, lo: int, hi: int) {
    forall k :: lo <= k < hi && 0 <= k < |s| ==> IsWhiteSpace(s[k])
  }

  predicate AllWhiteSpace(s: string) {
    WhiteSpaceBetween(s, 0, |s|)
  }

  /** The first index at or after i that does not hold white space, or |s|. */
  function SkipForward(s: string, i: nat): (j: nat)
    requires i <= |s|
    ensures i <= j <= |s|
    ensures WhiteSpaceBetween(s, i, j)
    ensures j < |s| ==> !IsWhiteSpace(s[j])
    decreases |s| - i
  {
    if i == |s| || !IsWhiteSpace(s[i]) then i else SkipForward(s, i + 1)
  }

  /** Going back from j towards lo, the end of s once the white space before j is cut. */
  function SkipBackward(s: string, lo: nat, j: nat): (k: nat)
    requires lo <= j <= |s|
    ensures lo <= k <= j
    ensures WhiteSpaceBetween(s, k, j)
    ensures k > lo ==> !IsWhiteSpace(s[k - 1])
    decreases j
  {
    if j == lo || !IsWhiteSpace(s[j - 1]) then j else SkipBackward(s, lo, j - 1)
  }

  /**
   * `s.trim()`: the part of `s` between its leading and its trailing white
   * space. It is empty exactly when `s` is all white space (JavaScript then
   * treats it as false), and otherwise starts and ends with a visible character.
   */
  function Trim(s: string): (r: string)
    ensures r == [] <==> AllWhiteSpace(s)
    ensures r != [] ==> !IsWhiteSpace(r[0]) && !IsWhiteSpace(r[|r| - 1])
  {
    var i := SkipForward(s, 0);
    var j := SkipBackward(s, i, |s|);
    assert i < |s| ==> i < j;
    s[i..j]
  }

  /** Trim removes white space at the two ends and nothing else: the result sits at `start` in s. */
  lemma TrimCutsOnlyWhiteSpace(s: string) returns (start: nat)
    ensures start + |Trim(s)| <= |s|
    ensures s[start..start + |Trim(s)|] == Trim(s)
    ensures WhiteSpaceBetween(s, 0, start) && WhiteSpaceBetween(s, start + |Trim(s)|, |s|)
  {
    start := SkipForward(s, 0);
    var j := SkipBackward(s, start, |s|);
    assert Trim(s) == s[start..j];
  }

  /** Trimming twice is trimming once. */
  lemma TrimIdempotent(s: string)
    ensures Trim(Trim(s)) == Trim(s)
  {
    var r := Trim(s);
    if r != [] {
      assert SkipForward(r, 0) == 0;
      assert SkipBackward(r, 0, |r|) == |r|;
      assert r[0..|r|] == r;
    }
  }
}
