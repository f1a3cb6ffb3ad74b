/**
 * JavaScript's `String.prototype.trim`, as the views use it: a draft or a
 * flag name counts as empty when nothing is left after trimming.
 */
module Text {

  /** The characters `trim` strips: the ECMAScript WhiteSpace and LineTerminator code points. */
  const Whitespace: set<char> := {
    '\t', '\n', '\U{000B}', '\U{000C}', '\r', ' ', '\U{00A0}', '\U{1680}',
    '\U{2000}', '\U{2001}', '\U{2002}', '\U{2003}', '\U{2004}', '\U{2005}',
    '\U{2006}', '\U{2007}', '\U{2008}', '\U{2009}', '\U{200A}',
    '\U{2028}', '\U{2029}', '\U{202F}', '\U{205F}', '\U{3000}', '\U{FEFF}'
  }

  predicate IsWhitespace(c: char) {
    c in Whitespace
  }

  /** Every character of `s` is whitespace (the empty string included). */
  predicate IsBlank(s: string) {
    forall i :: 0 <= i < |s| ==> IsWhitespace(s[i])
  }

  /** The first position at or after `lo` that holds no whitespace, or `|s|` when there is none. */
  function SkipBlanks(s: string, lo: nat): (k: nat)
    requires lo <= |s|
    ensures lo <= k <= |s|
    ensures forall i :: lo <= i < k ==> IsWhitespace(s[i])
    ensures k < |s| ==> !IsWhitespace(s[k])
    decreases |s| - lo
  {
    if lo < |s| && IsWhitespace(s[lo]) then SkipBlanks(s, lo + 1) else lo
  }

  /**
   * Scanning back from `hi`, but not past `lo`: the end of the last character
   * before `hi` that is no whitespace, or `lo` when there is none.
   */
  function SkipBlanksBack(s: string, lo: nat, hi: nat): (e: nat)
    requires lo <= hi <= |s|
    ensures lo <= e <= hi
    ensures forall i :: e <= i < hi ==> IsWhitespace(s[i])
    ensures lo < e ==> !IsWhitespace(s[e - 1])
  {
    if lo < hi && IsWhitespace(s[hi - 1]) then SkipBlanksBack(s, lo, hi - 1) else hi
  }

  /**
   * `s.trim()`: `s` with its leading and trailing whitespace removed, that is
   * the slice of `s` between a blank prefix and a blank suffix, with no
   * whitespace at either of its own ends.
   */
  function Trim(s: string): (r: string)
    ensures var k := SkipBlanks(s, 0);
      && k + |r| <= |s|
      && r == s[k..k + |r|]
      && IsBlank(s[..k])
      && IsBlank(s[k + |r|..])
    ensures r != "" ==> !IsWhitespace(r[0]) && !IsWhitespace(r[|r| - 1])
  {
    var k := SkipBlanks(s, 0);
    s[k..SkipBlanksBack(s, k, |s|)]
  }

  /** `s.trim() === ""` holds exactly for the blank strings. */
  lemma TrimEmptyIffBlank(s: string)
    ensures Trim(s) == "" <==> IsBlank(s)
  {
  }
}
