/**
 * JavaScript's `String.prototype.trim`, which the components use to reject
 * blank habit names and blank edited task texts.
 */
module Text {

  /**
   * The characters `trim` removes: ECMAScript WhiteSpace (tab, vertical tab,
   * form feed, space, no-break space, byte order mark and every other space
   * separator) and LineTerminator (line feed, carriage return, line and
   * paragraph separators).
   */
  predicate IsWhitespace(c: char) {
    c == '\t' || c == '\n' || c == '\U{000B}' || c == '\U{000C}' || c == '\r' || c == ' '
    || c == '\U{00A0}' || c == '\U{1680}' || ('\U{2000}' <= c <= '\U{200A}')
    || c == '\U{2028}' || c == '\U{2029}' || c == '\U{202F}' || c == '\U{205F}'
    || c == '\U{3000}' || c == '\U{FEFF}'
  }

  /** The characters of `s` from `lo` up to but excluding `hi` are all whitespace. */
  predicate BlankRange(s: string, lo: int, hi: int) {
    forall k :: lo <= k < hi && 0 <= k < |s| ==> IsWhitespace(s[k])
  }

  /** A string `trim` turns into the empty string. */
  predicate IsBlank(s: string) {
    BlankRange(s, 0, |s|)
  }

  /** Scans forward from `i` past whitespace: the index of the first non-whitespace character at or after `i`, or `|s|`. */
  function SkipForward(s: string, i: nat): (n: nat)
    requires i <= |s|
    ensures i <= n <= |s| && BlankRange(s, i, n)
    ensures n < |s| ==> !IsWhitespace(s[n])
    decreases |s| - i
  {
    if i < |s| && IsWhitespace(s[i]) then SkipForward(s, i + 1) else i
  }

  /** Scans backward from `hi` down to `lo` past whitespace: the end of the last non-whitespace character in `s[lo..hi]`, or `lo`. */
  function SkipBackward(s: string, lo: nat, hi: nat): (n: nat)
    requires lo <= hi <= |s|
    ensures lo <= n <= hi && BlankRange(s, n, hi)
    ensures n > lo ==> !IsWhitespace(s[n - 1])
    decreases hi
  {
    if hi > lo && IsWhitespace(s[hi - 1]) then SkipBackward(s, lo, hi - 1) else hi
  }

  /**
   * The length of the leading whitespace run: the characters before it are
   * whitespace and the character after it, if any, is not.
   */
  function LeadingWhitespace(s: string): (n: nat)
    ensures n <= |s| && BlankRange(s, 0, n)
    ensures n < |s| ==> !IsWhitespace(s[n])
  {
    SkipForward(s, 0)
  }

  /**
   * `s.trim()`: the part of `s` between its leading whitespace run and its
   * trailing whitespace run.
   */
  function Trim(s: string): (r: string)
    ensures r == [] <==> IsBlank(s)
    ensures r == [] || (!IsWhitespace(r[0]) && !IsWhitespace(r[|r| - 1]))
    ensures var a := LeadingWhitespace(s);
      a + |r| <= |s| && r == s[a..a + |r|] && BlankRange(s, a + |r|, |s|)
  {
    var a := LeadingWhitespace(s);
    s[a..SkipBackward(s, a, |s|)]
  }

  /** Trimming twice is trimming once. */
  lemma TrimIdempotent(s: string)
    ensures Trim(Trim(s)) == Trim(s)
  {
    var r := Trim(s);
    if r != [] {
      assert LeadingWhitespace(r) == 0;
      assert SkipBackward(r, 0, |r|) == |r|;
      assert r[0..|r|] == r;
    }
  }
}
