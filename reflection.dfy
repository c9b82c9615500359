/** The blank test on the user's reflection: the source rejects a reflection
    whose `String.prototype.trim()` is the empty string. */
module Reflection {

  /** The characters `trim` removes: ECMAScript WhiteSpace (tab, vertical tab,
      form feed, no-break space, byte order mark, every space separator) and
      LineTerminator (line feed, carriage return, line and paragraph separator). */
  predicate IsJsWhitespace(c: char)
  {
    var n := c as int;
    n == 0x09 || n == 0x0A || n == 0x0B || n == 0x0C || n == 0x0D
    || n == 0x20 || n == 0xA0 || n == 0x1680 || 0x2000 <= n <= 0x200A
    || n == 0x2028 || n == 0x2029 || n == 0x202F || n == 0x205F
    || n == 0x3000 || n == 0xFEFF
  }

  /** The first position at or after `i` that does not hold whitespace, or
      `|s|` when there is none: everything skipped is whitespace. */
  function ContentStart(s: string, i: nat): (k: nat)
    requires i <= |s|
    ensures i <= k <= |s|
    ensures forall j :: i <= j < k ==> IsJsWhitespace(s[j])
    ensures k == |s| || !IsJsWhitespace(s[k])
    decreases |s| - i
  {
    if i < |s| && IsJsWhitespace(s[i]) then ContentStart(s, i + 1) else i
  }

  /** The end of the content of `s[lo..hi]`: the smallest position `e` with
      `lo <= e <= hi` such that `s[e..hi]` is all whitespace. */
  function ContentEnd(s: string, lo: nat, hi: nat): (e: nat)
    requires lo <= hi <= |s|
    ensures lo <= e <= hi
    ensures forall j :: e <= j < hi ==> IsJsWhitespace(s[j])
    ensures e == lo || !IsJsWhitespace(s[e - 1])
    decreases hi
  {
    if lo < hi && IsJsWhitespace(s[hi - 1]) then ContentEnd(s, lo, hi - 1) else hi
  }

  /** `String.prototype.trim`: the result is a slice of `s` that neither
      starts nor ends with whitespace, and only whitespace lies outside it. */
  function Trim(s: string): (r: string)
    ensures |r| <= |s|
    ensures r == [] || (!IsJsWhitespace(r[0]) && !IsJsWhitespace(r[|r| - 1]))
    ensures exists a, e :: 0 <= a <= e <= |s| && r == s[a..e]
              && (forall j :: 0 <= j < a ==> IsJsWhitespace(s[j]))
              && (forall j :: e <= j < |s| ==> IsJsWhitespace(s[j]))
  {
    var a := ContentStart(s, 0);
    var e := ContentEnd(s, a, |s|);
    s[a..e]
  }

  /** The reflection holds nothing but whitespace: its content starts at its
      end. Exactly the reflections all of whose characters are whitespace are
      blank; in particular the empty reflection is. */
  predicate IsBlank(s: string)
    ensures IsBlank(s) <==> forall i :: 0 <= i < |s| ==> IsJsWhitespace(s[i])
  {
    ContentStart(s, 0) == |s|
  }

  /** `!experience.trim()` is exactly `IsBlank`: the trimmed reflection is the
      empty (falsy) string iff the reflection is blank. */
  lemma {:induction false} BlankIffTrimEmpty(s: string)
    ensures IsBlank(s) <==> Trim(s) == []
  {
  }
}
