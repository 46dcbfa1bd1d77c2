/** The string operations the chat turn relies on: Go's `strings.TrimSpace`,
    `strings.ToLower` (on ASCII letters) and `strings.Contains`. */
module Text {

  /** Go's `unicode.IsSpace`: the Latin-1 spaces plus the other code points
      with the Unicode White_Space property. */
  predicate IsSpace(c: char) {
    var n := c as int;
    || n == 0x09 || n == 0x0A || n == 0x0B || n == 0x0C || n == 0x0D || n == 0x20
    || n == 0x85 || n == 0xA0 || n == 0x1680 || 0x2000 <= n <= 0x200A
    || n == 0x2028 || n == 0x2029 || n == 0x202F || n == 0x205F || n == 0x3000
  }

  /** Every character of `s[lo..hi]` is white space. */
  predicate AllSpaceIn(s: string, lo: int, hi: int)
    requires 0 <= lo <= hi <= |s|
  {
    forall i :: lo <= i < hi ==> IsSpace(s[i])
  }

  predicate IsPrefix(p: string, s: string) {
    |p| <= |s| && s[..|p|] == p
  }

  predicate IsSuffix(p: string, s: string) {
    |p| <= |s| && s[|s| - |p|..] == p
  }

  /** `pat` occurs in `s` starting at index `k`. */
  predicate OccursAt(s: string, pat: string, k: int) {
    0 <= k && k + |pat| <= |s| && s[k..k + |pat|] == pat
  }

  /** A text placed between a head and a tail occurs right after the head. */
  lemma OccursBetween(head: string, x: string, tail: string)
    ensures OccursAt(head + x + tail, x, |head|)
  {
  }

  /** An occurrence inside an occurrence is an occurrence. */
  lemma OccursWithin(s: string, outer: string, k: int, pat: string, j: int)
    requires OccursAt(s, outer, k) && OccursAt(outer, pat, j)
    ensures OccursAt(s, pat, k + j)
  {
    forall i | 0 <= i < |pat|
      ensures s[k + j + i] == pat[i]
    {
      assert s[k..k + |outer|][j + i] == outer[j + i];
      assert outer[j..j + |pat|][i] == pat[i];
    }
  }

  /** Go's `strings.Contains`. */
  predicate Contains(s: string, pat: string) {
    exists k :: 0 <= k <= |s| - |pat| && OccursAt(s, pat, k)
  }

  /** Index of the first character at or after `i` that is not white space. */
  function SkipLeading(s: string, i: nat): (k: nat)
    requires i <= |s|
    ensures i <= k <= |s|
    ensures AllSpaceIn(s, i, k)
    ensures k == |s| || !IsSpace(s[k])
    decreases |s| - i
  {
    if i < |s| && IsSpace(s[i]) then SkipLeading(s, i + 1) else i
  }

  /** One past the last character before `j`, and not before `lo`, that is not
      white space. */
  function SkipTrailing(s: string, lo: nat, j: nat): (k: nat)
    requires lo <= j <= |s|
    ensures lo <= k <= j
    ensures AllSpaceIn(s, k, j)
    ensures k == lo || !IsSpace(s[k - 1])
  {
    if j > lo && IsSpace(s[j - 1]) then SkipTrailing(s, lo, j - 1) else j
  }

  /** Go's `strings.TrimSpace`: the infix of `s` left after removing white
      space from both ends; it neither starts nor ends with white space, and
      it is empty exactly when `s` is all white space. */
  function TrimSpace(s: string): (r: string)
    ensures exists k :: OccursAt(s, r, k) && AllSpaceIn(s, 0, k) && AllSpaceIn(s, k + |r|, |s|)
    ensures r == [] || (!IsSpace(r[0]) && !IsSpace(r[|r| - 1]))
    ensures r == [] <==> AllSpaceIn(s, 0, |s|)
  {
    var i := SkipLeading(s, 0);
    var j := SkipTrailing(s, i, |s|);
    assert OccursAt(s, s[i..j], i);
    s[i..j]
  }

  /** Trimming an already trimmed string changes nothing. */
  lemma TrimSpaceIdempotent(s: string)
    ensures TrimSpace(TrimSpace(s)) == TrimSpace(s)
  {
  }

  /** ASCII lower-casing of one character. */
  function LowerChar(c: char): char {
    if 'A' <= c <= 'Z' then (c as int + 32) as char else c
  }

  /** `strings.ToLower`, restricted to ASCII letters: every character is
      lower-cased in place and the length is kept. */
  function ToLower(s: string): (r: string)
    ensures |r| == |s|
    ensures forall i :: 0 <= i < |s| ==> r[i] == LowerChar(s[i])
  {
    if s == [] then [] else [LowerChar(s[0])] + ToLower(s[1..])
  }

  /** Lower-casing commutes with taking a slice. */
  lemma ToLowerSlice(s: string, i: int, j: int)
    requires 0 <= i <= j <= |s|
    ensures ToLower(s[i..j]) == ToLower(s)[i..j]
  {
  }
}
