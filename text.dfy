/**
 * The handful of Python `str` operations the scripts rely on, restricted to
 * ASCII: `lower`, `capitalize`, `strip`, `startswith`, `in`, `split(".")[0]`,
 * `replace` and `str()` of an integer.
 */
module Text {

  /** The characters Python's `str.strip()` removes (ASCII range): tab to carriage return, the four separators 28-31, and space. */
  predicate IsSpace(c: char) {
    c == ' ' || c == '\t' || c == '\n' || c == '\r' || c as int == 11 || c as int == 12 || 28 <= c as int <= 31
  }

  function LowerChar(c: char): char {
    if 'A' <= c <= 'Z' then (c as int + 32) as char else c
  }

  function UpperChar(c: char): char {
    if 'a' <= c <= 'z' then (c as int - 32) as char else c
  }

  /** `s.lower()` */
  function Lower(s: string): (r: string)
    ensures |r| == |s|
    ensures forall i :: 0 <= i < |s| ==> r[i] == LowerChar(s[i])
  {
    seq(|s|, i requires 0 <= i < |s| => LowerChar(s[i]))
  }

  /** `s.capitalize()`: first character upper-cased, the rest lower-cased. */
  function Capitalize(s: string): (r: string)
    ensures |r| == |s|
    ensures |s| > 0 ==> r[0] == UpperChar(s[0]) && r[1..] == Lower(s[1..])
  {
    if s == [] then [] else [UpperChar(s[0])] + Lower(s[1..])
  }

  /** Where `lstrip` stops, looking from `i` on: the first character kept, or the end. */
  function FirstKept(s: string, i: nat): (k: nat)
    requires i <= |s|
    ensures i <= k <= |s| && (k == |s| || !IsSpace(s[k]))
    ensures forall j :: i <= j < k ==> IsSpace(s[j])
    decreases |s| - i
  {
    if i == |s| || !IsSpace(s[i]) then i else FirstKept(s, i + 1)
  }

  /** Where `rstrip` stops, looking down from `j` to `lo`: one past the last character kept, or `lo`. */
  function LastKept(s: string, lo: nat, j: nat): (k: nat)
    requires lo <= j <= |s|
    ensures lo <= k <= j && (k == lo || !IsSpace(s[k - 1]))
    ensures forall m :: k <= m < j ==> IsSpace(s[m])
    decreases j - lo
  {
    if j == lo || !IsSpace(s[j - 1]) then j else LastKept(s, lo, j - 1)
  }

  /** `s.strip()`: the slice between the leading and the trailing run of spaces. */
  function Strip(s: string): (r: string)
    ensures r == [] || (!IsSpace(r[0]) && !IsSpace(r[|r| - 1]))
  {
    var lo := FirstKept(s, 0);
    var hi := LastKept(s, lo, |s|);
    assert forall m :: lo <= m < hi ==> s[lo..hi][m - lo] == s[m];
    s[lo..hi]
  }

  /** `strip` removes spaces only: its result is a slice of `s` with nothing but spaces on either side. */
  lemma StripSlice(s: string)
    ensures exists i, j :: 0 <= i <= j <= |s| && Strip(s) == s[i..j] &&
                           (forall m :: 0 <= m < i ==> IsSpace(s[m])) && (forall m :: j <= m < |s| ==> IsSpace(s[m]))
  {
    var lo := FirstKept(s, 0);
    var hi := LastKept(s, lo, |s|);
    assert Strip(s) == s[lo..hi];
  }

  /** The folding both site matchers use: `s.strip().lower()`. */
  function Fold(s: string): string {
    Lower(Strip(s))
  }

  /** `s.startswith(p)` */
  predicate StartsWith(s: string, p: string) {
    |p| <= |s| && s[..|p|] == p
  }

  /** `sub` occurs in `s` starting at index `i`. */
  predicate OccursAt(s: string, sub: string, i: int) {
    0 <= i && i + |sub| <= |s| && s[i..i + |sub|] == sub
  }

  /** `sub in s` for strings. */
  predicate Contains(s: string, sub: string) {
    exists i | 0 <= i <= |s| - |sub| :: OccursAt(s, sub, i)
  }

  lemma ContainsTail(s: string, sub: string)
    requires |s| > 0
    ensures Contains(s[1..], sub) ==> Contains(s, sub)
  {
    if Contains(s[1..], sub) {
      var i :| 0 <= i <= |s[1..]| - |sub| && OccursAt(s[1..], sub, i);
      assert s[i + 1..i + 1 + |sub|] == s[1..][i..i + |sub|];
      assert OccursAt(s, sub, i + 1);
    }
  }

  lemma ContainsSelf(s: string)
    ensures Contains(s, s)
  {
    assert OccursAt(s, s, 0);
  }

  /** A text holding `big` holds every `small` that occurs in `big`. */
  lemma ContainsWithin(s: string, big: string, small: string, k: nat)
    requires OccursAt(big, small, k)
    ensures Contains(s, big) ==> Contains(s, small)
  {
    if Contains(s, big) {
      var i :| 0 <= i <= |s| - |big| && OccursAt(s, big, i);
      assert s[i..i + |big|] == big;
      forall j | 0 <= j < |small|
        ensures s[i + k..i + k + |small|][j] == small[j]
      {
        assert s[i + k + j] == s[i..i + |big|][k + j] == big[k..k + |small|][j];
      }
      assert OccursAt(s, small, i + k);
    }
  }

  /** `s.split(sep)[0]`: everything before the first `sep`. */
  function Before(s: string, sep: char): (r: string)
    ensures StartsWith(s, r)
    ensures sep !in r
    ensures sep in s ==> |r| < |s| && s[|r|] == sep
    ensures sep !in s ==> r == s
  {
    if s == [] then []
    else if s[0] == sep then []
    else [s[0]] + Before(s[1..], sep)
  }

  /** `s.replace(pat, rep)`: every non-overlapping occurrence, scanning left to right. */
  function ReplaceAll(s: string, pat: string, rep: string): (r: string)
    requires |pat| > 0
    ensures !Contains(s, pat) ==> r == s
    decreases |s|
  {
    if |s| < |pat| then s
    else if s[..|pat|] == pat then
      assert OccursAt(s, pat, 0);
      rep + ReplaceAll(s[|pat|..], pat, rep)
    else
      ContainsTail(s, pat);
      [s[0]] + ReplaceAll(s[1..], pat, rep)
  }

  function DigitChar(d: nat): char
    requires d < 10
  {
    "0123456789"[d]
  }

  /** `str(n)` for a natural number. */
  function NatToString(n: nat): (r: string)
    ensures |r| > 0
    ensures forall i :: 0 <= i < |r| ==> '0' <= r[i] <= '9'
    decreases n
  {
    if n < 10 then [DigitChar(n)] else NatToString(n / 10) + [DigitChar(n % 10)]
  }

  /** `str(i)` for any integer. */
  function IntToString(i: int): (r: string)
    ensures |r| > 0
  {
    if i < 0 then "-" + NatToString(-i) else NatToString(i)
  }

  /** `sep.join(parts)` */
  function Join(parts: seq<string>, sep: string): string {
    if parts == [] then ""
    else if |parts| == 1 then parts[0]
    else parts[0] + sep + Join(parts[1..], sep)
  }
}
