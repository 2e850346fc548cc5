/**
 * The blank-input test of the sentiment session, `!text.trim()`.
 *
 * `String.prototype.trim` (ECMAScript 2024, section 22.1.3.32) removes leading
 * and trailing code points that are WhiteSpace (section 12.2) or
 * LineTerminator (section 12.3). `char` is a Unicode scalar value here.
 */
module StringTrim {

  /** WhiteSpace: TAB, VT, FF, ZWNBSP and every code point of category Zs
      (SPACE, NBSP, OGHAM SPACE MARK, U+2000 to U+200A, NNBSP, MMSP,
      IDEOGRAPHIC SPACE); LineTerminator: LF, CR, LS, PS. TAB, LF, VT, FF
      and CR are the consecutive code points U+0009 to U+000D. All of them
      lie in the Basic Multilingual Plane. */
  predicate IsTrimmable(c: char)
    ensures IsTrimmable(c) ==> c <= '\U{FFFF}'
  {
    ('\t' <= c <= '\r') || c == ' ' || c == '\U{00A0}' || c == '\U{1680}' ||
    ('\U{2000}' <= c <= '\U{200A}') || c == '\U{2028}' || c == '\U{2029}' ||
    c == '\U{202F}' || c == '\U{205F}' || c == '\U{3000}' || c == '\U{FEFF}'
  }

  /** Every character of `s` is one that trim removes. */
  predicate IsBlank(s: string)
  {
    forall i :: 0 <= i < |s| ==> IsTrimmable(s[i])
  }

  /** Every character of `s` from `lo` up to `hi` is one that trim removes. */
  predicate BlankBetween(s: string, lo: int, hi: int)
  {
    forall i :: lo <= i < hi && 0 <= i < |s| ==> IsTrimmable(s[i])
  }

  /** The first index at or after `k` that trim keeps, or `|s|`. */
  function StartFrom(s: string, k: nat): (n: nat)
    requires k <= |s|
    ensures k <= n <= |s|
    ensures BlankBetween(s, k, n)
    ensures n < |s| ==> !IsTrimmable(s[n])
    decreases |s| - k
  {
    if k == |s| || !IsTrimmable(s[k]) then k else StartFrom(s, k + 1)
  }

  /** One past the last index at or after `lo`, below `k`, that trim keeps,
      or `lo`. */
  function EndBelow(s: string, lo: nat, k: nat): (m: nat)
    requires lo <= k <= |s|
    ensures lo <= m <= k
    ensures BlankBetween(s, m, k)
    ensures m > lo ==> !IsTrimmable(s[m - 1])
    decreases k
  {
    if k == lo || !IsTrimmable(s[k - 1]) then k else EndBelow(s, lo, k - 1)
  }

  /** Where the trimmed part of `s` starts. */
  function KeptFrom(s: string): (n: nat)
    ensures n <= |s| && BlankBetween(s, 0, n)
    ensures n < |s| ==> !IsTrimmable(s[n])
  {
    StartFrom(s, 0)
  }

  /** Where the trimmed part of `s` ends. */
  function KeptUntil(s: string): (m: nat)
    ensures KeptFrom(s) <= m <= |s| && BlankBetween(s, m, |s|)
    ensures m > KeptFrom(s) ==> !IsTrimmable(s[m - 1])
  {
    EndBelow(s, KeptFrom(s), |s|)
  }

  /** `s.trim()`: the part of `s` after a blank head and before a blank tail,
      neither starting nor ending with a trimmable character. It is empty
      exactly when `s` is blank. */
  function Trim(s: string): (r: string)
    ensures r == s[KeptFrom(s)..KeptUntil(s)]
    ensures r != [] ==> !IsTrimmable(r[0]) && !IsTrimmable(r[|r| - 1])
    ensures r == [] <==> IsBlank(s)
  {
    var n := KeptFrom(s);
    var m := KeptUntil(s);
    assert n == m ==> BlankBetween(s, 0, |s|);
    s[n..m]
  }

  /** Trimming a trimmed string changes nothing. */
  lemma TrimIdempotent(s: string)
    ensures Trim(Trim(s)) == Trim(s)
  {
    var r := Trim(s);
    if r != [] {
      assert KeptFrom(r) == 0;
      assert KeptUntil(r) == |r|;
    }
  }
}
