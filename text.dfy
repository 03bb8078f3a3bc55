/** Character and string helpers shared by the front end and the back end. */
module Text {
  import opened Wrappers

  predicate IsUpperAscii(c: char) { 'A' <= c <= 'Z' }

  predicate IsLowerAscii(c: char) { 'a' <= c <= 'z' }

  predicate IsDigit(c: char) { '0' <= c <= '9' }

  /** Upper-cases one character; only the ASCII letters are touched. */
  function UpperChar(c: char): (u: char)
    ensures !IsLowerAscii(u)
    ensures IsLowerAscii(c) ==> IsUpperAscii(u)
    ensures !IsLowerAscii(c) ==> u == c
  {
    if IsLowerAscii(c) then (c as int - 32) as char else c
  }

  /** Lower-cases one character; only the ASCII letters are touched. */
  function LowerChar(c: char): (l: char)
    ensures !IsUpperAscii(l)
    ensures IsUpperAscii(c) ==> IsLowerAscii(l) && UpperChar(l) == c
    ensures !IsUpperAscii(c) ==> l == c
  {
    if IsUpperAscii(c) then (c as int + 32) as char else c
  }

  /** Upper-cases every ASCII letter of s, position by position. */
  function Upper(s: string): (u: string)
    ensures |u| == |s|
    ensures forall i :: 0 <= i < |s| ==> u[i] == UpperChar(s[i])
  {
    seq(|s|, i requires 0 <= i < |s| => UpperChar(s[i]))
  }

  /** JavaScript's `startsWith` and Java's `startsWith`: `prefix` is a prefix of s. */
  predicate StartsWith(s: string, prefix: string) {
    prefix <= s
  }

  /** `needle` occurs in s as a contiguous substring (SQL `LIKE %needle%` without wildcards). */
  predicate Contains(s: string, needle: string) {
    exists k :: 0 <= k && k + |needle| <= |s| && OccursAt(s, needle, k)
  }

  /** `needle` sits in s starting at index k. */
  predicate OccursAt(s: string, needle: string, k: nat)
    requires k + |needle| <= |s|
  {
    s[k..k + |needle|] == needle
  }

  /** Java's `String.trim()` drops every leading and trailing character <= U+0020, so a string
      trims to "" exactly when all its characters are such. */
  predicate IsBlank(s: string) {
    forall i :: 0 <= i < |s| ==> s[i] <= ' '
  }

  /** The decimal digits of n, as Java's `Long.toString` writes a non-negative long. */
  function Decimal(n: nat): (s: string)
    ensures |s| >= 1
    ensures forall i :: 0 <= i < |s| ==> IsDigit(s[i])
    ensures n < 10 ==> |s| == 1
    ensures n >= 10 ==> s[0] != '0'
  {
    if n < 10 then ['0' + n as char]
    else Decimal(n / 10) + ['0' + (n % 10) as char]
  }

  /** The index of the first occurrence of c in s (`indexOf`), if any. */
  function FirstIndex(s: string, c: char): (r: Option<nat>)
    ensures r.None? <==> (forall m :: 0 <= m < |s| ==> s[m] != c)
    ensures r.Some? ==> r.value < |s| && s[r.value] == c && (forall m :: 0 <= m < r.value ==> s[m] != c)
  {
    if s == [] then None
    else if s[0] == c then Some(0)
    else
      var rest := FirstIndex(s[1..], c);
      if rest.None? then None else Some(rest.value + 1)
  }

  /** The index of the last occurrence of c in s (`lastIndexOf`), if any. */
  function LastIndex(s: string, c: char): (r: Option<nat>)
    ensures r.None? <==> (forall m :: 0 <= m < |s| ==> s[m] != c)
    ensures r.Some? ==> r.value < |s| && s[r.value] == c && (forall m :: r.value < m < |s| ==> s[m] != c)
  {
    if s == [] then None
    else if s[|s| - 1] == c then Some(|s| - 1)
    else LastIndex(s[..|s| - 1], c)
  }

  /** An occurrence with no earlier occurrence is the one `indexOf` finds. */
  lemma FirstIndexIs(s: string, c: char, i: nat)
    requires i < |s| && s[i] == c
    requires forall m :: 0 <= m < i ==> s[m] != c
    ensures FirstIndex(s, c) == Some(i)
  {
    var r := FirstIndex(s, c);
    assert r.Some? && !(r.value < i) && !(i < r.value);
  }

  /** An occurrence with no later occurrence is the one `lastIndexOf` finds. */
  lemma LastIndexIs(s: string, c: char, i: nat)
    requires i < |s| && s[i] == c
    requires forall m :: i < m < |s| ==> s[m] != c
    ensures LastIndex(s, c) == Some(i)
  {
    var r := LastIndex(s, c);
    assert r.Some? && !(r.value < i) && !(i < r.value);
  }

  /** Two prefixes of one string are prefixes of one another. */
  lemma {:induction false} PrefixesAreComparable(s: string, a: string, b: string)
    requires StartsWith(s, a) && StartsWith(s, b) && |a| <= |b|
    ensures StartsWith(b, a)
  {
    assert a == s[..|a|];
    assert b[..|a|] == s[..|a|];
  }
}
