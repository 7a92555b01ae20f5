/** Decimal digits: `str(n)` of a natural number, `int(v, 10)` of a digit
    string, and `re.findall("[0-9]+", s)`, the maximal digit runs of a text. */
module Decimal {

  predicate IsDecimalDigit(c: char) {
    '0' <= c <= '9'
  }

  predicate IsDecimalDigits(s: string) {
    forall i :: 0 <= i < |s| ==> IsDecimalDigit(s[i])
  }

  /** No character of `s` is a decimal digit. */
  predicate NoDecimalDigits(s: string) {
    forall i :: 0 <= i < |s| ==> !IsDecimalDigit(s[i])
  }

  function Pow10(n: nat): (p: nat)
    ensures p >= 1
  {
    if n == 0 then 1 else 10 * Pow10(n - 1)
  }

  /** `int(s, 10)` on a string of ASCII digits, leading zeros allowed. */
  function ParseDecimal(s: string): (v: nat)
    requires IsDecimalDigits(s)
    ensures v < Pow10(|s|)
  {
    if s == [] then 0 else ParseDecimal(s[..|s| - 1]) * 10 + (s[|s| - 1] as int - '0' as int)
  }

  /** `str(n)`: the decimal digits of `n` without leading zeros. */
  function Show(n: nat): (s: string)
    ensures s != [] && IsDecimalDigits(s)
    ensures ParseDecimal(s) == n
    ensures s[0] != '0' || n == 0
    ensures n < 10 ==> |s| == 1
    ensures n < 1000 ==> |s| <= 3
  {
    var d := ['0' + (n % 10) as char];
    if n < 10 then d
    else
      var s := Show(n / 10) + d;
      assert s[..|s| - 1] == Show(n / 10);
      s
  }

  /** Length of the longest prefix of `s` made of decimal digits. */
  function LeadingDigits(s: string): (n: nat)
    ensures n <= |s| && IsDecimalDigits(s[..n])
    ensures n < |s| ==> !IsDecimalDigit(s[n])
  {
    if s != [] && IsDecimalDigit(s[0]) then
      var n := 1 + LeadingDigits(s[1..]);
      assert s[..n] == [s[0]] + s[1..][..n - 1];
      n
    else 0
  }

  /** `re.findall("[0-9]+", s)`: the maximal runs of decimal digits of `s`,
      left to right. */
  function DigitRuns(s: string): (runs: seq<string>)
    ensures forall k :: 0 <= k < |runs| ==> runs[k] != [] && IsDecimalDigits(runs[k])
    decreases |s|
  {
    if s == [] then []
    else if !IsDecimalDigit(s[0]) then DigitRuns(s[1..])
    else
      var n := LeadingDigits(s);
      [s[..n]] + DigitRuns(s[n..])
  }

  /** A prefix without digits contributes no run. */
  lemma {:induction false} RunsSkip(p: string, rest: string)
    requires NoDecimalDigits(p)
    ensures DigitRuns(p + rest) == DigitRuns(rest)
    decreases |p|
  {
    if p != [] {
      assert (p + rest)[0] == p[0] && !IsDecimalDigit(p[0]);
      assert (p + rest)[1..] == p[1..] + rest;
      RunsSkip(p[1..], rest);
    } else {
      assert p + rest == rest;
    }
  }

  lemma {:induction false} LeadingDigitsOf(d: string, rest: string)
    requires IsDecimalDigits(d)
    requires rest == [] || !IsDecimalDigit(rest[0])
    ensures LeadingDigits(d + rest) == |d|
    decreases |d|
  {
    if d != [] {
      assert (d + rest)[1..] == d[1..] + rest;
      LeadingDigitsOf(d[1..], rest);
    }
  }

  /** A digit string followed by a non-digit (or the end) is one whole run. */
  lemma RunsDigits(d: string, rest: string)
    requires d != [] && IsDecimalDigits(d)
    requires rest == [] || !IsDecimalDigit(rest[0])
    ensures DigitRuns(d + rest) == [d] + DigitRuns(rest)
  {
    LeadingDigitsOf(d, rest);
    assert (d + rest)[..|d|] == d;
    assert (d + rest)[|d|..] == rest;
  }
}
