/** Hexadecimal digits: the two 16-character digit tables of the converter
    (`hex_seq`) and base-16 parsing as `int(s, 16)` does it on digit strings. */
module HexDigits {

  const LowerAlphabet: string := "0123456789abcdef"
  const UpperAlphabet: string := "0123456789ABCDEF"

  /** The digit table `hex_seq` chosen by the `uppercase` setting. */
  function Alphabet(uppercase: bool): (a: string)
    ensures |a| == 16
  {
    if uppercase then UpperAlphabet else LowerAlphabet
  }

  predicate IsHexDigit(c: char) {
    '0' <= c <= '9' || 'a' <= c <= 'f' || 'A' <= c <= 'F'
  }

  predicate IsHexDigits(s: string) {
    forall i :: 0 <= i < |s| ==> IsHexDigit(s[i])
  }

  /** A hex digit written in the letter case the setting asks for: a decimal
      digit, or a letter `A`-`F` exactly when `uppercase` holds, `a`-`f`
      otherwise. */
  predicate InCase(c: char, uppercase: bool) {
    '0' <= c <= '9' || (uppercase && 'A' <= c <= 'F') || (!uppercase && 'a' <= c <= 'f')
  }

  function DigitValue(c: char): (v: nat)
    requires IsHexDigit(c)
    ensures v < 16
  {
    if '0' <= c <= '9' then c as int - '0' as int
    else if 'a' <= c <= 'f' then c as int - 'a' as int + 10
    else c as int - 'A' as int + 10
  }

  function Pow16(n: nat): (p: nat)
    ensures p >= 1
  {
    if n == 0 then 1 else 16 * Pow16(n - 1)
  }

  /** `int(s, 16)` on a string of hex digits, most significant digit first. */
  function ParseHex(s: string): (v: nat)
    requires IsHexDigits(s)
    ensures v < Pow16(|s|)
  {
    if s == [] then 0 else ParseHex(s[..|s| - 1]) * 16 + DigitValue(s[|s| - 1])
  }

  lemma ParsePair(x: char, y: char)
    requires IsHexDigit(x) && IsHexDigit(y)
    ensures ParseHex([x, y]) == DigitValue(x) * 16 + DigitValue(y)
  {
    assert [x, y][..1] == [x];
    assert [x][..0] == [];
  }

  /** The nibbles of `16 * a + b` are `a` and `b`. */
  lemma Nibbles(a: nat, b: nat)
    requires a < 16 && b < 16
    ensures (a * 16 + b) / 16 == a && (a * 16 + b) % 16 == b
  {
  }

  /** Entry `k` of either table is a hex digit of value `k`, in the table's case. */
  lemma AlphabetDigit(uppercase: bool, k: nat)
    requires k < 16
    ensures IsHexDigit(Alphabet(uppercase)[k])
    ensures DigitValue(Alphabet(uppercase)[k]) == k
    ensures InCase(Alphabet(uppercase)[k], uppercase)
  {
  }

  /** The letter case of a digit and its value decide the digit: each
      table holds every value once. */
  lemma SameDigit(c: char, d: char, uppercase: bool)
    requires IsHexDigit(c) && IsHexDigit(d)
    requires InCase(c, uppercase) && InCase(d, uppercase)
    requires DigitValue(c) == DigitValue(d)
    ensures c == d
  {
  }

  /** A hex digit looked up again in the table of the chosen case. */
  function NormalDigit(c: char, uppercase: bool): (d: char)
    requires IsHexDigit(c)
    ensures IsHexDigit(d) && DigitValue(d) == DigitValue(c) && InCase(d, uppercase)
  {
    AlphabetDigit(uppercase, DigitValue(c));
    Alphabet(uppercase)[DigitValue(c)]
  }

  /** The hex digits of `s` rewritten in the table of the chosen case. */
  function Normalised(s: string, uppercase: bool): (n: string)
    requires IsHexDigits(s)
    ensures |n| == |s| && IsHexDigits(n)
    ensures forall i :: 0 <= i < |s| ==> DigitValue(n[i]) == DigitValue(s[i]) && InCase(n[i], uppercase)
  {
    seq(|s|, i requires 0 <= i < |s| => NormalDigit(s[i], uppercase))
  }
}
