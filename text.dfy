/** String helpers the converter relies on: Python's `str.lstrip(chars)` and
    the digit doubling that expands a three-digit hex body. */
module Text {

  /** `s.lstrip(chars)`: drops the longest prefix of `s` made only of
      characters that occur in `chars`. */
  function LStrip(s: string, chars: string): (r: string)
    ensures |r| <= |s| && r == s[|s| - |r|..]
    ensures forall i :: 0 <= i < |s| - |r| ==> s[i] in chars
    ensures r == [] || r[0] !in chars
  {
    if s != [] && s[0] in chars then LStrip(s[1..], chars) else s
  }

  /** A prefix made of characters of `chars` is stripped, and stripping
      stops at the first character outside `chars`. */
  lemma {:induction false} LStripPrefix(p: string, rest: string, chars: string)
    requires forall i :: 0 <= i < |p| ==> p[i] in chars
    requires rest == [] || rest[0] !in chars
    ensures LStrip(p + rest, chars) == rest
    decreases |p|
  {
    if p == [] {
      assert p + rest == rest;
    } else {
      assert (p + rest)[0] == p[0];
      assert (p + rest)[1..] == p[1..] + rest;
      LStripPrefix(p[1..], rest, chars);
    }
  }

  /** Each character written twice, left to right, as the loop
      `for i in s: t += i * 2` builds it. */
  function Doubled(s: string): (d: string)
    ensures |d| == 2 * |s|
    ensures forall i :: 0 <= i < |d| ==> d[i] == s[i / 2]
  {
    if s == [] then [] else Doubled(s[..|s| - 1]) + [s[|s| - 1], s[|s| - 1]]
  }
}
