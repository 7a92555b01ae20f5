/** The classifier: recognisers for the three colour-literal patterns
    `HEX_REGEX`, `RGB_REGEX` and `RGBA_REGEX`, and the sequential tests that
    pick the notation of a token and the notation to convert it to. */
module Classifier {
  import opened Wrappers
  import opened HexDigits
  import opened Decimal

  datatype Notation = Hex | Rgb | Rgba

  /** `\s`: space, tab, newline, vertical tab, form feed, carriage return. */
  predicate IsSpace(c: char) {
    c == ' ' || 9 <= c as int <= 13
  }

  /** `HEX_REGEX.match(s)`: `#` followed by three or six hex digits of either
      case, and nothing after them. */
  predicate IsHexLiteral(s: string) {
    (|s| == 4 || |s| == 7) && s[0] == '#' && IsHexDigits(s[1..])
  }

  /** `#` followed by three or six hex digits is a hex literal. */
  lemma HexLiteralOfBody(body: string)
    requires IsHexDigits(body) && (|body| == 3 || |body| == 6)
    ensures IsHexLiteral("#" + body) && ("#" + body)[1..] == body
  {
    assert ("#" + body)[1..] == body;
  }

  /** The end of the run of `\s` that starts at `i`. */
  function SkipSpaces(s: string, i: nat): (j: nat)
    requires i <= |s|
    ensures i <= j <= |s|
    ensures forall k :: i <= k < j ==> IsSpace(s[k])
    ensures j < |s| ==> !IsSpace(s[j])
    decreases |s| - i
  {
    if i < |s| && IsSpace(s[i]) then SkipSpaces(s, i + 1) else i
  }

  /** The separator `\s*,?\s*` that starts at `i`. A digit must follow it in
      every pattern, so taking every space and the comma is the only way the
      pattern can go on. */
  function SkipSeparator(s: string, i: nat): (j: nat)
    requires i <= |s|
    ensures i <= j <= |s|
  {
    var k := SkipSpaces(s, i);
    if k < |s| && s[k] == ',' then SkipSpaces(s, k + 1) else k
  }

  /** What `\s*,?\s*` takes from position `i`: only spaces and at most one
      comma, and as much of both as there is, so the next character is no
      space, and no comma unless one was already taken. */
  lemma SeparatorShape(s: string, i: nat)
    requires i <= |s|
    ensures var j := SkipSeparator(s, i);
      && (forall k :: i <= k < j ==> IsSpace(s[k]) || s[k] == ',')
      && (forall k, m :: i <= k < m < j && s[k] == ',' ==> s[m] != ',')
      && (j < |s| ==> !IsSpace(s[j]))
      && ((forall k :: i <= k < j ==> s[k] != ',') ==> j == |s| || s[j] != ',')
  {
  }

  /** `\d{k}` matches at position `i`. */
  predicate DigitsAt(s: string, i: nat, k: nat) {
    i + k <= |s| && forall m :: i <= m < i + k ==> IsDecimalDigit(s[m])
  }

  /** `(?:(\d{1,3})\s*,?\s*){n}(\d{1,3})\)$` matches the rest of `s` from `i`.
      A group may take one, two or three digits, so two groups can meet
      without a separator. */
  predicate RgbGroups(s: string, i: nat, n: nat)
    requires i <= |s|
    ensures RgbGroups(s, i, n) ==> i + n + 2 <= |s| && IsDecimalDigit(s[i]) && s[|s| - 1] == ')'
    decreases n
  {
    exists k :: 1 <= k <= 3 && DigitsAt(s, i, k) &&
      (if n == 0 then s[i + k..] == ")" else RgbGroups(s, SkipSeparator(s, i + k), n - 1))
  }

  /** The alpha part `(([0](.\d*)?)|[1])\)$` matches the rest of `s` from `i`:
      `0` or `1`, or `0`, any character but a newline and digits; then `)`. */
  predicate AlphaClose(s: string, i: nat)
    requires i <= |s|
    ensures AlphaClose(s, i) ==> i + 2 <= |s| && (s[i] == '0' || s[i] == '1') && s[|s| - 1] == ')'
  {
    s[i..] == "0)" || s[i..] == "1)" ||
    (i + 3 <= |s| && s[i] == '0' && s[i + 1] != '\n' &&
     IsDecimalDigits(s[i + 2..|s| - 1]) && s[|s| - 1] == ')')
  }

  /** `(?:(\d{1,3})\s*,?\s*){n}` followed by the alpha part matches the rest
      of `s` from `i`. */
  predicate RgbaGroups(s: string, i: nat, n: nat)
    requires i <= |s|
    ensures RgbaGroups(s, i, n) ==> i + n + 2 <= |s| && IsDecimalDigit(s[i]) && s[|s| - 1] == ')'
    decreases n
  {
    if n == 0 then AlphaClose(s, i)
    else exists k :: 1 <= k <= 3 && DigitsAt(s, i, k) && RgbaGroups(s, SkipSeparator(s, i + k), n - 1)
  }

  /** `RGB_REGEX.match(s)`. */
  predicate IsRgbLiteral(s: string)
    ensures IsRgbLiteral(s) ==> |s| >= 8 && s[|s| - 1] == ')'
  {
    |s| >= 4 && s[..4] == "rgb(" && RgbGroups(s, SkipSpaces(s, 4), 2)
  }

  /** `RGBA_REGEX.match(s)`. */
  predicate IsRgbaLiteral(s: string)
    ensures IsRgbaLiteral(s) ==> |s| >= 10 && s[|s| - 1] == ')'
  {
    |s| >= 5 && s[..5] == "rgba(" && RgbaGroups(s, SkipSpaces(s, 5), 3)
  }

  /** `check_if_rgba`: test 0 is the rgb pattern, test 1 the rgba pattern.
      A token that passes either is no hex literal and does not pass the
      other one. */
  function CheckIfRgba(i: int, s: string): (b: bool)
    requires i == 0 || i == 1
    ensures b <==> (if i == 0 then IsRgbLiteral(s) else IsRgbaLiteral(s))
    ensures b ==> !IsHexLiteral(s)
    ensures b && i == 0 ==> !IsRgbaLiteral(s)
    ensures b && i == 1 ==> !IsRgbLiteral(s)
  {
    PatternsDisjoint(s);
    if i == 0 then IsRgbLiteral(s) else IsRgbaLiteral(s)
  }

  /** The three patterns exclude each other: a hex literal starts with `#`,
      the others with `r`, and the fourth character is `(` in an rgb literal
      but `a` in an rgba literal. */
  lemma PatternsDisjoint(s: string)
    ensures IsHexLiteral(s) ==> !IsRgbLiteral(s) && !IsRgbaLiteral(s)
    ensures IsRgbLiteral(s) ==> !IsRgbaLiteral(s)
  {
    if |s| >= 4 && s[..4] == "rgb(" {
      assert s[0] == s[..4][0] == 'r' && s[3] == s[..4][3] == '(';
    }
    if |s| >= 5 && s[..5] == "rgba(" {
      assert s[0] == s[..5][0] == 'r' && s[3] == s[..5][3] == 'a';
    }
  }

  /** The classification in the order hex, rgb, rgba: the first pattern
      that matches decides `(source notation, target notation)`. */
  function FirstMatch(token: string): (r: Option<(Notation, Notation)>)
    ensures r.None? <==> !IsHexLiteral(token) && !IsRgbLiteral(token) && !IsRgbaLiteral(token)
    ensures r.Some? ==> (r.value.0 == Hex <==> IsHexLiteral(token))
    ensures r.Some? ==> (r.value.1 == Hex <==> r.value.0 != Hex)
  {
    if IsHexLiteral(token) then Some((Hex, Rgba))
    else if IsRgbLiteral(token) then Some((Rgb, Hex))
    else if IsRgbaLiteral(token) then Some((Rgba, Hex))
    else None
  }

  /** The tests of `initiate`: each matching test overwrites `typeof` and
      `output`, so the last match wins. Because no token matches two of the
      patterns, this agrees with the first-match precedence. */
  method Classify(token: string) returns (r: Option<(Notation, Notation)>)
    ensures r == FirstMatch(token)
    ensures r.None? <==> !IsHexLiteral(token) && !IsRgbLiteral(token) && !IsRgbaLiteral(token)
    ensures r == Some((Hex, Rgba)) <==> IsHexLiteral(token)
    ensures r == Some((Rgb, Hex)) <==> IsRgbLiteral(token)
    ensures r == Some((Rgba, Hex)) <==> IsRgbaLiteral(token)
  {
    r := None;
    if IsHexLiteral(token) {
      r := Some((Hex, Rgba));
    }
    if CheckIfRgba(0, token) {
      r := Some((Rgb, Hex));
    }
    if CheckIfRgba(1, token) {
      r := Some((Rgba, Hex));
    }
  }

  /** Tokens that are no colour literal of these notations are left alone. */
  lemma NoMatchExamples()
    ensures FirstMatch("red") == None
    ensures FirstMatch("hsla(0,0%,0%,1)") == None
    ensures FirstMatch("#ggg") == None
  {
    var h := "hsla(0,0%,0%,1)";
    assert h[..4][0] == 'h' && h[..5][0] == 'h';
    var g := "#ggg";
    assert g[..4][0] == '#' && !IsHexDigit(g[1..][0]);
  }
}
