/** What the conversions promise together: digit doubling, the hex round
    trip through the channel values, and the round trip of a hex literal
    through the `rgb(...)` text the converter writes for it. */
module Properties {
  import opened Wrappers
  import opened Text
  import opened HexDigits
  import opened Decimal
  import opened Classifier
  import opened Conversion

  /** The value of a digit pair read back from `rgba2hex`: the pair in the
      configured case. */
  lemma PairNormalised(t: string, uppercase: bool)
    requires |t| == 2 && IsHexDigits(t)
    ensures Rgba2Hex(ParseHex(t), uppercase) == Normalised(t, uppercase)
  {
    PairNibbles(t);
    var p, n := Rgba2Hex(ParseHex(t), uppercase), Normalised(t, uppercase);
    SameDigit(p[0], n[0], uppercase);
    SameDigit(p[1], n[1], uppercase);
  }

  /** The nibbles of a two-digit hex string are its digits' values. */
  lemma PairNibbles(t: string)
    requires |t| == 2 && IsHexDigits(t)
    ensures ParseHex(t) < 256
    ensures ParseHex(t) / 16 == DigitValue(t[0]) && ParseHex(t) % 16 == DigitValue(t[1])
  {
    assert t == [t[0], t[1]];
    ParsePair(t[0], t[1]);
    Nibbles(DigitValue(t[0]), DigitValue(t[1]));
  }

  /** A three-digit body `xyz` gives the channels of the six-digit body
      `xxyyzz`, each one the digit's value times 17. */
  lemma DigitDoubling(t: string)
    requires |t| == 3 && IsHexDigits(t)
    ensures IsHexBody([t[0], t[0], t[1], t[1], t[2], t[2]])
    ensures Channels(t) == Channels([t[0], t[0], t[1], t[1], t[2], t[2]])
    ensures Channels(t) == (DigitValue(t[0]) * 17, DigitValue(t[1]) * 17, DigitValue(t[2]) * 17)
  {
    var h := [t[0], t[0], t[1], t[1], t[2], t[2]];
    assert Expanded(t) == h;
    assert h[0..2] == [t[0], t[0]] && h[2..4] == [t[1], t[1]] && h[4..6] == [t[2], t[2]];
    ParsePair(t[0], t[0]);
    ParsePair(t[1], t[1]);
    ParsePair(t[2], t[2]);
  }

  /** The three pairs `rgba2hex` writes for the channels of a hex body. */
  function PairsOf(body: string, uppercase: bool): (p: (string, string, string))
    requires IsHexBody(body)
  {
    var c := Channels(body);
    (Rgba2Hex(c.0, uppercase), Rgba2Hex(c.1, uppercase), Rgba2Hex(c.2, uppercase))
  }

  /** Reading a hex body into channels and writing each channel back with
      `rgba2hex` gives the six digits of the expanded body in the
      configured case. */
  lemma PairsOfBody(body: string, uppercase: bool)
    requires IsHexBody(body)
    ensures var p, h := PairsOf(body, uppercase), Expanded(body);
      p.0 + p.1 + p.2 == Normalised(h[..6], uppercase)
  {
    var h := Expanded(body);
    var p := PairsOf(body, uppercase);
    PairNormalised(h[0..2], uppercase);
    PairNormalised(h[2..4], uppercase);
    PairNormalised(h[4..6], uppercase);
    var q, n := p.0 + p.1 + p.2, Normalised(h[..6], uppercase);
    forall k | 0 <= k < 6 ensures q[k] == n[k] {
      if k < 2 {
        assert q[k] == p.0[k];
      } else if k < 4 {
        assert q[k] == p.1[k - 2];
      } else {
        assert q[k] == p.2[k - 4];
      }
    }
  }

  /** Round trip: the channels of a six-digit body, written back as hex with
      `three_hex` off, give `#` and the body in the configured case. */
  lemma HexRoundTrip(body: string, uppercase: bool)
    requires |body| == 6 && IsHexDigits(body)
    ensures var p := PairsOf(body, uppercase);
      HexLiteral(p.0, p.1, p.2, false) == "#" + Normalised(body, uppercase)
  {
    PairsOfBody(body, uppercase);
    assert body[..6] == body;
  }

  /** Pair `k` of an expanded three-digit body is written back as digit `k`
      of the body, twice, in the configured case. */
  lemma DoubledPair(body: string, uppercase: bool, k: nat)
    requires |body| == 3 && IsHexDigits(body) && k < 3
    ensures IsHexBody(body)
    ensures var h, m := Expanded(body), Normalised(body, uppercase);
      Rgba2Hex(ParseHex(h[2 * k..2 * k + 2]), uppercase) == [m[k], m[k]]
  {
    var h, m := Expanded(body), Normalised(body, uppercase);
    var t := h[2 * k..2 * k + 2];
    assert (2 * k) / 2 == k && (2 * k + 1) / 2 == k;
    PairNormalised(t, uppercase);
    var n := Normalised(t, uppercase);
    assert t[0] == body[k] && t[1] == body[k];
    assert n[0] == m[k] && n[1] == m[k];
  }

  /** With `three_hex` on, the channels of a three-digit body collapse back
      to `#` and the three digits in the configured case. */
  lemma ShortHexRoundTrip(body: string, uppercase: bool)
    requires |body| == 3 && IsHexDigits(body)
    ensures var p := PairsOf(body, uppercase);
      HexLiteral(p.0, p.1, p.2, true) == "#" + Normalised(body, uppercase)
  {
    var p, m := PairsOf(body, uppercase), Normalised(body, uppercase);
    assert p.0 == [m[0], m[0]] by {
      DoubledPair(body, uppercase, 0);
    }
    assert p.1 == [m[1], m[1]] by {
      DoubledPair(body, uppercase, 1);
    }
    assert p.2 == [m[2], m[2]] by {
      DoubledPair(body, uppercase, 2);
    }
    assert "#" + m == ['#', m[0], m[1], m[2]];
  }

  /** Rewriting in the configured case leaves digits already in that case alone. */
  lemma NormalisedInCase(s: string, uppercase: bool)
    requires IsHexDigits(s)
    requires forall i :: 0 <= i < |s| ==> InCase(s[i], uppercase)
    ensures Normalised(s, uppercase) == s
  {
    var n := Normalised(s, uppercase);
    forall i | 0 <= i < |s| ensures n[i] == s[i] {
      SameDigit(n[i], s[i], uppercase);
    }
  }

  /** The last group of the rgb pattern: one to three digits, then `)`. */
  lemma LastGroup(s: string, i: nat, d: string)
    requires i <= |s| && s[i..] == d + ")"
    requires 1 <= |d| <= 3 && IsDecimalDigits(d)
    ensures i + |d| <= |s| && DigitsAt(s, i, |d|) && s[i + |d|..] == ")"
  {
    assert forall m :: i <= m < i + |d| ==> s[m] == s[i..][m - i] == d[m - i];
    assert s[i + |d|..] == s[i..][|d|..] == ")";
  }

  /** A group of one to three digits and a comma before the next digit:
      the separator ends right after the comma. */
  lemma GroupStep(s: string, i: nat, d: string, rest: string)
    requires i <= |s| && s[i..] == d + ([','] + rest)
    requires 1 <= |d| <= 3 && IsDecimalDigits(d)
    requires rest != [] && IsDecimalDigit(rest[0])
    ensures i + |d| + 1 <= |s| && s[i + |d| + 1..] == rest
    ensures DigitsAt(s, i, |d|) && SkipSeparator(s, i + |d|) == i + |d| + 1
  {
    var j := i + |d|;
    assert s[j + 1..] == s[i..][|d| + 1..] == rest;
    assert forall m :: i <= m < j ==> s[m] == s[i..][m - i] == d[m - i];
    assert s[j] == s[i..][|d|] == ',';
    assert s[j + 1] == s[i..][|d| + 1] == rest[0];
    assert SkipSpaces(s, j) == j;
    assert SkipSpaces(s, j + 1) == j + 1;
  }

  /** A group and its separator, followed by `n - 1` more groups. */
  lemma NextGroup(s: string, i: nat, k: nat, n: nat)
    requires i + k <= |s| && 1 <= k <= 3 && DigitsAt(s, i, k)
    requires n > 0 && RgbGroups(s, SkipSeparator(s, i + k), n - 1)
    ensures RgbGroups(s, i, n)
  {
  }

  /** `rgb(R,G,B)` matches `RGB_REGEX` when R, G and B are one to three digits. */
  lemma TripleMatches(s: string, R: string, G: string, B: string)
    requires 1 <= |R| <= 3 && IsDecimalDigits(R)
    requires 1 <= |G| <= 3 && IsDecimalDigits(G)
    requires 1 <= |B| <= 3 && IsDecimalDigits(B)
    requires |s| >= 4 && s[..4] == "rgb(" && s[4..] == R + ([','] + (G + ([','] + (B + ")"))))
    ensures IsRgbLiteral(s)
  {
    assert s[4] == s[4..][0] == R[0];
    TripleGroups(s, 4, R, G, B);
  }

  /** The three groups `R,G,B)` match from position `i` on. */
  lemma TripleGroups(s: string, i: nat, R: string, G: string, B: string)
    requires 1 <= |R| <= 3 && IsDecimalDigits(R)
    requires 1 <= |G| <= 3 && IsDecimalDigits(G)
    requires 1 <= |B| <= 3 && IsDecimalDigits(B)
    requires i <= |s| && s[i..] == R + ([','] + (G + ([','] + (B + ")"))))
    ensures RgbGroups(s, i, 2)
  {
    var t3 := B + ")";
    var t2 := G + ([','] + t3);
    var i2 := i + |R| + 1;
    var i3 := i2 + |G| + 1;
    assert t3[0] == B[0] && t2[0] == G[0];
    GroupStep(s, i, R, t2);
    GroupStep(s, i2, G, t3);
    LastGroup(s, i3, B);
    ChainGroups(s, i, |R|, i2, |G|, i3, |B|);
  }

  /** Three groups in a row, each separator ending where the next group starts. */
  lemma ChainGroups(s: string, i1: nat, k1: nat, i2: nat, k2: nat, i3: nat, k3: nat)
    requires i1 + k1 <= |s| && 1 <= k1 <= 3 && DigitsAt(s, i1, k1) && SkipSeparator(s, i1 + k1) == i2
    requires i2 + k2 <= |s| && 1 <= k2 <= 3 && DigitsAt(s, i2, k2) && SkipSeparator(s, i2 + k2) == i3
    requires i3 + k3 <= |s| && 1 <= k3 <= 3 && DigitsAt(s, i3, k3) && s[i3 + k3..] == ")"
    ensures RgbGroups(s, i1, 2)
  {
    assert RgbGroups(s, i3, 0);
    NextGroup(s, i2, k2, 1);
    NextGroup(s, i1, k1, 2);
  }

  /** Every `rgb(r,g,b)` text with channels in range matches `RGB_REGEX`. */
  lemma RgbTextMatches(r: nat, g: nat, b: nat)
    requires r < 256 && g < 256 && b < 256
    ensures IsRgbLiteral(RgbText(r, g, b))
  {
    var R, G, B := Show(r), Show(g), Show(b);
    var s := RgbText(r, g, b);
    var tail := R + ([','] + (G + ([','] + (B + ")"))));
    assert s == "rgb(" + tail;
    assert s[..4] == "rgb(" && s[4..] == tail;
    TripleMatches(s, R, G, B);
  }

  /** Stripping the letters of `rgba` from `rgb(...)` leaves `(...)`. */
  lemma StripFunctionName(rest: string)
    requires rest != [] && rest[0] == '('
    ensures LStrip("rgb" + rest, "rgba") == rest
  {
    LStripPrefix("rgb", rest, "rgba");
  }

  /** A separator character followed by a digit string: the string is the next run. */
  lemma RunsAfterSeparator(sep: char, d: string, rest: string)
    requires !IsDecimalDigit(sep)
    requires d != [] && IsDecimalDigits(d)
    requires rest == [] || !IsDecimalDigit(rest[0])
    ensures DigitRuns([sep] + (d + rest)) == [d] + DigitRuns(rest)
  {
    RunsSkip([sep], d + rest);
    RunsDigits(d, rest);
  }

  /** The digit runs of `(R,G,B)` are R, G and B. */
  lemma RunsOfTriple(R: string, G: string, B: string)
    requires R != [] && IsDecimalDigits(R)
    requires G != [] && IsDecimalDigits(G)
    requires B != [] && IsDecimalDigits(B)
    ensures DigitRuns(['('] + (R + ([','] + (G + ([','] + (B + ")")))))) == [R, G, B]
  {
    var tail3 := [','] + (B + ")");
    var tail2 := [','] + (G + tail3);
    assert DigitRuns(")") == [] by {
      assert ")"[1..] == [];
    }
    assert DigitRuns(tail3) == [B] by {
      RunsAfterSeparator(',', B, ")");
    }
    assert DigitRuns(tail2) == [G, B] by {
      RunsAfterSeparator(',', G, tail3);
    }
    RunsAfterSeparator('(', R, tail2);
  }

  /** The numbers `convert_rgba` finds are the values of the digit runs. */
  lemma ValuesOfRuns(token: string, R: string, G: string, B: string)
    requires IsDecimalDigits(R) && IsDecimalDigits(G) && IsDecimalDigits(B)
    requires DigitRuns(LStrip(token, "rgba")) == [R, G, B]
    ensures ChannelValues(token) == [ParseDecimal(R), ParseDecimal(G), ParseDecimal(B)]
  {
  }

  /** The numbers `convert_rgba` finds in an `rgb(r,g,b)` text are r, g and b. */
  lemma RgbTextValues(r: nat, g: nat, b: nat)
    ensures ChannelValues(RgbText(r, g, b)) == [r, g, b]
  {
    var R, G, B := Show(r), Show(g), Show(b);
    var tail := ['('] + (R + ([','] + (G + ([','] + (B + ")")))));
    assert RgbText(r, g, b) == "rgb" + tail;
    StripFunctionName(tail);
    RunsOfTriple(R, G, B);
    ValuesOfRuns(RgbText(r, g, b), R, G, B);
  }

  /** The digit runs of `(R,G,B,x)` begin with R, G and B, whatever `x` is. */
  lemma RunsOfQuad(R: string, G: string, B: string, x: string)
    requires R != [] && IsDecimalDigits(R)
    requires G != [] && IsDecimalDigits(G)
    requires B != [] && IsDecimalDigits(B)
    ensures DigitRuns(['('] + (R + ([','] + (G + ([','] + (B + ([','] + (x + ")"))))))))
      == [R, G, B] + DigitRuns([','] + (x + ")"))
  {
    var tail4 := [','] + (x + ")");
    var tail3 := [','] + (B + tail4);
    var tail2 := [','] + (G + tail3);
    assert DigitRuns(tail3) == [B] + DigitRuns(tail4) by {
      RunsAfterSeparator(',', B, tail4);
    }
    assert DigitRuns(tail2) == [G] + ([B] + DigitRuns(tail4)) by {
      RunsAfterSeparator(',', G, tail3);
    }
    RunsAfterSeparator('(', R, tail2);
  }

  /** Digit runs that begin with R, G and B give numbers that begin with
      their values. */
  lemma ValuesOfLeadingRuns(token: string, R: string, G: string, B: string, more: seq<string>)
    requires IsDecimalDigits(R) && IsDecimalDigits(G) && IsDecimalDigits(B)
    requires DigitRuns(LStrip(token, "rgba")) == [R, G, B] + more
    ensures var vs := ChannelValues(token);
      |vs| >= 3 && vs[0] == ParseDecimal(R) && vs[1] == ParseDecimal(G) && vs[2] == ParseDecimal(B)
  {
    var runs := DigitRuns(LStrip(token, "rgba"));
    var vs := ChannelValues(token);
    assert |runs| == 3 + |more| && runs[0] == R && runs[1] == G && runs[2] == B;
    assert |vs| == |runs|;
    assert vs[0] == ParseDecimal(runs[0]) && vs[1] == ParseDecimal(runs[1]) && vs[2] == ParseDecimal(runs[2]);
  }

  /** `lstrip("rgba")` removes exactly the function name from an
      `rgba(R,G,B,x)` text. */
  lemma StripRgbaName(R: string, G: string, B: string, x: string)
    ensures LStrip("rgba(" + R + "," + G + "," + B + "," + x + ")", "rgba")
      == ['('] + (R + ([','] + (G + ([','] + (B + ([','] + (x + ")")))))))
  {
    var tail := ['('] + (R + ([','] + (G + ([','] + (B + ([','] + (x + ")")))))));
    assert "rgba(" + R + "," + G + "," + B + "," + x + ")" == "rgba" + tail;
    LStripPrefix("rgba", tail, "rgba");
  }

  /** The first three numbers `convert_rgba` finds in an `rgba(r,g,b,alpha)`
      text are r, g and b, whatever text renders the opacity. */
  lemma RgbaTextValues(r: nat, g: nat, b: nat, alpha: string)
    ensures var vs := ChannelValues(RgbaText(r, g, b, alpha));
      |vs| >= 3 && vs[0] == r && vs[1] == g && vs[2] == b
  {
    var R, G, B := Show(r), Show(g), Show(b);
    var t := RgbaText(r, g, b, alpha);
    assert DigitRuns(LStrip(t, "rgba")) == [R, G, B] + DigitRuns([','] + (alpha + ")")) by {
      StripRgbaName(R, G, B, alpha);
      RunsOfQuad(R, G, B, alpha);
    }
    ValuesOfLeadingRuns(t, R, G, B, DigitRuns([','] + (alpha + ")")));
  }

  /** The `rgba(...)` text `convert_hex` writes with the `rgb` setting off
      holds the channels of the hex literal as its first three numbers. */
  lemma HexRgbaTextValues(token: string, opacity: real, show: real -> string)
    requires IsHexLiteral(token)
    ensures IsHexBody(LStrip(token, "#"))
    ensures var c, vs := Channels(LStrip(token, "#")), ChannelValues(HexText(token, false, opacity, show));
      |vs| >= 3 && vs[0] == c.0 && vs[1] == c.1 && vs[2] == c.2
  {
    HexLiteralBody(token);
    var c := Channels(LStrip(token, "#"));
    RgbaTextValues(c.0, c.1, c.2, show(opacity));
  }

  /** The `rgb(...)` text written for a hex literal is classified as rgb,
      with hex as its target notation. */
  lemma HexTextClassified(token: string, opacity: real, show: real -> string)
    requires IsHexLiteral(token)
    ensures IsHexBody(LStrip(token, "#"))
    ensures var c := Channels(LStrip(token, "#"));
      HexText(token, true, opacity, show) == RgbText(c.0, c.1, c.2)
    ensures FirstMatch(HexText(token, true, opacity, show)) == Some((Rgb, Hex))
  {
    HexLiteralBody(token);
    var c := Channels(LStrip(token, "#"));
    var out := RgbText(c.0, c.1, c.2);
    RgbTextMatches(c.0, c.1, c.2);
    assert out[0] == 'r';
    PatternsDisjoint(out);
  }

  /** Converting a hex literal to `rgb(...)` and that text back gives the
      hex literal built from the digit pairs of its channels. */
  lemma HexThroughRgb(token: string, uppercase: bool, threeHex: bool, opacity: real, show: real -> string)
    requires IsHexLiteral(token)
    ensures IsHexBody(LStrip(token, "#"))
    ensures var p := PairsOf(LStrip(token, "#"), uppercase);
      RgbaOutcome(HexText(token, true, opacity, show), uppercase, threeHex) == Converted(HexLiteral(p.0, p.1, p.2, threeHex))
  {
    HexTextClassified(token, opacity, show);
    var c := Channels(LStrip(token, "#"));
    var out := HexText(token, true, opacity, show);
    assert RgbaOutcome(out, uppercase, threeHex) == ValuesOutcome([c.0, c.1, c.2], uppercase, threeHex) by {
      RgbTextValues(c.0, c.1, c.2);
    }
    OutcomeOfValues(uppercase, threeHex, c.0, c.1, c.2);
  }

  /** Three numbers in range are converted to the hex literal of their pairs. */
  lemma OutcomeOfValues(uppercase: bool, threeHex: bool, r: nat, g: nat, b: nat)
    requires r < 256 && g < 256 && b < 256
    ensures ValuesOutcome([r, g, b], uppercase, threeHex)
      == Converted(HexLiteral(Rgba2Hex(r, uppercase), Rgba2Hex(g, uppercase), Rgba2Hex(b, uppercase), threeHex))
  {
    var vs := [r, g, b];
    assert FirstOver255(vs).None? by {
      assert forall k :: 0 <= k < |vs| ==> vs[k] <= 255;
    }
    ValuesConverted(vs, uppercase, threeHex);
  }

  /** Numbers all in range, at least three of them, are converted. */
  lemma ValuesConverted(vs: seq<nat>, uppercase: bool, threeHex: bool)
    requires FirstOver255(vs).None? && |vs| >= 3
    ensures ValuesOutcome(vs, uppercase, threeHex)
      == Converted(HexLiteral(Rgba2Hex(vs[0], uppercase), Rgba2Hex(vs[1], uppercase), Rgba2Hex(vs[2], uppercase), threeHex))
  {
  }

  /** The round trip hex, `rgb(...)`, hex: with `three_hex` off it gives `#`
      and the six digits of the (expanded) body in the configured case; with
      `three_hex` on, a three-digit literal comes back as three digits. A
      literal already written in the configured case comes back unchanged. */
  lemma HexRoundTripThroughRgb(token: string, uppercase: bool, threeHex: bool, opacity: real, show: real -> string)
    requires IsHexLiteral(token)
    ensures IsHexBody(LStrip(token, "#"))
    ensures var out := RgbaOutcome(HexText(token, true, opacity, show), uppercase, threeHex);
      && (!threeHex && |token| == 7 ==> out == Converted("#" + Normalised(token[1..], uppercase)))
      && (!threeHex && |token| == 4 ==> out == Converted("#" + Normalised(Doubled(token[1..]), uppercase)))
      && (threeHex && |token| == 4 ==> out == Converted("#" + Normalised(token[1..], uppercase)))
    ensures (forall i :: 1 <= i < |token| ==> InCase(token[i], uppercase)) && (threeHex <==> |token| == 4) ==>
      RgbaOutcome(HexText(token, true, opacity, show), uppercase, threeHex) == Converted(token)
  {
    HexThroughRgb(token, uppercase, threeHex, opacity, show);
    HexLiteralBody(token);
    var body := token[1..];
    if |body| == 6 {
      HexRoundTrip(body, uppercase);
    } else if threeHex {
      ShortHexRoundTrip(body, uppercase);
    } else {
      DoubledHexRoundTrip(body, uppercase);
    }
    if (forall i :: 1 <= i < |token| ==> InCase(token[i], uppercase)) && (threeHex <==> |token| == 4) {
      LiteralInCase(token, uppercase);
    }
  }

  /** With `three_hex` on, a six-digit literal in the configured case comes
      back unchanged exactly when one of its pairs has two different digits:
      the collapse loop then gives up the short form. */
  lemma FullLiteralThreeHex(token: string, uppercase: bool, opacity: real, show: real -> string)
    requires IsHexLiteral(token) && |token| == 7
    requires forall i :: 1 <= i < |token| ==> InCase(token[i], uppercase)
    ensures IsHexBody(LStrip(token, "#"))
    ensures RgbaOutcome(HexText(token, true, opacity, show), uppercase, true) == Converted(token)
      <==> !(token[1] == token[2] && token[3] == token[4] && token[5] == token[6])
  {
    HexLiteralBody(token);
    var p := PairsOf(token[1..], uppercase);
    assert RgbaOutcome(HexText(token, true, opacity, show), uppercase, true) == Converted(HexLiteral(p.0, p.1, p.2, true)) by {
      HexThroughRgb(token, uppercase, true, opacity, show);
    }
    InCasePairs(token, uppercase);
  }

  /** The pairs written back for a six-digit literal in the configured case
      are its own digits, so with `three_hex` on they rebuild the literal
      exactly when one pair has two different digits. */
  lemma InCasePairs(token: string, uppercase: bool)
    requires IsHexLiteral(token) && |token| == 7
    requires forall i :: 1 <= i < |token| ==> InCase(token[i], uppercase)
    ensures IsHexBody(token[1..])
    ensures var p := PairsOf(token[1..], uppercase);
      HexLiteral(p.0, p.1, p.2, true) == token <==> !(token[1] == token[2] && token[3] == token[4] && token[5] == token[6])
  {
    InCaseBodyPairs(token, uppercase);
    var p := PairsOf(token[1..], uppercase);
    CollapseOfPairs(p.0, p.1, p.2, token);
  }

  /** The pairs written back for a six-digit literal in the configured case
      spell its body. */
  lemma InCaseBodyPairs(token: string, uppercase: bool)
    requires IsHexLiteral(token) && |token| == 7
    requires forall i :: 1 <= i < |token| ==> InCase(token[i], uppercase)
    ensures IsHexBody(token[1..])
    ensures var p := PairsOf(token[1..], uppercase); token[1..] == p.0 + p.1 + p.2
  {
    HexLiteralBody(token);
    var body := token[1..];
    var n := Normalised(body, uppercase);
    assert PairsOf(body, uppercase).0 + PairsOf(body, uppercase).1 + PairsOf(body, uppercase).2 == n by {
      PairsOfBody(body, uppercase);
      assert Expanded(body)[..6] == body;
    }
    assert body == n by {
      LiteralInCase(token, uppercase);
      assert ("#" + n)[1..] == n;
    }
  }

  /** The literal built from three pairs with `three_hex` on is `t`, whose
      digits are those pairs, exactly when some pair has two different digits. */
  lemma CollapseOfPairs(a: string, b: string, c: string, t: string)
    requires |a| == 2 && |b| == 2 && |c| == 2
    requires |t| == 7 && t[0] == '#' && t[1..] == a + b + c
    ensures HexLiteral(a, b, c, true) == t <==> !(t[1] == t[2] && t[3] == t[4] && t[5] == t[6])
  {
    var q := a + b + c;
    assert a[0] == q[0] == t[1] && a[1] == q[1] == t[2];
    assert b[0] == q[2] == t[3] && b[1] == q[3] == t[4];
    assert c[0] == q[4] == t[5] && c[1] == q[5] == t[6];
    if |HexLiteral(a, b, c, true)| == 7 {
      assert t == [t[0]] + t[1..];
    }
  }

  /** With `three_hex` off, the channels of a three-digit body are written
      back as the six doubled digits in the configured case. */
  lemma DoubledHexRoundTrip(body: string, uppercase: bool)
    requires |body| == 3 && IsHexDigits(body)
    ensures var p := PairsOf(body, uppercase);
      HexLiteral(p.0, p.1, p.2, false) == "#" + Normalised(Doubled(body), uppercase)
  {
    PairsOfBody(body, uppercase);
    var h := Expanded(body);
    assert h[..6] == h == Doubled(body);
  }

  /** A hex literal whose digits are in the configured case is `#` and its
      body in that case. */
  lemma LiteralInCase(token: string, uppercase: bool)
    requires IsHexLiteral(token)
    requires forall i :: 1 <= i < |token| ==> InCase(token[i], uppercase)
    ensures token == "#" + Normalised(token[1..], uppercase)
  {
    var body := token[1..];
    forall i | 0 <= i < |body| ensures InCase(body[i], uppercase) {
      assert body[i] == token[i + 1];
    }
    NormalisedInCase(body, uppercase);
    assert token == [token[0]] + body;
  }

  /** `rgb(12,3)` matches `RGB_REGEX`: the groups are `1`, `2` and `3`. */
  lemma TwoNumberRgbMatches()
    ensures IsRgbLiteral("rgb(12,3)")
  {
    var s := "rgb(12,3)";
    assert s[..4] == "rgb(";
    assert SkipSpaces(s, 4) == 4 && SkipSpaces(s, 5) == 5;
    assert SkipSpaces(s, 6) == 6 && SkipSpaces(s, 7) == 7;
    assert s[8..] == ")";
    ChainGroups(s, 4, 1, 5, 1, 7, 1);
  }

  /** Stripping the letters of `rgba` from `rgb(12,3)` leaves `(12,3)`. */
  lemma TwoNumberStrip()
    ensures LStrip("rgb(12,3)", "rgba") == ['('] + ("12" + ([','] + ("3" + ")")))
  {
    var tail := ['('] + ("12" + ([','] + ("3" + ")")));
    assert "rgb(12,3)" == "rgb" + tail;
    StripFunctionName(tail);
  }

  /** The digit runs of `(12,3)` are `12` and `3`. */
  lemma TwoNumberTail()
    ensures DigitRuns(['('] + ("12" + ([','] + ("3" + ")")))) == ["12", "3"]
  {
    var tail2 := [','] + ("3" + ")");
    assert DigitRuns(")") == [] by {
      assert ")"[1..] == [];
    }
    assert DigitRuns(tail2) == ["3"] by {
      RunsAfterSeparator(',', "3", ")");
    }
    RunsAfterSeparator('(', "12", tail2);
  }

  /** The digit runs `convert_rgba` finds in `rgb(12,3)` are `12` and `3`. */
  lemma TwoNumberRuns()
    ensures DigitRuns(LStrip("rgb(12,3)", "rgba")) == ["12", "3"]
  {
    TwoNumberStrip();
    TwoNumberTail();
  }

  /** A token whose digit runs are `12` and `3` holds the numbers 12 and 3. */
  lemma TwoNumberValues(token: string)
    requires DigitRuns(LStrip(token, "rgba")) == ["12", "3"]
    ensures ChannelValues(token) == [12, 3]
  {
    var runs := DigitRuns(LStrip(token, "rgba"));
    var vs := ChannelValues(token);
    assert |vs| == 2 && vs[0] == ParseDecimal(runs[0]) && vs[1] == ParseDecimal(runs[1]);
    assert ParseDecimal("12") == 12 by {
      assert "12"[..1] == "1";
    }
    assert ParseDecimal("3") == 3;
  }

  /** `rgb(12,3)` passes the rgb test but holds only two numbers, so its
      conversion fails for want of a third channel. */
  lemma TwoNumberOutcome(uppercase: bool, threeHex: bool)
    ensures RgbaOutcome("rgb(12,3)", uppercase, threeHex) == TooFewChannels
  {
    assert ChannelValues("rgb(12,3)") == [12, 3] by {
      TwoNumberRuns();
      TwoNumberValues("rgb(12,3)");
    }
    assert FirstOver255([12, 3]) == None;
  }
}
