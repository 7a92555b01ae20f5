/** The converter: hex to `rgb(...)`/`rgba(...)` and back, as the class
    `Converter` of the plugin performs it on its property bag, together with
    the functions that say what each of its steps computes. */
module Conversion {
  import opened Wrappers
  import opened Text
  import opened HexDigits
  import opened Decimal
  import opened Classifier
  import opened Settings

  /** The slot `props['string']`: the token text, until `convert_rgba`
      replaces it by the tuple of numbers found in it. */
  datatype Payload = TextValue(s: string) | Numbers(vs: seq<nat>)

  /** `self.result`: `None` before `convert` runs, then the converted text,
      or the refusal (`False`, with the value the status message names) when
      a number is above 255, or the `IndexError` that `rgba2hex(1)` or
      `rgba2hex(2)` raises when fewer than three numbers were found. */
  datatype Outcome = Pending | Converted(text: string) | OutOfRange(value: nat) | TooFewChannels

  /** A hex body `hex2rgba` can read: hex digits, three of them or at least six. */
  predicate IsHexBody(s: string) {
    IsHexDigits(s) && (|s| == 3 || |s| >= 6)
  }

  /** The body `hex2rgba` reads: a three-digit body has each digit doubled. */
  function Expanded(body: string): (h: string)
    requires IsHexBody(body)
    ensures |h| >= 6 && IsHexDigits(h)
    ensures |body| == 3 ==> |h| == 6 && forall i :: 0 <= i < 6 ==> h[i] == body[i / 2]
    ensures |body| != 3 ==> h == body
  {
    if |body| == 3 then Doubled(body) else body
  }

  /** The red, green and blue values `hex2rgba` reads from a hex body: digit
      pairs 0-1, 2-3 and 4-5 in base 16. */
  function Channels(body: string): (c: (nat, nat, nat))
    requires IsHexBody(body)
    ensures c.0 < 256 && c.1 < 256 && c.2 < 256
  {
    var h := Expanded(body);
    (ParseHex(h[0..2]), ParseHex(h[2..4]), ParseHex(h[4..6]))
  }

  /** The text `convert_hex` writes with the `rgb` setting on. */
  function RgbText(r: nat, g: nat, b: nat): string {
    "rgb(" + Show(r) + "," + Show(g) + "," + Show(b) + ")"
  }

  /** The text `convert_hex` writes with the `rgb` setting off, `alpha`
      being the rendered opacity. */
  function RgbaText(r: nat, g: nat, b: nat, alpha: string): string {
    "rgba(" + Show(r) + "," + Show(g) + "," + Show(b) + "," + alpha + ")"
  }

  /** The text `convert_hex` produces for a hex token: `rgb(r,g,b)` when the
      `rgb` setting is on, `rgba(r,g,b,alpha)` otherwise, where `show` renders
      the opacity as `%s` does. */
  function HexText(token: string, rgb: bool, opacity: real, show: real -> string): string
    requires IsHexBody(LStrip(token, "#"))
  {
    var c := Channels(LStrip(token, "#"));
    if rgb then RgbText(c.0, c.1, c.2)
    else RgbaText(c.0, c.1, c.2, show(opacity))
  }

  /** `max(0, min(v, 255))`. */
  function Clamp(v: int): (c: nat)
    ensures c <= 255
    ensures 0 <= v <= 255 ==> c == v
    ensures v > 255 ==> c == 255
  {
    if v < 0 then 0 else if v > 255 then 255 else v
  }

  /** `rgba2hex`: the two hex digits of a channel, looked up in `hex_seq`.
      They are the high and the low nibble of the clamped value, read back in
      base 16 they give that value, and their letters are in the configured
      case. */
  function Rgba2Hex(v: int, uppercase: bool): (p: string)
    ensures |p| == 2 && IsHexDigits(p)
    ensures DigitValue(p[0]) == Clamp(v) / 16 && DigitValue(p[1]) == Clamp(v) % 16
    ensures ParseHex(p) == Clamp(v)
    ensures InCase(p[0], uppercase) && InCase(p[1], uppercase)
  {
    var s := Clamp(v);
    var low := s % 16;
    var high := (s - low) / 16;
    var hexSeq := Alphabet(uppercase);
    AlphabetDigit(uppercase, high);
    AlphabetDigit(uppercase, low);
    ParsePair(hexSeq[high], hexSeq[low]);
    [hexSeq[high], hexSeq[low]]
  }

  /** The hex literal `convert_rgba` builds from the three digit pairs: the
      three-digit form only when `three_hex` is on and every pair repeats its
      digit, the full form in every other case. The short form doubles back
      into the full one. */
  function HexLiteral(a: string, b: string, c: string, threeHex: bool): (h: string)
    requires |a| == 2 && |b| == 2 && |c| == 2
    ensures (|h| == 4 || |h| == 7) && h[0] == '#'
    ensures |h| == 4 <==> threeHex && a[0] == a[1] && b[0] == b[1] && c[0] == c[1]
    ensures |h| == 7 ==> h == "#" + a + b + c
    ensures |h| == 4 ==> Doubled(h[1..]) == a + b + c
    ensures IsHexDigits(a + b + c) ==> IsHexLiteral(h)
  {
    if threeHex && a[0] == a[1] && b[0] == b[1] && c[0] == c[1] then
      var h := ['#', a[0], b[0], c[0]];
      assert Doubled(h[1..]) == a + b + c;
      assert IsHexDigits(a + b + c) ==> IsHexDigit(a[0]) && IsHexDigit(b[0]) && IsHexDigit(c[0]) by {
        if IsHexDigits(a + b + c) {
          assert (a + b + c)[0] == a[0] && (a + b + c)[2] == b[0] && (a + b + c)[4] == c[0];
        }
      }
      h
    else
      var h := "#" + a + b + c;
      assert h[1..] == a + b + c;
      h
  }

  /** The numbers `convert_rgba` finds in a token: every maximal run of
      decimal digits, read in base 10, after stripping the leading letters
      of `rgba`. */
  function ChannelValues(token: string): (vs: seq<nat>)
  {
    var runs := DigitRuns(LStrip(token, "rgba"));
    seq(|runs|, k requires 0 <= k < |runs| => ParseDecimal(runs[k]))
  }

  /** The first number above 255, if any. */
  function FirstOver255(vs: seq<nat>): (r: Option<nat>)
    ensures r.None? <==> forall k :: 0 <= k < |vs| ==> vs[k] <= 255
    ensures r.Some? ==> r.value > 255 && r.value in vs
    ensures r.Some? ==> exists k :: 0 <= k < |vs| && vs[k] == r.value && forall j :: 0 <= j < k ==> vs[j] <= 255
  {
    if vs == [] then None
    else if vs[0] > 255 then Some(vs[0])
    else FirstOver255(vs[1..])
  }

  /** What `convert_rgba` answers for the numbers it found: any number above
      255 refuses the whole conversion; otherwise the first three numbers give
      a hex literal. */
  function ValuesOutcome(vs: seq<nat>, uppercase: bool, threeHex: bool): (o: Outcome)
    ensures !o.Pending?
    ensures o.OutOfRange? <==> exists k :: 0 <= k < |vs| && vs[k] > 255
    ensures o.OutOfRange? ==> o.value > 255 && o.value in vs
    ensures o.OutOfRange? ==> FirstOver255(vs) == Some(o.value)
    ensures o.TooFewChannels? <==> (forall k :: 0 <= k < |vs| ==> vs[k] <= 255) && |vs| < 3
    ensures o.Converted? ==> IsHexLiteral(o.text)
  {
    match FirstOver255(vs)
    case Some(v) => OutOfRange(v)
    case None =>
      if |vs| < 3 then TooFewChannels
      else
        var a, b, c := Rgba2Hex(vs[0], uppercase), Rgba2Hex(vs[1], uppercase), Rgba2Hex(vs[2], uppercase);
        PairsAreHex(a, b, c);
        Converted(HexLiteral(a, b, c, threeHex))
  }

  /** What `convert_rgba` answers for an rgb or rgba token: the numbers are
      all digit runs after the leading letters, the alpha's digits included. */
  function RgbaOutcome(token: string, uppercase: bool, threeHex: bool): Outcome
  {
    ValuesOutcome(ChannelValues(token), uppercase, threeHex)
  }

  /** Three digit pairs together are hex digits. */
  lemma PairsAreHex(a: string, b: string, c: string)
    requires |a| == 2 && |b| == 2 && |c| == 2
    requires IsHexDigits(a) && IsHexDigits(b) && IsHexDigits(c)
    ensures IsHexDigits(a + b + c)
  {
    forall i | 0 <= i < 6 ensures IsHexDigit((a + b + c)[i]) {
      if i < 2 { assert (a + b + c)[i] == a[i]; }
      else if i < 4 { assert (a + b + c)[i] == b[i - 2]; }
      else { assert (a + b + c)[i] == c[i - 4]; }
    }
  }

  /** The conversion of an rgb or rgba token is refused exactly when some
      number found in it exceeds 255, and then names such a number; it fails
      for want of channels exactly when the numbers are in range but fewer
      than three; and what it produces is a hex literal. */
  lemma RgbaOutcomeCases(token: string, uppercase: bool, threeHex: bool)
    ensures var o, vs := RgbaOutcome(token, uppercase, threeHex), ChannelValues(token);
      && !o.Pending?
      && (o.OutOfRange? <==> exists k :: 0 <= k < |vs| && vs[k] > 255)
      && (o.OutOfRange? ==> o.value > 255 && o.value in vs)
      && (o.OutOfRange? ==> FirstOver255(vs) == Some(o.value))
      && (o.TooFewChannels? <==> (forall k :: 0 <= k < |vs| ==> vs[k] <= 255) && |vs| < 3)
      && (o.Converted? ==> IsHexLiteral(o.text))
  {
  }

  /** A hex literal's body is what follows its single `#`. */
  lemma HexLiteralBody(token: string)
    requires IsHexLiteral(token)
    ensures LStrip(token, "#") == token[1..]
    ensures IsHexBody(token[1..]) && |token[1..]| in {3, 6}
  {
    assert token == [token[0]] + token[1..];
    assert IsHexDigit(token[1..][0]);
    LStripPrefix([token[0]], token[1..], "#");
  }

  /** The range loop of `convert_rgba`: the numbers are visited in order
      and the first one above 255 stops the conversion. */
  method RangeCheck(vs: seq<nat>) returns (over: Option<nat>)
    ensures over == FirstOver255(vs)
  {
    var i := 0;
    while i < |vs|
      invariant 0 <= i <= |vs|
      invariant FirstOver255(vs[i..]) == FirstOver255(vs)
    {
      if vs[i] > 255 {
        return Some(vs[i]);
      }
      assert vs[i..][1..] == vs[i + 1..];
      i := i + 1;
    }
    assert vs[i..] == [];
    return None;
  }

  /** The join loop of `convert_rgba`: with `three_hex` on, the pairs are
      visited in order, one digit of each repeated pair is kept, and the
      first pair with two different digits gives up the short form in
      favour of the full one. */
  method JoinPairs(a: string, b: string, c: string, threeHex: bool) returns (text: string)
    requires |a| == 2 && |b| == 2 && |c| == 2
    ensures text == HexLiteral(a, b, c, threeHex)
  {
    if threeHex {
      var temp := "";
      var pairs := [a, b, c];
      for k := 0 to 3
        invariant |temp| == k
        invariant forall j :: 0 <= j < k ==> pairs[j][0] == pairs[j][1] && temp[j] == pairs[j][1]
      {
        var p := pairs[k];
        if p[0] == p[1] {
          temp := temp + p[1..];
        } else {
          return "#" + a + b + c;
        }
      }
      assert pairs[0] == a && pairs[1] == b && pairs[2] == c;
      assert "#" + temp == ['#', a[0], b[0], c[0]];
      return "#" + temp;
    }
    return "#" + a + b + c;
  }

  /** The plugin's `Converter`. */
  class Converter {
    const original: string
    const uppercase: bool
    const threeHex: bool
    const opacity: real
    const typeof: Notation
    const output: Notation
    var payload: Payload
    var result: Outcome
    var kind: Option<Notation>

    /** `__init__`: the properties as given, no result and no type yet. */
    constructor (token: string, uppercase: bool, threeHex: bool, opacity: real, typeof: Notation, output: Notation)
      ensures this.original == token && this.uppercase == uppercase && this.threeHex == threeHex
      ensures this.opacity == opacity && this.typeof == typeof && this.output == output
      ensures payload == TextValue(token) && result == Pending && kind == None
    {
      this.original := token;
      this.uppercase := uppercase;
      this.threeHex := threeHex;
      this.opacity := opacity;
      this.typeof := typeof;
      this.output := output;
      payload := TextValue(token);
      result := Pending;
      kind := None;
    }

    /** `hex2rgba`: doubles the digits of a three-digit body in place, then
        reads the three channels and adds the opacity. */
    method Hex2Rgba() returns (r: nat, g: nat, b: nat, a: real)
      requires payload.TextValue? && IsHexBody(payload.s)
      modifies this`payload
      ensures payload == TextValue(Expanded(old(payload).s))
      ensures (r, g, b) == Channels(old(payload).s) && a == opacity
    {
      var t := payload.s;
      if |t| == 3 {
        var s := "";
        for i := 0 to |t|
          invariant s == Doubled(t[..i])
        {
          assert t[..i + 1][..i] == t[..i];
          s := s + [t[i], t[i]];
        }
        assert t[..|t|] == t;
        payload := TextValue(s);
      }
      var h := payload.s;
      r, g, b, a := ParseHex(h[0..2]), ParseHex(h[2..4]), ParseHex(h[4..6]), opacity;
    }

    /** `convert_hex`: strips the leading `#` characters and formats the
        channels as `rgb(...)` or `rgba(...)` by the `rgb` setting. */
    method ConvertHex(rgb: bool, show: real -> string) returns (text: string)
      requires payload.TextValue? && IsHexBody(LStrip(payload.s, "#"))
      modifies this`payload
      ensures payload == TextValue(Expanded(LStrip(old(payload).s, "#")))
      ensures text == HexText(old(payload).s, rgb, opacity, show)
    {
      payload := TextValue(LStrip(payload.s, "#"));
      if rgb {
        var r, g, b, _ := Hex2Rgba();
        return RgbText(r, g, b);
      }
      var r, g, b, a := Hex2Rgba();
      return RgbaText(r, g, b, show(a));
    }

    /** `convert_rgba`: replaces the text by the numbers found in it, refuses
        the conversion at the first number above 255, then builds the hex
        literal, collapsing it to three digits only when every pair allows. */
    method ConvertRgba() returns (o: Outcome)
      requires payload.TextValue?
      modifies this`payload
      ensures payload == Numbers(ChannelValues(old(payload).s))
      ensures o == RgbaOutcome(old(payload).s, uppercase, threeHex)
    {
      var vs := ChannelValues(payload.s);
      payload := Numbers(vs);
      var over := RangeCheck(vs);
      if over.Some? {
        return OutOfRange(over.value);
      }
      if |vs| < 3 {
        return TooFewChannels;
      }
      var a := Rgba2Hex(vs[0], uppercase);
      var b := Rgba2Hex(vs[1], uppercase);
      var c := Rgba2Hex(vs[2], uppercase);
      var text := JoinPairs(a, b, c, threeHex);
      return Converted(text);
    }

    /** `convert`: dispatches on the source notation; converting an rgba token
        also records the target type `hex`. */
    method Convert(rgb: bool, show: real -> string)
      requires payload.TextValue?
      requires typeof == Hex ==> IsHexBody(LStrip(payload.s, "#"))
      modifies this`payload, this`result, this`kind
      ensures typeof == Hex ==> result == Converted(HexText(old(payload).s, rgb, opacity, show))
      ensures typeof != Hex ==> result == RgbaOutcome(old(payload).s, uppercase, threeHex)
      ensures typeof == Hex ==> payload == TextValue(Expanded(LStrip(old(payload).s, "#")))
      ensures typeof != Hex ==> payload == Numbers(ChannelValues(old(payload).s))
      ensures kind == if typeof == Rgba then Some(Hex) else old(kind)
    {
      ghost var token, before := payload.s, kind;
      match typeof
      case Hex =>
        var text := ConvertHex(rgb, show);
        result := Converted(text);
        assert result == Converted(HexText(token, rgb, opacity, show)) && kind == before;
      case Rgb =>
        result := ConvertRgba();
        assert result == RgbaOutcome(token, uppercase, threeHex) && kind == before;
      case Rgba =>
        kind := Some(Hex);
        result := ConvertRgba();
        assert result == RgbaOutcome(token, uppercase, threeHex) && kind == Some(Hex);
    }
  }

  /** The classification and conversion `initiate` performs for one selected
      token: no converter when the token is no colour literal, otherwise one
      built with the sanitised opacity whose result is the conversion of the
      token. */
  method Initiate(token: string, config: Config, show: real -> string) returns (c: Converter?)
    ensures c == null <==> FirstMatch(token) == None
    ensures c != null ==> fresh(c) && c.original == token && Some((c.typeof, c.output)) == FirstMatch(token)
    ensures c != null ==> c.opacity == CheckOpacity(config.opacity)
    ensures c != null ==> c.uppercase == config.uppercase && c.threeHex == config.threeHex
    ensures c != null ==> c.kind == if c.typeof == Rgba then Some(Hex) else None
    ensures c != null && c.typeof == Hex ==> IsHexBody(LStrip(token, "#"))
    ensures c != null && c.typeof == Hex ==> c.payload == TextValue(Expanded(LStrip(token, "#")))
    ensures c != null && c.typeof != Hex ==> c.payload == Numbers(ChannelValues(token))
    ensures c != null && c.typeof == Hex ==> c.result == Converted(HexText(token, config.rgb, c.opacity, show))
    ensures c != null && c.typeof != Hex ==> c.result == RgbaOutcome(token, config.uppercase, config.threeHex)
  {
    var classification := Classify(token);
    if classification.None? {
      return null;
    }
    var (typeof, output) := classification.value;
    if typeof == Hex {
      HexLiteralBody(token);
    }
    c := new Converter(token, config.uppercase, config.threeHex, CheckOpacity(config.opacity), typeof, output);
    c.Convert(config.rgb, show);
  }
}
