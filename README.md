# Zuso colour-literal converter, modelled in Dafny

Zuso is a Sublime Text plugin. It looks at the selected text in a CSS or
Sass file. If the text is a hex colour (`#f0a`, `#ff00aa`), it rewrites it
as `rgb(...)` or `rgba(...)`. If the text is `rgb(...)` or `rgba(...)`, it
rewrites it as hex. This project models the part of `Zuso.py` that makes
that decision and does the arithmetic:

- the three recognisers `HEX_REGEX`, `RGB_REGEX` and `RGBA_REGEX`, and the
  sequential tests of `initiate` that pick the source and target notation;
- the class `Converter`: `hex2rgba`, `rgba2hex`, `convert_hex`,
  `convert_rgba` and `convert`;
- the opacity sanitiser `check_opacity`.

Modules, in dependency order:

- `Wrappers`: `Option`.
- `Text`: `str.lstrip(chars)` and the digit doubling of a three-digit body.
- `HexDigits`: the two digit tables (`hex_seq`), digit values and `int(s, 16)`.
- `Decimal`: `str(n)`, `int(s, 10)` and `re.findall("[0-9]+", s)`.
- `Settings`: the settings record and `check_opacity`.
- `Classifier`: the recognisers and the classification.
- `Conversion`:
  - functions that say what each conversion step computes;
  - the class `Converter`, with the plugin's methods as imperative Dafny
    methods proved against those functions;
  - `Initiate` for one selected token.
- `Properties`: lemmas that combine the steps. These cover digit doubling,
  the hex -> channels -> hex round trip, and the full round trip of a hex
  literal through the `rgb(...)` text the converter writes for it. That text
  is recognised again as rgb. Converting it back gives a hex literal whose
  digits are the original ones in the configured letter case. A six-digit
  literal comes back with six digits when `three_hex` is off, and a
  three-digit literal with three digits when it is on. With `three_hex` on,
  a six-digit literal comes back with six digits exactly when one of its
  pairs has two different digits. So a literal already in the configured
  case comes back unchanged in three cases:
  - it has three digits and `three_hex` is on;
  - it has six digits and `three_hex` is off;
  - it has six digits, `three_hex` is on, and its pairs do not all repeat
    (`#123456`).

  Otherwise it changes: `#abc` comes back as `#aabbcc` with `three_hex` off,
  and `#aabbcc` as `#abc` with it on.

## Modelling choices

- Each regex is a recogniser written by hand.
  - `\s` is ASCII whitespace (tab through carriage return, and space);
    `\d` is an ASCII digit.
  - A group `\d{1,3}` may take one, two or three digits. This is why the
    rgb recogniser also accepts `rgb(12,3)`: the groups are `1`, `2` and `3`.
  - The separator `\s*,?\s*` is skipped greedily. That is exact here,
    because a digit must follow it in every pattern.
- `props['string']` holds text until `convert_rgba` replaces it with a tuple
  of integers. It is modelled as the datatype `Payload`.
- `self.result` is the datatype `Outcome`:
  - `Pending` before `convert` runs;
  - the converted text;
  - `OutOfRange(v)` for the `False` that `convert_rgba` returns when a number
    is above 255;
  - `TooFewChannels` for the `IndexError` that `rgba2hex(1)` or
    `rgba2hex(2)` raises (Zuso.py:324-325) when fewer than three numbers
    were found.
- `self.type` is the field `kind`.
- The module-level `rgb` setting is a parameter of `Convert` and
  `ConvertHex`.
- The `%s` rendering of the float opacity is a parameter `show`.

Two behaviours of the code are worth knowing:

- `convert_rgba` checks **every** digit run against 255, the digits of the
  alpha part included. So `rgba(10,20,30,0.2567)` is refused, with the
  value 2567.
- `rgb(12,3)` matches `RGB_REGEX` but yields only the two numbers 12 and 3.
  The conversion then fails for want of a third channel (`TooFewChannels`).
  `rgb(123)` matches too, with the groups `1`, `2` and `3`, and yields the
  single number 123; there `rgba2hex(1)` already fails.

## Model

| member | source | states |
|---|---|---|
| Settings.CheckOpacity | Zuso.py:33-42 | the result is in [0,1]; it is the configured opacity when that lies in [0,1], and 1 otherwise |
| Settings.CheckOpacityIdempotent | Zuso.py:33-42 | sanitising an already sanitised opacity changes nothing |
| Text.LStrip | Zuso.py:300 | `lstrip`: the result is a suffix of the input, everything dropped is in the character set, and the result does not start with a character of the set |
| Text.LStripPrefix | Zuso.py:300 | a prefix made of set characters, followed by a character outside the set, is exactly what `lstrip` removes |
| Text.Doubled | Zuso.py:277-281 | the doubling loop's string has twice the length, and character i is input character i/2 |
| HexDigits.Alphabet | Zuso.py:251 | `hex_seq` has 16 entries |
| HexDigits.AlphabetDigit | Zuso.py:251 | entry k of either table is a hex digit of value k, in that table's letter case |
| HexDigits.DigitValue | Zuso.py:282 | a hex digit's value is below 16 |
| HexDigits.ParseHex | Zuso.py:282 | `int(s, 16)` of n digits is below 16^n |
| HexDigits.ParsePair | Zuso.py:282 | `int(xy, 16)` is 16 times the value of x plus the value of y |
| HexDigits.Nibbles | Zuso.py:291-292 | the quotient and remainder of `16a + b` by 16 are a and b |
| HexDigits.SameDigit | Zuso.py:251 | two hex digits with the same value and the same letter case are the same character |
| HexDigits.NormalDigit | Zuso.py:251 | a digit looked up again in the chosen table keeps its value and takes the chosen case |
| HexDigits.Normalised | Zuso.py:251 | rewriting a digit string in one table keeps its length, every digit's value, and puts every letter in the chosen case |
| Decimal.ParseDecimal | Zuso.py:315 | `int(v, 10)` of n digits is below 10^n |
| Decimal.Show | Zuso.py:304 | `str(n)` is a non-empty digit string that parses back to n, with no leading zero unless n is 0; one digit below 10, at most three below 1000 |
| Decimal.LeadingDigits | Zuso.py:315 | the longest digit prefix is all digits and is followed by a non-digit or the end |
| Decimal.DigitRuns | Zuso.py:315 | every run `findall("[0-9]+")` returns is a non-empty digit string |
| Decimal.RunsSkip | Zuso.py:315 | a prefix without digits contributes no run |
| Decimal.LeadingDigitsOf | Zuso.py:315 | a digit string followed by a non-digit is the whole leading digit prefix |
| Decimal.RunsDigits | Zuso.py:315 | a digit string followed by a non-digit is the first run, and the runs continue with those of the rest |
| Classifier.SkipSpaces | Zuso.py:15-16 | `\s*` consumes exactly the run of whitespace that starts at i |
| Classifier.IsHexLiteral | Zuso.py:14 | `HEX_REGEX.match`: a match is `#` then three or six hex digits of either case; with `HexLiteralBody` and `HexLiteralOfBody` it holds exactly for `#` plus such a body |
| Classifier.HexLiteralOfBody | Zuso.py:14 | `#` followed by three or six hex digits matches `HEX_REGEX`, and its body is what follows the `#` |
| Classifier.SkipSeparator | Zuso.py:15-16 | the separator `\s*,?\s*` ends at or after where it starts and within the text |
| Classifier.SeparatorShape | Zuso.py:15-16 | the separator takes only spaces and at most one comma, and as many as there are: the next character is no space, and no comma unless one was taken |
| Classifier.RgbGroups | Zuso.py:16 | the groups of `RGB_REGEX` from i: a match starts with a digit, ends with `)`, and leaves room for n+2 characters at least |
| Classifier.AlphaClose | Zuso.py:15 | the alpha part of `RGBA_REGEX`: a match starts with `0` or `1` and ends with `)` |
| Classifier.RgbaGroups | Zuso.py:15 | the channel groups and alpha part of `RGBA_REGEX` from i: a match starts with a digit, ends with `)`, and leaves room for n+2 characters at least |
| Classifier.IsRgbLiteral | Zuso.py:16 | `RGB_REGEX.match`: a match has at least 8 characters and ends with `)` |
| Classifier.IsRgbaLiteral | Zuso.py:15 | `RGBA_REGEX.match`: a match has at least 10 characters and ends with `)` |
| Classifier.CheckIfRgba | Zuso.py:65-77 | test 0 holds iff the rgb pattern matches, test 1 iff the rgba pattern matches; a token passing either is not a hex literal and does not pass the other |
| Classifier.PatternsDisjoint | Zuso.py:14-16 | no token matches two of the three patterns |
| Classifier.Classify | Zuso.py:87-95 | the last-match-wins tests give the first-match classification: (hex, rgba) iff the hex pattern matches, (rgb, hex) iff rgb matches, (rgba, hex) iff rgba matches, nothing iff none matches |
| Classifier.FirstMatch | Zuso.py:87-95 | the classification is none iff no pattern matches; the source is hex iff the hex pattern matches; the target is hex iff the source is not hex |
| Classifier.NoMatchExamples | Zuso.py:14-16 | `red`, `hsla(0,0%,0%,1)` and `#ggg` are not colour literals |
| Conversion.Expanded | Zuso.py:277-281 | a three-digit body becomes six digits, digit i being body digit i/2; any other body is unchanged |
| Conversion.Channels | Zuso.py:282 | the three channels read from a hex body are each below 256 |
| Conversion.IsHexBody | Zuso.py:277-282 | the bodies `hex2rgba` can read: hex digits, three of them or at least six (definition; `HexLiteralBody` shows a hex literal's body is one) |
| Conversion.HexText | Zuso.py:300-307 | the text `convert_hex` returns: `rgb(r,g,b)` or `rgba(r,g,b,a)` of the channels by the `rgb` setting (definition; `HexTextClassified`, `RgbTextValues` and `HexRgbaTextValues` state what it means) |
| Conversion.Clamp | Zuso.py:290 | the clamped value is in [0,255] and equals v when v is already in range |
| Conversion.Rgba2Hex | Zuso.py:284-293 | two hex digits, the high and the low nibble of the clamped value, in the configured case, that parse back to the clamped value |
| Conversion.HexLiteral | Zuso.py:327-336 | the three-digit form exactly when `three_hex` is on and all three pairs repeat their digit, otherwise `#`+a+b+c; the short form doubles back to a+b+c; the result is a hex literal |
| Conversion.FirstOver255 | Zuso.py:317-321 | no value iff every number is at most 255; a value found is above 255 and is the first such number: every number before it is at most 255 |
| Conversion.ChannelValues | Zuso.py:315 | the numbers `convert_rgba` finds: every digit run after the leading letters of `rgba`, in base 10 (definition; `RgbTextValues`, `TwoNumberValues` state its values) |
| Conversion.ValuesOutcome | Zuso.py:317-336 | for the numbers found: never pending; refused iff some number is above 255, naming the first such number; too few channels iff all are in range and fewer than three; otherwise a hex literal |
| Conversion.RgbaOutcome | Zuso.py:315-336 | the answer of `convert_rgba` for a token: `ValuesOutcome` of all the numbers found in it, alpha digits included (its cases are `RgbaOutcomeCases`) |
| Conversion.PairsAreHex | Zuso.py:323-336 | three digit pairs joined are hex digits |
| Conversion.RgbaOutcomeCases | Zuso.py:315-336 | for a token, `convert_rgba` always finishes; it refuses iff some number, alpha digits included, is above 255, naming the first such number; it fails for want of channels iff all numbers are in range and fewer than three; its text is a hex literal |
| Conversion.HexLiteralBody | Zuso.py:300 | stripping `#` from a hex literal leaves its three or six digits |
| Conversion.RangeCheck | Zuso.py:317-321 | the range loop returns the first number above 255, or none |
| Conversion.JoinPairs | Zuso.py:327-336 | the collapse loop with its early return builds exactly the literal `HexLiteral` describes |
| Conversion.Converter.constructor | Zuso.py:243-251 | the properties as given, no result, no type |
| Conversion.Converter.Hex2Rgba | Zuso.py:272-282 | the stored text becomes the expanded body; the channels and the opacity are returned |
| Conversion.Converter.ConvertHex | Zuso.py:295-307 | the stored text becomes the stripped, expanded body; the result is `rgb(r,g,b)` or `rgba(r,g,b,a)` by the `rgb` setting |
| Conversion.Converter.ConvertRgba | Zuso.py:310-336 | the stored text becomes the numbers found in it; the outcome is the one `RgbaOutcomeCases` characterises |
| Conversion.Converter.Convert | Zuso.py:255-270 | dispatch on the source notation: a hex token's stored text becomes its stripped, expanded body and the result its `rgb(...)`/`rgba(...)` text; an rgb or rgba token's stored text becomes its numbers and the result `RgbaOutcome`; the type becomes hex only for an rgba token |
| Conversion.Initiate | Zuso.py:85-110 | no converter iff the token is no colour literal; otherwise a new converter for the token with the first-match notations, the configured `uppercase` and `three_hex`, the sanitised opacity, the type hex only for an rgba token, and the stored text and result `convert` leaves |
| Properties.PairNibbles | Zuso.py:282 | a two-digit hex string's value is below 256, and its nibbles are the values of its digits |
| Properties.PairNormalised | Zuso.py:282-293 | reading a digit pair and writing it back with `rgba2hex` gives the pair in the configured case |
| Properties.DigitDoubling | Zuso.py:277-282 | the body `xyz` has the channels of `xxyyzz`, each a digit value times 17 |
| Properties.PairsOfBody | Zuso.py:282-293 | the three pairs written back for a body are the expanded body in the configured case |
| Properties.HexRoundTrip | Zuso.py:282-336 | six digits, read and written back with `three_hex` off, give `#` and the digits in the configured case |
| Properties.DoubledPair | Zuso.py:277-293 | pair k of an expanded three-digit body is written back as digit k twice |
| Properties.ShortHexRoundTrip | Zuso.py:277-335 | three digits, read and written back with `three_hex` on, give `#` and the three digits in the configured case |
| Properties.DoubledHexRoundTrip | Zuso.py:277-336 | three digits, read and written back with `three_hex` off, give `#` and the six doubled digits |
| Properties.NormalisedInCase | Zuso.py:289-293 | digits already in the configured case are left as they are |
| Properties.LiteralInCase | Zuso.py:289-293 | a hex literal in the configured case is `#` plus its normalised body |
| Properties.LastGroup | Zuso.py:16 | one to three digits and `)` match the last rgb group |
| Properties.GroupStep | Zuso.py:16 | after one to three digits and a comma, the separator ends where the next digit starts |
| Properties.NextGroup | Zuso.py:16 | a group followed by n-1 matching groups makes n groups |
| Properties.ChainGroups | Zuso.py:16 | three groups with their separators match the rgb pattern's groups |
| Properties.TripleGroups | Zuso.py:16 | the text `R,G,B)` matches the groups when R, G and B have one to three digits |
| Properties.TripleMatches | Zuso.py:16 | `rgb(R,G,B)` matches `RGB_REGEX` |
| Properties.RgbTextMatches | Zuso.py:304 | the text `convert_hex` writes for channels below 256 matches `RGB_REGEX` |
| Properties.StripFunctionName | Zuso.py:315 | `lstrip('rgba')` of `rgb(...)` leaves `(...)` |
| Properties.RunsAfterSeparator | Zuso.py:315 | a separator and a digit string begin a new run |
| Properties.RunsOfTriple | Zuso.py:315 | the digit runs of `(R,G,B)` are R, G and B |
| Properties.ValuesOfRuns | Zuso.py:315 | the numbers `convert_rgba` finds are the values of the runs |
| Properties.RgbTextValues | Zuso.py:304-315 | the numbers found in `rgb(r,g,b)` text are r, g and b |
| Properties.RunsOfQuad | Zuso.py:315 | the digit runs of `(R,G,B,x)` begin with R, G and B, whatever `x` holds |
| Properties.ValuesOfLeadingRuns | Zuso.py:315 | when the runs begin with R, G and B, the first three numbers `convert_rgba` finds are their values |
| Properties.StripRgbaName | Zuso.py:315 | `lstrip('rgba')` of `rgba(...)` leaves `(...)` |
| Properties.RgbaTextValues | Zuso.py:307-315 | the first three numbers found in `rgba(r,g,b,alpha)` text are r, g and b, whatever text renders the opacity |
| Properties.HexRgbaTextValues | Zuso.py:295-315 | the `rgba(...)` text written for a hex literal with the `rgb` setting off holds the literal's channels as its first three numbers |
| Properties.HexTextClassified | Zuso.py:295-304 | the `rgb(...)` text written for a hex literal is classified (rgb, hex) |
| Properties.ValuesConverted | Zuso.py:317-336 | numbers all in range, at least three, give the hex literal of the first three |
| Properties.OutcomeOfValues | Zuso.py:317-336 | three numbers below 256 give the hex literal of their pairs |
| Properties.HexThroughRgb | Zuso.py:295-336 | converting a hex literal to `rgb(...)` and back gives the hex literal of its channel pairs |
| Properties.HexRoundTripThroughRgb | Zuso.py:295-336 | hex -> `rgb(...)` -> hex gives the body in the configured case (six digits with `three_hex` off, the three digits of a short literal with it on, the six doubled digits of a short literal with it off); a literal already in that case comes back unchanged when `three_hex` is on exactly for three-digit literals |
| Properties.FullLiteralThreeHex | Zuso.py:295-336 | with `three_hex` on, a six-digit literal in the configured case comes back unchanged iff one of its pairs has two different digits |
| Properties.InCasePairs | Zuso.py:282-336 | the pairs written back for a six-digit literal in the configured case are its own digits, and with `three_hex` on they rebuild it iff one pair has two different digits |
| Properties.InCaseBodyPairs | Zuso.py:282-293 | the pairs written back for a six-digit literal in the configured case spell its body |
| Properties.CollapseOfPairs | Zuso.py:327-336 | with `three_hex` on, the literal built from three pairs is `#` and those pairs iff some pair has two different digits |
| Properties.TwoNumberRgbMatches | Zuso.py:16 | `rgb(12,3)` matches `RGB_REGEX`, with the groups `1`, `2` and `3` |
| Properties.TwoNumberStrip | Zuso.py:315 | `lstrip('rgba')` of `rgb(12,3)` is `(12,3)` |
| Properties.TwoNumberTail | Zuso.py:315 | `findall("[0-9]+")` of `(12,3)` is `12`, `3` |
| Properties.TwoNumberRuns | Zuso.py:315 | the digit runs `convert_rgba` finds in `rgb(12,3)` are `12` and `3` |
| Properties.TwoNumberValues | Zuso.py:315 | a token with the runs `12` and `3` holds the numbers 12 and 3 |
| Properties.TwoNumberOutcome | Zuso.py:315-325 | converting `rgb(12,3)` fails for want of a third channel |

## Left out

- The editor plumbing is not modelled, because it is host I/O and UI:
  - `ZusoListener` and `ZusoCommand`, with completions, the running
    animation, `handle_threads` and `replace`;
  - `error` and its status-bar message. The value that message names is
    kept in `OutOfRange`.
- The `Thread` base class is not modelled; conversion is synchronous.
- Settings loading is not modelled. The settings, and the `rgb` global,
  are passed in. `active` and `inline_comments` are not used by the core.
- `is_valid_file` and `FILE_REGEX` are left out: they are a file-type
  filter outside the conversion.
- The selection loop of `initiate`, which returns the converter of the
  first matching selection, is not modelled. `Initiate` models its body
  for one token.
- The `%s` text of the float opacity is not modelled; `show` stands for it.
- Opacities that are not numbers are not modelled: opacity is a `real`.
- `Conversion.Initiate`: the plugin's `typeof` variable starts as `False`
  and `convert` has a fall-through `self.result = False`. The model cannot
  reach that fall-through, because `typeof` is always one of the three
  notations there.
- `Converter.Convert`: Python's `is` comparison of strings is modelled as
  equality.
- Classifier recognisers:
  - `$` also matching before a trailing newline is not modelled;
  - Unicode digits and spaces, which `\d` and `\s` also match, are not
    modelled.
- Decimal.ParseDecimal models `int(v, 10)` only on the digit runs
  `findall` returns. The leniency of `int` for signs and spaces cannot
  arise there.
- Concrete end-to-end examples, such as `rgb(255,0,0)` giving `#ff0000`, are
  not stated. They follow from `RgbTextValues`, which reads the numbers back
  out of `rgb(r,g,b)` text, and `OutcomeOfValues`, which converts three
  numbers in range.
