/** The theme engine: colour conversion from `#RRGGBB` to the CSS `H S% L%`
    triple, the table of themes, and the provider that holds the current
    theme and writes it into the document's style as custom properties. */
module ThemeContext {
  import opened Wrappers
  import opened JsNumber

  // ---------------------------------------------------------------------------
  // Hexadecimal colours (CSS Color Module Level 4, section 5.2)

  predicate IsHexDigit(c: char) {
    '0' <= c <= '9' || 'a' <= c <= 'f' || 'A' <= c <= 'F'
  }

  /** The value `parseInt(_, 16)` gives one hexadecimal digit. */
  function HexDigitValue(c: char): (v: nat)
    requires IsHexDigit(c)
    ensures v < 16
  {
    if '0' <= c <= '9' then c as nat - '0' as nat
    else if 'a' <= c <= 'f' then c as nat - 'a' as nat + 10
    else c as nat - 'A' as nat + 10
  }

  /** A colour written as `#` and six hexadecimal digits. */
  predicate WellFormedHex(s: string) {
    |s| == 7 && s[0] == '#' && forall i :: 1 <= i < 7 ==> IsHexDigit(s[i])
  }

  /** `parseInt(hex.slice(i, i + 2), 16)`: the channel written at i and i + 1. */
  function Channel(hex: string, i: nat): (v: nat)
    requires WellFormedHex(hex) && 1 <= i <= 5
    ensures v <= 255
  {
    16 * HexDigitValue(hex[i]) + HexDigitValue(hex[i + 1])
  }

  function Red(hex: string): (v: nat)
    requires WellFormedHex(hex)
    ensures v <= 255
  {
    Channel(hex, 1)
  }

  function Green(hex: string): (v: nat)
    requires WellFormedHex(hex)
    ensures v <= 255
  {
    Channel(hex, 3)
  }

  function Blue(hex: string): (v: nat)
    requires WellFormedHex(hex)
    ensures v <= 255
  {
    Channel(hex, 5)
  }

  /** The lower-case hexadecimal digit for v. */
  function HexDigitChar(v: nat): (c: char)
    requires v < 16
    ensures IsHexDigit(c) && HexDigitValue(c) == v
  {
    if v < 10 then ('0' as nat + v) as char else ('a' as nat + v - 10) as char
  }

  /** The `#rrggbb` spelling of three channels. */
  function ToHex(r: nat, g: nat, b: nat): (hex: string)
    requires r <= 255 && g <= 255 && b <= 255
    ensures WellFormedHex(hex)
  {
    ['#', HexDigitChar(r / 16), HexDigitChar(r % 16), HexDigitChar(g / 16), HexDigitChar(g % 16),
     HexDigitChar(b / 16), HexDigitChar(b % 16)]
  }

  /** Decoding a written colour gives back its three channels. */
  lemma HexRoundTrip(r: nat, g: nat, b: nat)
    requires r <= 255 && g <= 255 && b <= 255
    ensures Red(ToHex(r, g, b)) == r && Green(ToHex(r, g, b)) == g && Blue(ToHex(r, g, b)) == b
  {
  }

  /** `parseInt(_, 16)` ignores case: 'A'..'F' are worth what 'a'..'f' are. */
  lemma HexDigitCaseInsensitive(c: char)
    requires 'A' <= c <= 'F'
    ensures IsHexDigit((c as int + 32) as char)
    ensures HexDigitValue(c) == HexDigitValue((c as int + 32) as char)
  {
  }

  /** An upper-case spelling decodes to the same channels as the lower-case
      one `ToHex` writes. */
  lemma HexRoundTripUpper(r: nat, g: nat, b: nat, hex: string)
    requires r <= 255 && g <= 255 && b <= 255
    requires |hex| == 7 && hex[0] == '#'
    requires forall i :: 1 <= i < 7 ==>
      hex[i] == ToHex(r, g, b)[i] || ('A' <= hex[i] <= 'F' && (hex[i] as int + 32) as char == ToHex(r, g, b)[i])
    ensures WellFormedHex(hex)
    ensures Red(hex) == r && Green(hex) == g && Blue(hex) == b
  {
    var lower := ToHex(r, g, b);
    HexRoundTrip(r, g, b);
    forall i | 1 <= i < 7 ensures IsHexDigit(hex[i]) && HexDigitValue(hex[i]) == HexDigitValue(lower[i]) {
      if hex[i] != lower[i] {
        HexDigitCaseInsensitive(hex[i]);
      }
    }
  }

  // ---------------------------------------------------------------------------
  // sRGB to HSL (CSS Color Module Level 4, section 7), over exact reals

  function Max3(a: real, b: real, c: real): (m: real)
    ensures m >= a && m >= b && m >= c
    ensures m == a || m == b || m == c
  {
    if a >= b && a >= c then a else if b >= c then b else c
  }

  function Min3(a: real, b: real, c: real): (m: real)
    ensures m <= a && m <= b && m <= c
    ensures m == a || m == b || m == c
  {
    if a <= b && a <= c then a else if b <= c then b else c
  }

  /** A quotient whose numerator is no larger in magnitude than its positive
      denominator lies in [-1, 1], with the numerator's sign. */
  lemma QuotientInUnit(a: real, b: real)
    requires 0.0 < b && -b <= a <= b
    ensures -1.0 <= a / b <= 1.0
    ensures a < 0.0 ==> a / b < 0.0
    ensures a >= 0.0 ==> a / b >= 0.0
  {
    assert (a / b) * b == a;
  }

  /** The hue, in sixths of a turn, when red is the largest channel. */
  function RedHue(r: real, g: real, b: real, d: real): real
    requires d > 0.0
  {
    (g - b) / d + (if g < b then 6.0 else 0.0)
  }

  /** The hue, in sixths of a turn, when green is the largest channel. */
  function GreenHue(r: real, g: real, b: real, d: real): real
    requires d > 0.0
  {
    (b - r) / d + 2.0
  }

  /** The hue, in sixths of a turn, when blue is the largest channel. */
  function BlueHue(r: real, g: real, b: real, d: real): real
    requires d > 0.0
  {
    (r - g) / d + 4.0
  }

  /** The `switch (max)`: red is tried first, then green, then blue. The
      hue lands in [0, 6) sixths of a turn, the red case wrapped by `+ 6`
      when green is below blue. */
  function HueSixths(r: real, g: real, b: real, max: real, d: real): (h: real)
    requires 0.0 <= r <= 1.0 && 0.0 <= g <= 1.0 && 0.0 <= b <= 1.0
    requires max == Max3(r, g, b) && d == max - Min3(r, g, b) && d > 0.0
    ensures 0.0 <= h < 6.0
  {
    if max == r then
      QuotientInUnit(g - b, d);
      RedHue(r, g, b, d)
    else if max == g then
      QuotientInUnit(b - r, d);
      GreenHue(r, g, b, d)
    else
      QuotientInUnit(r - g, d);
      BlueHue(r, g, b, d)
  }

  /** Hue, saturation and lightness as fractions of a turn and of one. */
  datatype HslFractions = HslFractions(h: real, s: real, l: real)

  /** The exact HSL of three channels given as fractions of one. */
  function ExactHsl(r: real, g: real, b: real): (c: HslFractions)
    requires 0.0 <= r <= 1.0 && 0.0 <= g <= 1.0 && 0.0 <= b <= 1.0
    ensures 0.0 <= c.h < 1.0 && 0.0 <= c.s <= 1.0 && 0.0 <= c.l <= 1.0
  {
    var max := Max3(r, g, b);
    var min := Min3(r, g, b);
    var l := (max + min) / 2.0;
    if max == min then HslFractions(0.0, 0.0, l)
    else
      var d := max - min;
      var s := if l > 0.5 then d / (2.0 - max - min) else d / (max + min);
      assert 0.0 <= s <= 1.0 by {
        if l > 0.5 { QuotientInUnit(d, 2.0 - max - min); } else { QuotientInUnit(d, max + min); }
      }
      var h := HueSixths(r, g, b, max, d);
      HslFractions(h / 6.0, s, l)
  }

  /** Where two channels tie for the largest, the formulas of both give the
      same hue, so the order the `switch` tries them in does not matter. */
  lemma TiedMaximaAgree(r: real, g: real, b: real)
    requires 0.0 <= r <= 1.0 && 0.0 <= g <= 1.0 && 0.0 <= b <= 1.0
    requires Max3(r, g, b) != Min3(r, g, b)
    ensures var d := Max3(r, g, b) - Min3(r, g, b);
      (r == g == Max3(r, g, b) ==> RedHue(r, g, b, d) == GreenHue(r, g, b, d) == 1.0) &&
      (r == b == Max3(r, g, b) ==> RedHue(r, g, b, d) == BlueHue(r, g, b, d) == 5.0) &&
      (g == b == Max3(r, g, b) ==> GreenHue(r, g, b, d) == BlueHue(r, g, b, d) == 3.0)
  {
    var d := Max3(r, g, b) - Min3(r, g, b);
    UnitQuotients(d);
  }

  /** A chroma divided by itself, with either sign. */
  lemma UnitQuotients(d: real)
    requires d > 0.0
    ensures d / d == 1.0 && (-d) / d == -1.0
  {
    assert -d == -1.0 * d;
  }

  /** The inverse direction of CSS Color 4's HSL-to-RGB conversion: with
      a = s * min(l, 1 - l), the largest channel is l + a and the smallest
      is l - a. */
  lemma ExtremesRecovered(r: real, g: real, b: real)
    requires 0.0 <= r <= 1.0 && 0.0 <= g <= 1.0 && 0.0 <= b <= 1.0
    ensures var c := ExactHsl(r, g, b);
      var a := c.s * (if c.l <= 1.0 - c.l then c.l else 1.0 - c.l);
      c.l + a == Max3(r, g, b) && c.l - a == Min3(r, g, b)
  {
    var max, min := Max3(r, g, b), Min3(r, g, b);
    var c := ExactHsl(r, g, b);
    if max != min {
      ChromaRecovered(max, min, c.s, c.l);
    }
  }

  /** The same, on the largest and smallest channel alone. */
  lemma ChromaRecovered(max: real, min: real, s: real, l: real)
    requires 0.0 <= min < max <= 1.0
    requires l == (max + min) / 2.0
    requires s == if l > 0.5 then (max - min) / (2.0 - max - min) else (max - min) / (max + min)
    ensures var a := s * (if l <= 1.0 - l then l else 1.0 - l);
      l + a == max && l - a == min
  {
    if l > 0.5 {
      assert s * (2.0 - max - min) == max - min;
    } else {
      assert s * (max + min) == max - min;
    }
  }

  /** The rounded triple `hexToHsl` prints. */
  datatype Hsl = Hsl(hue: int, saturation: int, lightness: int)

  /** `hexToHsl` on three decoded channels: hue in degrees, saturation and
      lightness in percent, each rounded by `Math.round`. */
  function RgbToHsl(red: nat, green: nat, blue: nat): (c: Hsl)
    requires red <= 255 && green <= 255 && blue <= 255
    ensures 0 <= c.hue <= 360 && 0 <= c.saturation <= 100 && 0 <= c.lightness <= 100
  {
    var e := ExactHsl(red as real / 255.0, green as real / 255.0, blue as real / 255.0);
    RoundWithin(e.h * 360.0, 0, 360);
    RoundWithin(e.s * 100.0, 0, 100);
    RoundWithin(e.l * 100.0, 0, 100);
    Hsl(Round(e.h * 360.0), Round(e.s * 100.0), Round(e.l * 100.0))
  }

  /** A grey has hue 0 and saturation 0, and its lightness is its channel
      value in percent. */
  lemma GreyHasNoHue(v: nat)
    requires v <= 255
    ensures RgbToHsl(v, v, v) == Hsl(0, 0, Round(100.0 * v as real / 255.0))
  {
  }

  /** The exact fractions of a pure channel of strength v: full
      saturation, lightness v / 2, and a hue of 0, 1/3 or 2/3 of a turn for
      red, green or blue. */
  lemma ExactPure(r: real, g: real, b: real, v: real)
    requires 0.0 < v <= 1.0
    requires (r, g, b) in {(v, 0.0, 0.0), (0.0, v, 0.0), (0.0, 0.0, v)}
    ensures ExactHsl(r, g, b).h == if r == v then 0.0 else if g == v then 2.0 / 6.0 else 4.0 / 6.0
    ensures ExactHsl(r, g, b).s == 1.0 && ExactHsl(r, g, b).l == v / 2.0
  {
    assert Max3(r, g, b) == v && Min3(r, g, b) == 0.0 by {
      if (r, g, b) == (v, 0.0, 0.0) {
      } else if (r, g, b) == (0.0, v, 0.0) {
      } else {
      }
    }
    assert v / v == 1.0;
  }

  /** `hexToHsl` rounds the exact fractions of its channels divided by 255. */
  lemma RgbToHslOfFractions(red: nat, green: nat, blue: nat, r: real, g: real, b: real)
    requires red <= 255 && green <= 255 && blue <= 255
    requires r == red as real / 255.0 && g == green as real / 255.0 && b == blue as real / 255.0
    ensures var e := ExactHsl(r, g, b);
      RgbToHsl(red, green, blue) == Hsl(Round(e.h * 360.0), Round(e.s * 100.0), Round(e.l * 100.0))
  {
  }

  /** Pure channels sit where CSS puts them: red at 0, green at 120 and
      blue at 240 degrees, fully saturated, with lightness half the
      channel's strength. */
  lemma PureHues(v: nat)
    requires 0 < v <= 255
    ensures RgbToHsl(v, 0, 0) == Hsl(0, 100, Round(50.0 * v as real / 255.0))
    ensures RgbToHsl(0, v, 0) == Hsl(120, 100, Round(50.0 * v as real / 255.0))
    ensures RgbToHsl(0, 0, v) == Hsl(240, 100, Round(50.0 * v as real / 255.0))
  {
    var x := v as real / 255.0;
    assert 0 as real / 255.0 == 0.0;
    assert x / 2.0 * 100.0 == 50.0 * v as real / 255.0;
    assert Round(0.0 * 360.0) == 0 && Round(2.0 / 6.0 * 360.0) == 120 && Round(4.0 / 6.0 * 360.0) == 240;
    assert Round(1.0 * 100.0) == 100;
    ExactPure(x, 0.0, 0.0, x);
    RgbToHslOfFractions(v, 0, 0, x, 0.0, 0.0);
    ExactPure(0.0, x, 0.0, x);
    RgbToHslOfFractions(0, v, 0, 0.0, x, 0.0);
    ExactPure(0.0, 0.0, x, x);
    RgbToHslOfFractions(0, 0, v, 0.0, 0.0, x);
  }

  function HexToHsl(hex: string): (c: Hsl)
    requires WellFormedHex(hex)
    ensures 0 <= c.hue <= 360 && 0 <= c.saturation <= 100 && 0 <= c.lightness <= 100
  {
    RgbToHsl(Red(hex), Green(hex), Blue(hex))
  }

  /** The template `${h} ${s}% ${l}%`. */
  function FormatHsl(c: Hsl): string
    requires c.hue >= 0 && c.saturation >= 0 && c.lightness >= 0
  {
    Decimal(c.hue) + " " + Decimal(c.saturation) + "% " + Decimal(c.lightness) + "%"
  }

  /** `hexToHsl(hex)`: the string written into a colour custom property. */
  function HslString(hex: string): string
    requires WellFormedHex(hex)
  {
    FormatHsl(HexToHsl(hex))
  }

  /** The longest prefix of decimal digits, and what follows it. */
  function SplitDigits(s: string): (p: (string, string))
    ensures p.0 + p.1 == s && AllDigits(p.0)
    ensures p.1 == [] || !IsDigit(p.1[0])
  {
    if s == [] || !IsDigit(s[0]) then ([], s)
    else
      var (d, rest) := SplitDigits(s[1..]);
      assert AllDigits([s[0]] + d) by {
        forall i | 0 <= i < |d| + 1 ensures IsDigit(([s[0]] + d)[i]) {
          if i > 0 { assert ([s[0]] + d)[i] == d[i - 1]; }
        }
      }
      ([s[0]] + d, rest)
  }

  /** A non-empty run of digits followed by the separator `sep`: the number
      and the text after the separator. */
  function ReadField(s: string, sep: string): Option<(nat, string)> {
    var (d, rest) := SplitDigits(s);
    if d == [] || |rest| < |sep| || rest[..|sep|] != sep then None
    else Some((DecimalValue(d), rest[|sep|..]))
  }

  /** A reader for strings of the form `${h} ${s}% ${l}%`: three runs of
      digits closed by " ", "% " and "%", and nothing after. */
  function ParseHsl(s: string): Option<Hsl> {
    var (h, r1) :- ReadField(s, " ");
    var (sat, r2) :- ReadField(r1, "% ");
    var (l, r3) :- ReadField(r2, "%");
    if r3 == [] then Some(Hsl(h, sat, l)) else None
  }

  /** Digits followed by text that does not start with a digit split there. */
  lemma {:induction false} SplitDigitsAt(d: string, r: string)
    requires AllDigits(d) && (r == [] || !IsDigit(r[0]))
    ensures SplitDigits(d + r) == (d, r)
  {
    if d == [] {
      assert d + r == r;
    } else {
      assert (d + r)[1..] == d[1..] + r;
      SplitDigitsAt(d[1..], r);
      assert [d[0]] + d[1..] == d;
    }
  }

  /** A printed number before its separator reads back as that number. */
  lemma ReadFieldAt(n: nat, sep: string, rest: string)
    requires |sep| > 0 && !IsDigit(sep[0])
    ensures ReadField(Decimal(n) + (sep + rest), sep) == Some((n, rest))
  {
    SplitDigitsAt(Decimal(n), sep + rest);
    assert (sep + rest)[..|sep|] == sep && (sep + rest)[|sep|..] == rest;
    DecimalRoundTrip(n);
  }

  /** Reading back the template gives the triple that was printed. */
  lemma FormatHslRoundTrip(c: Hsl)
    requires c.hue >= 0 && c.saturation >= 0 && c.lightness >= 0
    ensures ParseHsl(FormatHsl(c)) == Some(c)
  {
    var h, sat, l := Decimal(c.hue), Decimal(c.saturation), Decimal(c.lightness);
    var r2: string := l + "%";
    var r1: string := sat + ("% " + r2);
    assert FormatHsl(c) == h + (" " + r1);
    ReadFieldAt(c.hue, " ", r1);
    ReadFieldAt(c.saturation, "% ", r2);
    assert r2 == l + ("%" + []);
    ReadFieldAt(c.lightness, "%", []);
  }

  /** Different triples print differently. */
  lemma FormatHslInjective(c: Hsl, e: Hsl)
    requires c.hue >= 0 && c.saturation >= 0 && c.lightness >= 0
    requires e.hue >= 0 && e.saturation >= 0 && e.lightness >= 0
    ensures FormatHsl(c) == FormatHsl(e) ==> c == e
  {
    FormatHslRoundTrip(c);
    FormatHslRoundTrip(e);
  }

  /** The converted string reads back as a hue in [0, 360] and a saturation
      and lightness in [0, 100]. */
  lemma HslStringReadsBack(hex: string)
    requires WellFormedHex(hex)
    ensures var c := ParseHsl(HslString(hex));
      c == Some(HexToHsl(hex)) &&
      0 <= c.value.hue <= 360 && 0 <= c.value.saturation <= 100 && 0 <= c.value.lightness <= 100
  {
    FormatHslRoundTrip(HexToHsl(hex));
  }

  /** The accent colour of the default theme converts to "16 100% 60%". */
  lemma AccentHslString()
    ensures HslString("#ff6b35") == "16 100% 60%"
  {
    var hex := "#ff6b35";
    assert Red(hex) == 255 && Green(hex) == 107 && Blue(hex) == 53;
    var r, g, b := 255 as real / 255.0, 107 as real / 255.0, 53 as real / 255.0;
    assert r == 1.0;
    var d := 202.0 / 255.0;
    assert Max3(r, g, b) == 1.0 && Min3(r, g, b) == b && 1.0 - b == d;
    assert (1.0 + b) / 2.0 == 308.0 / 510.0;
    assert d / (2.0 - 1.0 - b) == 1.0;
    assert (g - b) / d == 54.0 / 202.0;
    assert ExactHsl(r, g, b) == HslFractions(54.0 / 202.0 / 6.0, 1.0, 308.0 / 510.0);
    assert Round(54.0 / 202.0 / 6.0 * 360.0) == 16;
    assert Round(1.0 * 100.0) == 100;
    assert Round(308.0 / 510.0 * 100.0) == 60;
    assert HexToHsl(hex) == Hsl(16, 100, 60);
    assert Decimal(16) == "16" && Decimal(100) == "100" && Decimal(60) == "60";
  }

  // ---------------------------------------------------------------------------
  // Themes

  datatype Theme = Theme(
    name: string,
    background: string,
    foreground: string,
    card: string,
    cardForeground: string,
    popover: string,
    popoverForeground: string,
    primary: string,
    primaryForeground: string,
    secondary: string,
    secondaryForeground: string,
    muted: string,
    mutedForeground: string,
    accent: string,
    accentForeground: string,
    border: string,
    input: string,
    ring: string,
    cardColors: seq<string>)

  /** The seventeen colours the provider converts, in the order it writes
      them. */
  function NamedColors(t: Theme): (colors: seq<string>)
    ensures |colors| == 17
  {
    [t.background, t.foreground, t.card, t.cardForeground, t.popover, t.popoverForeground, t.primary, t.primaryForeground, t.secondary, t.secondaryForeground, t.muted, t.mutedForeground, t.accent, t.accentForeground, t.border, t.input, t.ring]
  }

  predicate AllWellFormed(colors: seq<string>) {
    forall i :: 0 <= i < |colors| ==> WellFormedHex(colors[i])
  }

  /** A theme whose named colours can all be converted. */
  predicate ThemeWellFormed(t: Theme) {
    AllWellFormed(NamedColors(t))
  }

  /** The built-in themes, in menu order. */
  const Themes: seq<Theme> := [
    Theme(
      "Warm Beige",
      "#ede6d3", "#1a1a1a", "#ffffff", "#1a1a1a", "#ffffff", "#1a1a1a",
      "#ff6b35", "#ffffff", "#e8dcc4", "#1a1a1a", "#b8a890", "#5a5a5a",
      "#ff6b35", "#ffffff", "#d9ceb8", "#d9ceb8", "#ff6b35",
      ["#b8d4b8", "#adc3e0", "#e8a598", "#c4a7d8", "#f0d674", "#98d4c4"]),
    Theme(
      "Cool Mint",
      "#e8f5f0", "#0a2818", "#ffffff", "#0a2818", "#ffffff", "#0a2818",
      "#00a86b", "#ffffff", "#d4ebe2", "#0a2818", "#a8c0a8", "#4a6a4a",
      "#00a86b", "#ffffff", "#c0d8c0", "#c0d8c0", "#00a86b",
      ["#a8d5ba", "#b3d4f0", "#ffc0a9", "#d4b3f0", "#ffe4a1", "#a1e4d4"]),
    Theme(
      "Soft Pink",
      "#fef0f0", "#2d1810", "#ffffff", "#2d1810", "#ffffff", "#2d1810",
      "#e75480", "#ffffff", "#fde0e0", "#2d1810", "#e0c0c0", "#6a4a4a",
      "#e75480", "#ffffff", "#f0d0d0", "#f0d0d0", "#e75480",
      ["#ffc4d1", "#c4d1ff", "#ffd4a3", "#e4c4ff", "#fff4c4", "#c4ffe4"]),
    Theme(
      "Ocean Blue",
      "#e0f2fe", "#0c2a3d", "#ffffff", "#0c2a3d", "#ffffff", "#0c2a3d",
      "#0077be", "#ffffff", "#cce7f5", "#0c2a3d", "#a0c8e0", "#4a6a8a",
      "#0077be", "#ffffff", "#b0d8f0", "#b0d8f0", "#0077be",
      ["#a3d5ff", "#ffa3d5", "#a3ffd5", "#ffd5a3", "#d5a3ff", "#a3a3ff"]),
    Theme(
      "Dark Mode",
      "#1a1a1a", "#f0f0f0", "#2a2a2a", "#f0f0f0", "#2a2a2a", "#f0f0f0",
      "#ff6b35", "#1a1a1a", "#3a3a3a", "#f0f0f0", "#4a4a4a", "#a0a0a0",
      "#ff6b35", "#1a1a1a", "#3a3a3a", "#3a3a3a", "#ff6b35",
      ["#4a5a4a", "#4a5a6a", "#6a4a4a", "#5a4a6a", "#6a6a4a", "#4a6a6a"])
  ]

  /** The card colours of "Warm Beige" are well-formed too. */
  lemma WarmBeigeCardsWellFormed()
    ensures AllWellFormed(Themes[0].cardColors)
  {
    assert WellFormedHex("#b8d4b8");
    assert WellFormedHex("#adc3e0");
    assert WellFormedHex("#e8a598");
    assert WellFormedHex("#c4a7d8");
    assert WellFormedHex("#f0d674");
    assert WellFormedHex("#98d4c4");
  }

  /** Every colour of "Warm Beige" is well-formed: the seventeen named colours,
      which are converted, and the six card colours, which are written raw. */
  lemma WarmBeigeWellFormed()
    ensures ThemeWellFormed(Themes[0])
    ensures AllWellFormed(Themes[0].cardColors)
  {
    WarmBeigeCardsWellFormed();
    assert WellFormedHex("#ede6d3");
    assert WellFormedHex("#1a1a1a");
    assert WellFormedHex("#ffffff");
    assert WellFormedHex("#ff6b35");
    assert WellFormedHex("#e8dcc4");
    assert WellFormedHex("#b8a890");
    assert WellFormedHex("#5a5a5a");
    assert WellFormedHex("#d9ceb8");
  }

  /** The card colours of "Cool Mint" are well-formed too. */
  lemma CoolMintCardsWellFormed()
    ensures AllWellFormed(Themes[1].cardColors)
  {
    assert WellFormedHex("#a8d5ba");
    assert WellFormedHex("#b3d4f0");
    assert WellFormedHex("#ffc0a9");
    assert WellFormedHex("#d4b3f0");
    assert WellFormedHex("#ffe4a1");
    assert WellFormedHex("#a1e4d4");
  }

  /** Every colour of "Cool Mint" is well-formed: the seventeen named colours,
      which are converted, and the six card colours, which are written raw. */
  lemma CoolMintWellFormed()
    ensures ThemeWellFormed(Themes[1])
    ensures AllWellFormed(Themes[1].cardColors)
  {
    CoolMintCardsWellFormed();
    assert WellFormedHex("#e8f5f0");
    assert WellFormedHex("#0a2818");
    assert WellFormedHex("#ffffff");
    assert WellFormedHex("#00a86b");
    assert WellFormedHex("#d4ebe2");
    assert WellFormedHex("#a8c0a8");
    assert WellFormedHex("#4a6a4a");
    assert WellFormedHex("#c0d8c0");
  }

  /** The card colours of "Soft Pink" are well-formed too. */
  lemma SoftPinkCardsWellFormed()
    ensures AllWellFormed(Themes[2].cardColors)
  {
    assert WellFormedHex("#ffc4d1");
    assert WellFormedHex("#c4d1ff");
    assert WellFormedHex("#ffd4a3");
    assert WellFormedHex("#e4c4ff");
    assert WellFormedHex("#fff4c4");
    assert WellFormedHex("#c4ffe4");
  }

  /** Every colour of "Soft Pink" is well-formed: the seventeen named colours,
      which are converted, and the six card colours, which are written raw. */
  lemma SoftPinkWellFormed()
    ensures ThemeWellFormed(Themes[2])
    ensures AllWellFormed(Themes[2].cardColors)
  {
    SoftPinkCardsWellFormed();
    assert WellFormedHex("#fef0f0");
    assert WellFormedHex("#2d1810");
    assert WellFormedHex("#ffffff");
    assert WellFormedHex("#e75480");
    assert WellFormedHex("#fde0e0");
    assert WellFormedHex("#e0c0c0");
    assert WellFormedHex("#6a4a4a");
    assert WellFormedHex("#f0d0d0");
  }

  /** The card colours of "Ocean Blue" are well-formed too. */
  lemma OceanBlueCardsWellFormed()
    ensures AllWellFormed(Themes[3].cardColors)
  {
    assert WellFormedHex("#a3d5ff");
    assert WellFormedHex("#ffa3d5");
    assert WellFormedHex("#a3ffd5");
    assert WellFormedHex("#ffd5a3");
    assert WellFormedHex("#d5a3ff");
    assert WellFormedHex("#a3a3ff");
  }

  /** Every colour of "Ocean Blue" is well-formed: the seventeen named colours,
      which are converted, and the six card colours, which are written raw. */
  lemma OceanBlueWellFormed()
    ensures ThemeWellFormed(Themes[3])
    ensures AllWellFormed(Themes[3].cardColors)
  {
    OceanBlueCardsWellFormed();
    assert WellFormedHex("#e0f2fe");
    assert WellFormedHex("#0c2a3d");
    assert WellFormedHex("#ffffff");
    assert WellFormedHex("#0077be");
    assert WellFormedHex("#cce7f5");
    assert WellFormedHex("#a0c8e0");
    assert WellFormedHex("#4a6a8a");
    assert WellFormedHex("#b0d8f0");
  }

  /** The card colours of "Dark Mode" are well-formed too. */
  lemma DarkModeCardsWellFormed()
    ensures AllWellFormed(Themes[4].cardColors)
  {
    assert WellFormedHex("#4a5a4a");
    assert WellFormedHex("#4a5a6a");
    assert WellFormedHex("#6a4a4a");
    assert WellFormedHex("#5a4a6a");
    assert WellFormedHex("#6a6a4a");
    assert WellFormedHex("#4a6a6a");
  }

  /** Every colour of "Dark Mode" is well-formed: the seventeen named colours,
      which are converted, and the six card colours, which are written raw. */
  lemma DarkModeWellFormed()
    ensures ThemeWellFormed(Themes[4])
    ensures AllWellFormed(Themes[4].cardColors)
  {
    DarkModeCardsWellFormed();
    assert WellFormedHex("#1a1a1a");
    assert WellFormedHex("#f0f0f0");
    assert WellFormedHex("#2a2a2a");
    assert WellFormedHex("#ff6b35");
    assert WellFormedHex("#3a3a3a");
    assert WellFormedHex("#4a4a4a");
    assert WellFormedHex("#a0a0a0");
  }

  /** There are five themes, every one has six well-formed card colours and
      convertible named colours, and no two share a name. */
  lemma ThemesTableFacts()
    ensures |Themes| == 5
    ensures forall i :: 0 <= i < |Themes| ==>
      |Themes[i].cardColors| == 6 && ThemeWellFormed(Themes[i]) && AllWellFormed(Themes[i].cardColors)
    ensures forall i, j :: 0 <= i < j < |Themes| ==> Themes[i].name != Themes[j].name
  {
    WarmBeigeWellFormed();
    CoolMintWellFormed();
    SoftPinkWellFormed();
    OceanBlueWellFormed();
    DarkModeWellFormed();
  }

  /** The provider's starting theme: the first of the table, "Warm Beige". */
  function InitialTheme(): (t: Theme)
    ensures t == Themes[0] && t.name == "Warm Beige"
  {
    Themes[0]
  }

  // ---------------------------------------------------------------------------
  // The style table the provider writes

  /** The custom properties holding the named colours. */
  const NamedKeys: set<string> := {
    "--background", "--foreground", "--card", "--card-foreground", "--popover",
    "--popover-foreground", "--primary", "--primary-foreground", "--secondary",
    "--secondary-foreground", "--muted", "--muted-foreground", "--accent",
    "--accent-foreground", "--border", "--input", "--ring"}

  /** `hexToHsl` applied to each colour of a list, in order. */
  function Converted(colors: seq<string>): (hsl: seq<string>)
    requires AllWellFormed(colors)
    ensures |hsl| == |colors|
  {
    if colors == [] then [] else Converted(colors[..|colors| - 1]) + [HslString(colors[|colors| - 1])]
  }

  /** Each converted colour is the conversion of the colour at the same
      position. */
  lemma {:induction false} ConvertedAt(colors: seq<string>, i: nat)
    requires AllWellFormed(colors) && i < |colors|
    ensures Converted(colors)[i] == HslString(colors[i])
  {
    var n := |colors|;
    if i < n - 1 {
      ConvertedAt(colors[..n - 1], i);
    } else {
      var converted := Converted(colors[..n - 1]);
      assert |converted| == i;
    }
  }

  /** The named properties, holding the converted colours in order. */
  function NamedStyle(hsl: seq<string>): map<string, string>
    requires |hsl| == 17
  {
    map[
      "--background" := hsl[0],
      "--foreground" := hsl[1],
      "--card" := hsl[2],
      "--card-foreground" := hsl[3],
      "--popover" := hsl[4],
      "--popover-foreground" := hsl[5],
      "--primary" := hsl[6],
      "--primary-foreground" := hsl[7],
      "--secondary" := hsl[8],
      "--secondary-foreground" := hsl[9],
      "--muted" := hsl[10],
      "--muted-foreground" := hsl[11],
      "--accent" := hsl[12],
      "--accent-foreground" := hsl[13],
      "--border" := hsl[14],
      "--input" := hsl[15],
      "--ring" := hsl[16]]
  }

  /** The named style sets exactly the seventeen named properties. */
  lemma NamedStyleKeys(hsl: seq<string>)
    requires |hsl| == 17
    ensures NamedStyle(hsl).Keys == NamedKeys
  {
  }

  const CardKeyPrefix: string := "--card-color-"

  /** The custom property of the card colour at position i, numbered from 1. */
  function CardKey(i: nat): (key: string)
    ensures |key| > |CardKeyPrefix| && key[..|CardKeyPrefix|] == CardKeyPrefix
  {
    CardKeyPrefix + Decimal(i + 1)
  }

  /** What follows the prefix is the decimal numeral of i + 1: the cards are
      numbered 1, 2, 3, ... in order. */
  lemma CardKeyNumber(i: nat)
    ensures var key := CardKey(i);
      AllDigits(key[|CardKeyPrefix|..]) && DecimalValue(key[|CardKeyPrefix|..]) == i + 1
  {
    var digits := Decimal(i + 1);
    assert CardKey(i)[|CardKeyPrefix|..] == digits;
    DecimalRoundTrip(i + 1);
  }

  /** Different positions get different card properties. */
  lemma CardKeyInjective(i: nat, j: nat)
    ensures CardKey(i) == CardKey(j) ==> i == j
  {
    if CardKey(i) == CardKey(j) {
      assert Decimal(i + 1) == CardKey(i)[|CardKeyPrefix|..];
      assert Decimal(j + 1) == CardKey(j)[|CardKeyPrefix|..];
      DecimalInjective(i + 1, j + 1);
    }
  }

  /** No named colour property looks like a card colour property. */
  lemma NamedKeysAreNotCardKeys(i: nat)
    ensures CardKey(i) !in NamedKeys
  {
    var k := CardKey(i);
    assert k[..13] == "--card-color-";
  }

  /** The first k card colours, raw, under their numbered properties. */
  function CardStyle(colors: seq<string>, k: nat): (m: map<string, string>)
    requires k <= |colors|
    ensures m.Keys == CardKeys(k)
  {
    if k == 0 then map[] else CardStyle(colors, k - 1)[CardKey(k - 1) := colors[k - 1]]
  }

  /** The first k card properties. */
  function CardKeys(k: nat): set<string> {
    if k == 0 then {} else CardKeys(k - 1) + {CardKey(k - 1)}
  }

  /** The property of position i is among the first k exactly when i < k. */
  lemma {:induction false} CardKeysMembership(k: nat, i: nat)
    ensures CardKey(i) in CardKeys(k) <==> i < k
  {
    if k > 0 {
      CardKeysMembership(k - 1, i);
      CardKeyInjective(i, k - 1);
    }
  }

  /** The first k card properties are k different properties. */
  lemma {:induction false} CardKeysSize(k: nat)
    ensures |CardKeys(k)| == k
  {
    if k > 0 {
      CardKeysSize(k - 1);
      CardKeysMembership(k - 1, k - 1);
    }
  }

  /** No card property is a named one. */
  lemma {:induction false} CardKeysAreNotNamed(k: nat)
    ensures NamedKeys !! CardKeys(k)
  {
    if k > 0 {
      CardKeysAreNotNamed(k - 1);
      NamedKeysAreNotCardKeys(k - 1);
    }
  }

  /** Each of the first k card properties holds its own colour: a later
      write never overwrites an earlier one. */
  lemma {:induction false} CardStyleValue(colors: seq<string>, k: nat, i: nat)
    requires i < k <= |colors|
    ensures CardKey(i) in CardStyle(colors, k) && CardStyle(colors, k)[CardKey(i)] == colors[i]
  {
    var prev := CardStyle(colors, k - 1);
    assert CardStyle(colors, k) == prev[CardKey(k - 1) := colors[k - 1]];
    if i < k - 1 {
      CardStyleValue(colors, k - 1, i);
      CardKeyInjective(i, k - 1);
    }
  }

  /** Everything the provider's effect writes: the converted named colours
      and the raw card colours. */
  function Style(hsl: seq<string>, cards: seq<string>): map<string, string>
    requires |hsl| == 17
  {
    NamedStyle(hsl) + CardStyle(cards, |cards|)
  }

  /** Everything the provider's effect writes for a theme. */
  function ThemeStyle(t: Theme): map<string, string>
    requires ThemeWellFormed(t)
  {
    Style(Converted(NamedColors(t)), t.cardColors)
  }

  lemma CardsOverNamedKeys(named: map<string, string>, cards: map<string, string>, colors: seq<string>)
    requires cards == CardStyle(colors, |colors|)
    ensures (named + cards).Keys == named.Keys + CardKeys(|colors|)
  {
  }

  lemma CardsOverNamedNamed(named: map<string, string>, cards: map<string, string>, colors: seq<string>)
    requires cards == CardStyle(colors, |colors|)
    requires named.Keys !! CardKeys(|colors|)
    ensures forall k :: k in named ==> (named + cards)[k] == named[k]
  {
  }

  lemma CardsOverNamedCards(named: map<string, string>, cards: map<string, string>, colors: seq<string>)
    requires cards == CardStyle(colors, |colors|)
    ensures forall i :: 0 <= i < |colors| ==> CardKey(i) in named + cards && (named + cards)[CardKey(i)] == colors[i]
  {
    forall i | 0 <= i < |colors| ensures CardKey(i) in cards && cards[CardKey(i)] == colors[i] {
      CardStyleValue(colors, |colors|, i);
    }
  }

  /** The effect writes the named properties and one numbered property per
      card colour, and nothing else. With `NamedStyleKeys`, `CardKeysSize`
      and `CardKeysAreNotNamed`: seventeen named properties plus as many
      numbered ones as there are card colours, the two groups disjoint. */
  lemma StyleKeys(hsl: seq<string>, cards: seq<string>)
    requires |hsl| == 17
    ensures Style(hsl, cards).Keys == NamedStyle(hsl).Keys + CardKeys(|cards|)
  {
    CardsOverNamedKeys(NamedStyle(hsl), CardStyle(cards, |cards|), cards);
  }

  /** The named properties keep their converted colours and the numbered
      ones hold the card colours, in order. */
  lemma StyleValues(hsl: seq<string>, cards: seq<string>)
    requires |hsl| == 17
    ensures forall k :: k in NamedStyle(hsl) ==> k in Style(hsl, cards) && Style(hsl, cards)[k] == NamedStyle(hsl)[k]
    ensures forall i :: 0 <= i < |cards| ==>
      CardKey(i) in Style(hsl, cards) && Style(hsl, cards)[CardKey(i)] == cards[i]
  {
    var named, cardStyle := NamedStyle(hsl), CardStyle(cards, |cards|);
    NamedStyleKeys(hsl);
    CardKeysAreNotNamed(|cards|);
    CardsOverNamedNamed(named, cardStyle, cards);
    CardsOverNamedCards(named, cardStyle, cards);
  }

  /** Overwriting one entry after a union is overwriting it in the right
      operand. */
  lemma UpdateAfterUnion(m: map<string, string>, n: map<string, string>, k: string, v: string)
    ensures (m + n)[k := v] == m + n[k := v]
  {
  }

  lemma UnionEmpty(m: map<string, string>)
    ensures m + map[] == m
  {
  }

  lemma UnionAssociative(a: map<string, string>, b: map<string, string>, c: map<string, string>)
    ensures a + b + c == a + (b + c)
  {
  }

  /** The seventeen `setProperty` calls of the named colours, one after the
      other, amount to a union with the named style. */
  lemma NamedWrites(m: map<string, string>, hsl: seq<string>)
    requires |hsl| == 17
    ensures m
             ["--background" := hsl[0]]
             ["--foreground" := hsl[1]]
             ["--card" := hsl[2]]
             ["--card-foreground" := hsl[3]]
             ["--popover" := hsl[4]]
             ["--popover-foreground" := hsl[5]]
             ["--primary" := hsl[6]]
             ["--primary-foreground" := hsl[7]]
             ["--secondary" := hsl[8]]
             ["--secondary-foreground" := hsl[9]]
             ["--muted" := hsl[10]]
             ["--muted-foreground" := hsl[11]]
             ["--accent" := hsl[12]]
             ["--accent-foreground" := hsl[13]]
             ["--border" := hsl[14]]
             ["--input" := hsl[15]]
             ["--ring" := hsl[16]]
            == m + NamedStyle(hsl)
  {
  }

  /** The first half of the provider's effect: `setProperty` for each named
      colour, converted, in the order written. */
  method SetNamedProperties(before: map<string, string>, hsl: seq<string>) returns (m: map<string, string>)
    requires |hsl| == 17
    ensures m == before + NamedStyle(hsl)
  {
    NamedWrites(before, hsl);
    m := before;
    m := m["--background" := hsl[0]];
    m := m["--foreground" := hsl[1]];
    m := m["--card" := hsl[2]];
    m := m["--card-foreground" := hsl[3]];
    m := m["--popover" := hsl[4]];
    m := m["--popover-foreground" := hsl[5]];
    m := m["--primary" := hsl[6]];
    m := m["--primary-foreground" := hsl[7]];
    m := m["--secondary" := hsl[8]];
    m := m["--secondary-foreground" := hsl[9]];
    m := m["--muted" := hsl[10]];
    m := m["--muted-foreground" := hsl[11]];
    m := m["--accent" := hsl[12]];
    m := m["--accent-foreground" := hsl[13]];
    m := m["--border" := hsl[14]];
    m := m["--input" := hsl[15]];
    m := m["--ring" := hsl[16]];
  }

  /** The second half of the provider's effect: `setProperty` for each card
      colour, numbered from 1. */
  method SetCardProperties(before: map<string, string>, colors: seq<string>) returns (m: map<string, string>)
    ensures m == before + CardStyle(colors, |colors|)
  {
    m := before;
    UnionEmpty(before);
    var i := 0;
    while i < |colors|
      invariant 0 <= i <= |colors|
      invariant m == before + CardStyle(colors, i)
    {
      UpdateAfterUnion(before, CardStyle(colors, i), CardKey(i), colors[i]);
      assert CardStyle(colors, i + 1) == CardStyle(colors, i)[CardKey(i) := colors[i]];
      m := m[CardKey(i) := colors[i]];
      i := i + 1;
    }
  }

  /** The provider's effect on the root element's style: the named colours,
      converted, then the card colours. */
  method ApplyToStyle(before: map<string, string>, t: Theme) returns (m: map<string, string>)
    requires ThemeWellFormed(t)
    ensures m == before + ThemeStyle(t)
  {
    var hsl := Converted(NamedColors(t));
    m := SetNamedProperties(before, hsl);
    m := SetCardProperties(m, t.cardColors);
    UnionAssociative(before, NamedStyle(hsl), CardStyle(t.cardColors, |t.cardColors|));
  }

  // ---------------------------------------------------------------------------
  // The provider

  /** The theme provider: the current theme plus the parts of the document it
      writes, the root element's custom properties and the body's background. */
  class ThemeProvider {
    var theme: Theme
    var style: map<string, string>
    var bodyBackground: string

    /** The current theme is convertible and has been written out. */
    ghost predicate Valid()
      reads this
    {
      && ThemeWellFormed(theme)
      && (forall k :: k in ThemeStyle(theme) ==> k in style && style[k] == ThemeStyle(theme)[k])
      && bodyBackground == theme.background
    }

    /** Mounting: the first theme becomes current and is applied on top of
        whatever the document's style held. */
    constructor (documentStyle: map<string, string>, documentBackground: string)
      ensures Valid()
      ensures theme == InitialTheme()
      ensures style == documentStyle + ThemeStyle(InitialTheme())
      ensures bodyBackground == InitialTheme().background
    {
      WarmBeigeWellFormed();
      theme := Themes[0];
      style := documentStyle;
      bodyBackground := documentBackground;
      new;
      ApplyTheme();
    }

    /** The effect that runs whenever the theme changes. */
    method ApplyTheme()
      requires ThemeWellFormed(theme)
      modifies this
      ensures theme == old(theme)
      ensures style == old(style) + ThemeStyle(theme)
      ensures bodyBackground == theme.background
    {
      var t := theme;
      var m := ApplyToStyle(style, t);
      style, bodyBackground := m, t.background;
    }

    /** `setTheme`: the theme becomes current and the effect writes it out. */
    method SetTheme(t: Theme)
      requires Valid()
      requires ThemeWellFormed(t)
      modifies this
      ensures Valid()
      ensures theme == t
      ensures style == old(style) + ThemeStyle(t)
      ensures bodyBackground == t.background
    {
      theme := t;
      ApplyTheme();
    }
  }

  const MissingProviderMessage: string := "useTheme must be used within a ThemeProvider"

  /** `useTheme`: the enclosing provider, or the error it throws without one. */
  function UseTheme(context: Option<ThemeProvider>): (r: Result<ThemeProvider, string>)
    ensures r.Success? <==> context.Some?
    ensures r.Success? ==> r.value == context.value
    ensures r.Failure? ==> r.error == MissingProviderMessage
  {
    match context
    case Some(provider) => Success(provider)
    case None => Failure(MissingProviderMessage)
  }
}
