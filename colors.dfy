/**
 * ANSI colour escape strings (include/robotlog/colors.h): SGR ("Select Graphic
 * Rendition", ECMA-48 section 8.3.117) control sequences `ESC [ params m`.
 * Only the constants the level renderer uses, and the eight regular
 * foreground colours, are modelled.
 */
module Colors {
  import opened Wrappers
  import opened Decimal

  /** The C++ `short` taken by CUSTOMRGB. */
  newtype int16 = x: int | -0x8000 <= x < 0x8000

  const Esc: char := '\U{1B}'

  /** Control Sequence Introducer: ESC followed by '['. */
  const Csi: string := [Esc, '[']

  /** The SGR control sequence carrying the parameter string `params`. */
  function Sgr(params: string): string {
    Csi + params + "m"
  }

  /** An SGR sequence is CSI, then its parameters, then the final byte 'm'. */
  lemma SgrParts(params: string)
    ensures var r := Sgr(params);
      |r| == |params| + 3 && r[..2] == Csi && r[|r| - 1] == 'm' && r[2..|r| - 1] == params
  {
  }

  const Reset: string := "\U{1B}[0;0m"
  const Black: string := "\U{1B}[0;30m"
  const Red: string := "\U{1B}[0;31m"
  const Green: string := "\U{1B}[0;32m"
  const Yellow: string := "\U{1B}[0;33m"
  const Blue: string := "\U{1B}[0;34m"
  const Magenta: string := "\U{1B}[0;35m"
  const Cyan: string := "\U{1B}[0;36m"
  const White: string := "\U{1B}[0;37m"
  const HiGreen: string := "\U{1B}[0;92m"

  /** The eight regular foreground colours in declaration order. */
  const RegularColors: seq<string> := [Black, Red, Green, Yellow, Blue, Magenta, Cyan, White]

  /** Every colour constant of the model. */
  const AllColors: seq<string> := [Reset] + RegularColors + [HiGreen]

  /** Wraps `text` in `color` and a trailing Reset. */
  function Colorize(color: string, text: string): string {
    color + text + Reset
  }

  /** A colourised text splits back into the colour, the text and Reset. */
  lemma ColorizeParts(color: string, text: string)
    ensures var r := Colorize(color, text);
      |r| == |color| + |text| + |Reset| && r[..|color|] == color
      && r[|color|..|color| + |text|] == text && r[|color| + |text|..] == Reset
  {
  }

  /** The fixed head of a 24-bit foreground colour sequence, `ESC [ 3 8 ; 2 ;`. */
  const RgbPrefix: string := Csi + "38;2;"

  /** A 24-bit foreground colour (`38;2;r;g;b`, ISO/IEC 8613-6). */
  function CustomRgb(red: int16, green: int16, blue: int16): string {
    RgbPrefix + IntToString(red as int) + ";" + IntToString(green as int) + ";" + IntToString(blue as int) + "m"
  }

  /** CUSTOMRGB builds the SGR sequence of the 24-bit colour parameters. */
  lemma CustomRgbIsSgr(red: int16, green: int16, blue: int16)
    ensures CustomRgb(red, green, blue) == Sgr(RgbParams(red as int, green as int, blue as int))
  {
    RgbLayoutIsSgr(IntToString(red as int), IntToString(green as int), IntToString(blue as int));
  }

  lemma RgbLayoutIsSgr(r: string, g: string, b: string)
    ensures RgbPrefix + r + ";" + g + ";" + b + "m" == Sgr("38;2;" + r + ";" + g + ";" + b)
  {
    var q := r + ";" + g + ";" + b;
    assert "38;2;" + r + ";" + g + ";" + b == "38;2;" + q;
    assert RgbPrefix + r + ";" + g + ";" + b == RgbPrefix + q;
  }

  /** The SGR parameters of a 24-bit foreground colour. */
  function RgbParams(red: int, green: int, blue: int): string {
    "38;2;" + IntToString(red) + ";" + IntToString(green) + ";" + IntToString(blue)
  }

  /** Splits `s` at every occurrence of the delimiter `d`. */
  function Split(s: string, d: char): (r: seq<string>)
    ensures |r| >= 1
    decreases |s|
  {
    if |s| == 0 then [""]
    else
      var rest := Split(s[1..], d);
      if s[0] == d then [""] + rest else [[s[0]] + rest[0]] + rest[1..]
  }

  lemma {:induction false} SplitNoDelimiter(x: string, d: char)
    requires d !in x
    ensures Split(x, d) == [x]
    decreases |x|
  {
    if |x| > 0 {
      SplitNoDelimiter(x[1..], d);
      assert [x[0]] + x[1..] == x;
    }
  }

  lemma {:induction false} SplitAtDelimiter(x: string, d: char, y: string)
    requires d !in x
    ensures Split(x + [d] + y, d) == [x] + Split(y, d)
    decreases |x|
  {
    if |x| > 0 {
      assert (x + [d] + y)[1..] == x[1..] + [d] + y;
      SplitAtDelimiter(x[1..], d, y);
      assert [x[0]] + x[1..] == x;
    } else {
      assert x + [d] + y == [d] + y;
    }
  }

  /** Reads back the three components of a 24-bit foreground colour sequence. */
  function ParseRgb(s: string): Option<(int, int, int)> {
    if |s| < |RgbPrefix| + 1 || s[..|RgbPrefix|] != RgbPrefix || s[|s| - 1] != 'm' then None
    else
      var parts := Split(s[|RgbPrefix|..|s| - 1], ';');
      if |parts| != 3 then None
      else
        match (ParseInt(parts[0]), ParseInt(parts[1]), ParseInt(parts[2]))
        case (Some(r), Some(g), Some(b)) => Some((r, g, b))
        case _ => None
  }

  /** The layout of a 24-bit colour sequence around its three numbers. */
  lemma CustomRgbLayout(red: int16, green: int16, blue: int16)
    ensures var s := CustomRgb(red, green, blue);
      |s| >= |RgbPrefix| + 1 && s[..|RgbPrefix|] == RgbPrefix && s[|s| - 1] == 'm'
      && s[|RgbPrefix|..|s| - 1]
         == IntToString(red as int) + [';'] + (IntToString(green as int) + [';'] + IntToString(blue as int))
  {
    var r, g, b := IntToString(red as int), IntToString(green as int), IntToString(blue as int);
    var s := CustomRgb(red, green, blue);
    var mid := r + [';'] + (g + [';'] + b);
    assert s == RgbPrefix + mid + "m";
  }


  /** Three numbers joined by ';' split back into their three texts. */
  lemma SplitThree(r: string, g: string, b: string)
    requires ';' !in r && ';' !in g && ';' !in b
    ensures Split(r + [';'] + (g + [';'] + b), ';') == [r, g, b]
  {
    SplitAtDelimiter(r, ';', g + [';'] + b);
    SplitAtDelimiter(g, ';', b);
    SplitNoDelimiter(b, ';');
  }

  /** CUSTOMRGB loses nothing: its three components can be read back. */
  lemma CustomRgbRoundTrip(red: int16, green: int16, blue: int16)
    ensures ParseRgb(CustomRgb(red, green, blue)) == Some((red as int, green as int, blue as int))
  {
    var r, g, b := IntToString(red as int), IntToString(green as int), IntToString(blue as int);
    CustomRgbLayout(red, green, blue);
    IntToStringShape(red as int);
    IntToStringShape(green as int);
    IntToStringShape(blue as int);
    SplitThree(r, g, b);
    IntToStringRoundTrip(red as int);
    IntToStringRoundTrip(green as int);
    IntToStringRoundTrip(blue as int);
  }

  /** Reset is the SGR sequence with parameters "0;0". */
  lemma ResetIsSgr()
    ensures Reset == Sgr("0;0")
  {
  }

  /** The regular colours are `ESC [ 0 ; 3 d m` for d = 0..7, in order. */
  lemma RegularColorsAreSgr()
    ensures |RegularColors| == 8
    ensures forall i :: 0 <= i < 8 ==> RegularColors[i] == Sgr("0;3" + [DigitChar(i)])
  {
  }

  /** Every colour constant starts with the Control Sequence Introducer. */
  lemma ColorsStartWithCsi()
    ensures forall c :: c in AllColors ==> |c| >= 2 && c[..2] == Csi
  {
  }
}
