/**
 * The log record and its template renderer (struct LogMessage in
 * include/robotlog/robotlog.h): the level, the already stringified message,
 * the source file and line, the four level-text helpers and `format`.
 */
module LogMessages {
  import opened Wrappers
  import opened Decimal
  import opened Colors
  import opened TextReplace

  /** The C++ `int` holding a source line. */
  newtype int32 = x: int | -0x8000_0000 <= x < 0x8000_0000

  /**
   * Severity. Data is not a severity: it marks a record whose message is
   * written verbatim, without any template or colour.
   */
  datatype Level = Debug | Info | Warn | Err | Data

  /** One log record; every field is set when it is built. */
  datatype LogMessage = LogMessage(level: Level, message: string, file: string, line: int32)

  /** One colour per ordered level, as the helpers' four colour arguments. */
  datatype Palette = Palette(err: string, warn: string, info: string, debug: string)

  /** Default colours of getLevelAsStringWithColors. */
  const WithColorsPalette: Palette := Palette(Red, Yellow, Green, Magenta)

  /** Default colours of getLevelAsStringFull: Info is high-intensity green here. */
  const FullPalette: Palette := Palette(Red, Yellow, HiGreen, Magenta)

  /** Default colours of format: Info is white here. */
  const FormatPalette: Palette := Palette(Red, Yellow, White, Magenta)

  /** The colour a palette assigns to an ordered level. */
  function ColorFor(l: Level, p: Palette): string
    requires l != Data
  {
    match l
    case Err => p.err
    case Warn => p.warn
    case Info => p.info
    case Debug => p.debug
  }

  /** getLevelAsString: the plain level name; empty for Data. */
  function LevelName(l: Level): (r: string)
    ensures (r == "") == (l == Data)
    ensures forall c :: c in r ==> 'A' <= c <= 'Z'
  {
    match l
    case Debug => "DEBUG"
    case Info => "INFO"
    case Warn => "WARN"
    case Err => "ERR"
    case Data => ""
  }

  /** getLevelAsStringBrackets: the level name in square brackets; empty for Data. */
  function LevelBrackets(l: Level): (r: string)
    ensures r == if l == Data then "" else "[" + LevelName(l) + "]"
  {
    match l
    case Debug => "[DEBUG]"
    case Info => "[INFO]"
    case Warn => "[WARN]"
    case Err => "[ERR]"
    case Data => ""
  }

  /** getLevelAsStringWithColors: the level name coloured for its level; empty for Data. */
  function LevelWithColors(l: Level, p: Palette): (r: string)
    ensures r == if l == Data then "" else Colorize(ColorFor(l, p), LevelName(l))
  {
    match l
    case Debug => p.debug + "DEBUG" + Reset
    case Info => p.info + "INFO" + Reset
    case Warn => p.warn + "WARN" + Reset
    case Err => p.err + "ERR" + Reset
    case Data => ""
  }

  /** getLevelAsStringFull: the bracketed level name coloured for its level; empty for Data. */
  function LevelFull(l: Level, p: Palette): (r: string)
    ensures r == if l == Data then "" else Colorize(ColorFor(l, p), LevelBrackets(l))
  {
    match l
    case Debug => p.debug + "[DEBUG]" + Reset
    case Info => p.info + "[INFO]" + Reset
    case Warn => p.warn + "[WARN]" + Reset
    case Err => p.err + "[ERR]" + Reset
    case Data => ""
  }

  /** Ordered levels have pairwise distinct names. */
  lemma LevelNameInjective(a: Level, b: Level)
    requires a != Data && b != Data && LevelName(a) == LevelName(b)
    ensures a == b
  {
  }

  /**
   * format passes its own colours to the coloured helpers, so an INFO level
   * is white in a rendered line, not the helpers' green or high-intensity
   * green; the other three levels get the helpers' default colours.
   */
  lemma FormatOverridesInfoColor()
    ensures LevelWithColors(Info, FormatPalette) == Colorize(White, "INFO")
    ensures LevelWithColors(Info, WithColorsPalette) == Colorize(Green, "INFO")
    ensures LevelFull(Info, FormatPalette) == Colorize(White, "[INFO]")
    ensures LevelFull(Info, FullPalette) == Colorize(HiGreen, "[INFO]")
    ensures LevelWithColors(Info, FormatPalette) != LevelWithColors(Info, WithColorsPalette)
    ensures LevelFull(Info, FormatPalette) != LevelFull(Info, FullPalette)
    ensures forall l :: l != Info ==> LevelWithColors(l, FormatPalette) == LevelWithColors(l, WithColorsPalette)
    ensures forall l :: l != Info ==> LevelFull(l, FormatPalette) == LevelFull(l, FullPalette)
  {
    assert White[5] != Green[5] && White[5] != HiGreen[5];
    assert LevelWithColors(Info, FormatPalette)[5] != LevelWithColors(Info, WithColorsPalette)[5];
    assert LevelFull(Info, FormatPalette)[5] != LevelFull(Info, FullPalette)[5];
  }

  /** getLine: the source line as decimal text. */
  function LineText(m: LogMessage): string {
    IntToString(m.line as int)
  }

  /** The line text reads back as the line. */
  lemma LineTextReadsBack(m: LogMessage)
    ensures ParseInt(LineText(m)) == Some(m.line as int)
  {
    IntToStringRoundTrip(m.line as int);
  }

  const LevelTag: string := "<LEVEL>"
  const BLevelTag: string := "<BLEVEL>"
  const CLevelTag: string := "<CLEVEL>"
  const CBLevelTag: string := "<CBLEVEL>"
  const FileTag: string := "<FILE>"
  const LineTag: string := "<LINE>"
  const MessageTag: string := "<MESSAGE>"

  /**
   * format: a Data record is its bare message; any other record has each
   * recognised placeholder of `pattern` replaced, one pass per placeholder in
   * the fixed order LEVEL, BLEVEL, CLEVEL, CBLEVEL, FILE, LINE, MESSAGE.
   */
  function Format(m: LogMessage, pattern: string, colors: Palette): (r: string)
    ensures m.level == Data ==> r == m.message
  {
    if m.level == Data then m.message
    else
      var s1 := ReplaceAll(pattern, LevelTag, LevelName(m.level));
      var s2 := ReplaceAll(s1, BLevelTag, LevelBrackets(m.level));
      var s3 := ReplaceAll(s2, CLevelTag, LevelWithColors(m.level, colors));
      var s4 := ReplaceAll(s3, CBLevelTag, LevelFull(m.level, colors));
      var s5 := ReplaceAll(s4, FileTag, m.file);
      var s6 := ReplaceAll(s5, LineTag, LineText(m));
      ReplaceAll(s6, MessageTag, m.message)
  }
}
