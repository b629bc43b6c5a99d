# vexlog: a Dafny model of the robot logger

vexlog is a header-only logging library for PROS robot programs. Application
code queues log records: a level, a message, a source file and a line. A
background worker task takes at most ten records from the head of the queue
per iteration, renders each through a format pattern, and writes it to the
console. Placeholders in the pattern are `<LEVEL>`, `<BLEVEL>`, `<CLEVEL>`,
`<CBLEVEL>`, `<FILE>`, `<LINE>` and `<MESSAGE>`. The level placeholders may
add ANSI colour escape sequences.

The model has these modules:

- `Wrappers`: `Option`.
- `Decimal`: decimal text of integers, which stands in for `std::to_string` and
  `ostringstream << int`. It also has the parser that reads that text back.
- `Colors`: the SGR escape strings of `include/robotlog/colors.h`, plus
  `colorize` and `CUSTOMRGB`.
- `TextReplace`: literal replace-all of a fixed placeholder. This is what each
  `std::regex_replace` call of `format` does for the patterns it is given.
- `LogMessages`: the `Level` enum, the `LogMessage` record, its four
  level-text helpers, and `format`.
- `Template`: a one-pass reference meaning for a pattern. The pattern is a
  sequence of literal and `<NAME>` tokens, and each recognised token is
  replaced by its field. The module proves that the seven sequential
  replace-all passes of `format` agree with this meaning for every pattern
  that can be spelt as such a token sequence, that is, every pattern in which
  each `<` opens a `<NAME>` tag, provided no substituted text contains a `<`
  that a later pass could pick up. A pattern with a stray `<`, such as
  `<<LEVEL>> <MESSAGE>` or `a < b <LINE>`, lies outside that theorem. For
  `<<LEVEL>> <MESSAGE>` a separate lemma works the passes through. The module
  also derives the behaviours that follow from the pass order:
  - repeated tags get the same value when the file name holds no `<`; a
    file name with `<` can splice with the pattern's text into a later tag;
  - the level tags do not interfere with each other;
  - the message is never re-expanded;
  - `<FUNC>` stays verbatim;
  - a file name is exposed to the later rules.
- `Logger`: the `LOGGER` object.
  - A pure state machine (`LoggerState`, `Step`, `Steps`) specifies one worker
    iteration and iterations in sequence.
  - The class `Logger` keeps the queue, the optional pattern and the written
    lines as fields. Its `AddLog`, `SetFormatString` and `WorkerStep` methods
    are proved to follow that machine.
  - `WorkerStep` keeps the source's loop over `min(10, |queue|)` records,
    reading the head and popping it each time.

The worker's renderer is the class's constant field `render`. The constructor
sets it to `Render`, which is `format` with its default colours. Stating the
state machine for any renderer keeps the queue and batching proofs separate
from the string proofs. `DefaultRendering` then states what `Render` writes
for the default pattern.

## Model

| member | source | states |
|---|---|---|
| Decimal.NatToString | include/robotlog/robotlog.h:68-72 | the decimal text of a natural is non-empty, all digits, and has no leading zero unless the number is 0 |
| Decimal.IntToString | include/robotlog/robotlog.h:68-72 | `ostringstream << int` and `std::to_string`: specified by Decimal.IntToStringShape (sign and digits) and Decimal.IntToStringRoundTrip (ParseInt reads it back) |
| Decimal.IntToStringShape | include/robotlog/robotlog.h:68-72 | the decimal text of an int is non-empty, starts with '-' exactly when the number is negative, and everything after that sign (the whole text for a non-negative number) is digits |
| Decimal.NatToStringRoundTrip | include/robotlog/robotlog.h:68-72 | reading the digits of a natural back gives the natural |
| Decimal.IntToStringRoundTrip | include/robotlog/robotlog.h:68-72 | reading the decimal text of any int back gives that int, so no information is lost |
| Decimal.IntToStringInjective | include/robotlog/robotlog.h:68-72 | distinct ints have distinct decimal texts |
| Colors.SgrParts | include/robotlog/colors.h:83-91 | an SGR sequence is CSI, then its parameters, then 'm', and splits back into those three parts |
| Colors.ColorizeParts | include/robotlog/colors.h:74-76 | colorize(color, text) is color, then text, then RESET, and splits back into those three parts |
| Colors.Colorize | include/robotlog/colors.h:74-76 | colorize: specified by Colors.ColorizeParts, the colour, then the text, then RESET |
| Colors.CustomRgbIsSgr | include/robotlog/colors.h:77-80 | CUSTOMRGB(r, g, b) is the SGR sequence with parameters `38;2;` dec(r) `;` dec(g) `;` dec(b) |
| Colors.CustomRgbLayout | include/robotlog/colors.h:77-80 | CUSTOMRGB's text is the fixed 24-bit prefix, the three decimal texts separated by ';', then 'm' |
| Colors.SplitThree | include/robotlog/colors.h:77-80 | three ';'-free texts joined by ';' split back into exactly those three texts |
| Colors.CustomRgbRoundTrip | include/robotlog/colors.h:77-80 | the three shorts of CUSTOMRGB can be read back from its output, for negative values too |
| Colors.CustomRgb | include/robotlog/colors.h:77-80 | CUSTOMRGB: specified by Colors.CustomRgbIsSgr (the SGR sequence `38;2;r;g;b`) and Colors.CustomRgbRoundTrip (ParseRgb recovers r, g, b) |
| Colors.ResetIsSgr | include/robotlog/colors.h:83 | RESET is ESC `[0;0m`, the SGR sequence with parameters "0;0" |
| Colors.RegularColorsAreSgr | include/robotlog/colors.h:84-91 | BLACK..WHITE are, in order, ESC `[0;3` d `m` for d = 0..7 |
| Colors.ColorsStartWithCsi | include/robotlog/colors.h:83-118 | every modelled colour constant (RESET, the eight regular colours, HI_GREEN) begins with ESC `[` |
| Colors.SplitNoDelimiter | include/robotlog/colors.h:77-80 | a text without the delimiter splits into itself alone |
| Colors.SplitAtDelimiter | include/robotlog/colors.h:77-80 | a delimiter-free head before a delimiter becomes the first piece of the split |
| TextReplace.ReplaceAllNoOccurrence | include/robotlog/robotlog.h:198-221 | a replacement pass over a text in which the placeholder does not occur returns the text unchanged |
| TextReplace.ReplaceAll | include/robotlog/robotlog.h:198-219 | each `regex_replace` of a placeholder: specified by TextReplace.ReplaceAllNoOccurrence, TextReplace.ReplaceAllSkipsPrefix and TextReplace.ReplaceAllAtMatch, and in sum by Template.FormatMatchesExpand |
| TextReplace.ReplaceAllSkipsPrefix | include/robotlog/robotlog.h:198-221 | text that cannot start a placeholder passes through a replacement pass untouched |
| TextReplace.ReplaceAllAtMatch | include/robotlog/robotlog.h:198-221 | an occurrence at the front is replaced, and scanning resumes after it |
| LogMessages.LevelName | include/robotlog/robotlog.h:75-92 | the plain level name is empty exactly for DATA, and otherwise consists of upper-case letters |
| LogMessages.LevelNameInjective | include/robotlog/robotlog.h:75-92 | the four ordered levels have pairwise distinct names |
| LogMessages.FormatOverridesInfoColor | include/robotlog/robotlog.h:112-173 | the helpers' own default INFO colours (GREEN at line 115, HI_GREEN at line 143) differ from format's WHITE (line 172), so a rendered INFO level is white; the other three levels get the same colours either way |
| LogMessages.LevelBrackets | include/robotlog/robotlog.h:94-110 | the bracket helper is "[" + the plain name + "]", and "" for DATA |
| LogMessages.LevelWithColors | include/robotlog/robotlog.h:112-138 | the coloured helper is colorize(the level's own colour parameter, the plain name), and "" for DATA |
| LogMessages.LevelFull | include/robotlog/robotlog.h:140-167 | the full helper is colorize(the level's own colour parameter, the bracketed name), and "" for DATA |
| LogMessages.LineTextReadsBack | include/robotlog/robotlog.h:68-72 | getLine's text reads back as the record's line |
| LogMessages.LineText | include/robotlog/robotlog.h:68-72 | getLine: specified by LogMessages.LineTextReadsBack, the text parses back to the line |
| LogMessages.Format | include/robotlog/robotlog.h:192-196 | a DATA record formats to its bare message, whatever the pattern |
| Template.FieldIndex | include/robotlog/robotlog.h:198-221 | a recognised placeholder name maps to one of the seven passes, which substitutes that very name |
| Template.FieldNameIndex | include/robotlog/robotlog.h:198-221 | each of the seven placeholder names is recognised as its own pass |
| Template.StagedZero | include/robotlog/robotlog.h:198-221 | before any pass, the staged text of a pattern is the pattern itself |
| Template.StagedAll | include/robotlog/robotlog.h:198-221 | after all seven passes, the staged text of a pattern is its one-pass expansion |
| Template.ReplacePassToken | include/robotlog/robotlog.h:198-221 | pass k changes one staged token exactly as the reference meaning says: its own tag is replaced, and every other token passes through |
| Template.ReplacePass | include/robotlog/robotlog.h:198-221 | pass k maps the staged text after k passes to the staged text after k+1 passes |
| Template.DistinctTagsDiffer | include/robotlog/robotlog.h:198-211 | an occurrence of one tag never matches a different tag name at the same position |
| Template.OtherTagPassesThrough | include/robotlog/robotlog.h:198-211 | replacing `<NAME>` leaves an occurrence of a different tag intact, e.g. `<LEVEL>` does not touch `<BLEVEL>`, `<CLEVEL>` or `<CBLEVEL>` |
| Template.SafeUpToFewer | include/robotlog/robotlog.h:198-221 | a pattern safe for k passes is safe for fewer |
| Template.TagConstants | include/robotlog/robotlog.h:198-221 | the seven placeholder constants are `<` + the recognised names + `>` |
| Template.FormatIsPasses | include/robotlog/robotlog.h:198-221 | format of a non-DATA record is the seven replacement passes applied in the source's order |
| Template.PassesStaged | include/robotlog/robotlog.h:198-221 | the first k passes applied to a safe pattern give its staged text after k passes |
| Template.FormatMatchesExpand | include/robotlog/robotlog.h:198-221 | for a non-DATA record and a safe pattern, format equals the one-pass expansion: every occurrence of a recognised placeholder becomes its field, and unrecognised tags and literals stay |
| Template.FieldValuesNoAngle | include/robotlog/robotlog.h:75-167 | the level texts and the line text contain no '<' when the colours contain none |
| Template.SafeWhenNoAngle | include/robotlog/robotlog.h:198-221 | every well-formed pattern is safe when the file name and the colours hold no '<' |
| Template.FormatPaletteNoAngle | include/robotlog/robotlog.h:169-173 | format's default colours hold no '<' |
| Template.FlattenConcat | include/robotlog/robotlog.h:198-221 | the text of concatenated token sequences is the concatenation of their texts |
| Template.ExpandConcat | include/robotlog/robotlog.h:198-221 | the reference expansion of concatenated token sequences is the concatenation of their expansions |
| Template.SafeConcat | include/robotlog/robotlog.h:198-221 | the concatenation of two safe patterns is safe |
| Template.Single | include/robotlog/robotlog.h:198-221 | a one-token pattern spells the token and expands to the token's expansion |
| Template.Snoc | include/robotlog/robotlog.h:198-221 | appending a safe token to a safe pattern keeps it safe and appends the token's text and expansion |
| Template.SnocField | include/robotlog/robotlog.h:198-221 | appending the i-th placeholder appends its field to the expansion |
| Template.SnocLit | include/robotlog/robotlog.h:198-221 | appending '<'-free literal text appends it unchanged |
| Template.SingleField | include/robotlog/robotlog.h:198-221 | a pattern holding only the i-th placeholder expands to the i-th field |
| Template.RepeatedTagSameValue | include/robotlog/robotlog.h:198-221 | two occurrences of one placeholder are replaced by the same text, when the file name and the colours hold no '<' |
| Template.LevelTagsIndependent | include/robotlog/robotlog.h:198-211 | `<LEVEL><BLEVEL><CLEVEL><CBLEVEL>` formats to the four level helpers' outputs side by side: each tag is expanded by its own rule |
| Template.FormatSingleTag | include/robotlog/robotlog.h:198-221 | a pattern of one safe tag formats to that tag's expansion |
| Template.MessageNotReexpanded | include/robotlog/robotlog.h:219-221 | `<MESSAGE>` formats to the message verbatim, whatever placeholders the message contains |
| Template.FuncTagVerbatim | include/robotlog/robotlog.h:180 | `<FUNC>` is documented but never substituted: it formats to itself |
| Template.NoPlaceholderUnchanged | include/robotlog/robotlog.h:198-221 | a pattern containing none of the seven placeholders is returned unchanged |
| Template.FileExposed | include/robotlog/robotlog.h:213-219 | the pattern `<FILE>` renders as the file name after the `<LINE>` and `<MESSAGE>` passes have run over it, for every file name |
| Template.FileExposedToLaterRules | include/robotlog/robotlog.h:213-218 | a file name that is itself `<LINE>` is expanded by the later `<LINE>` rule: `<FILE>` then formats to the line number |
| Template.FileExposedToMessage | include/robotlog/robotlog.h:213-219 | a file name that is itself `<MESSAGE>` is expanded by the `<MESSAGE>` rule: `<FILE>` then formats to the message |
| Template.FileAfterFilePass | include/robotlog/robotlog.h:213-214 | after the first five passes, the pattern `<FILE>` has become the file name |
| Template.FileSplicesMessageTag | include/robotlog/robotlog.h:198-219 | with the file name `<MESS`, the pattern `<FILE>AGE><FILE>` renders as the message then `<MESS`: the first file name and the literal after it form `<MESSAGE>`, so the two `<FILE>` tags get different texts unless the message is `<MESSAGE>` |
| Template.StrayAngleBefore | include/robotlog/robotlog.h:198-219 | a '<' right before a placeholder is copied, and the placeholder after it is still replaced |
| Template.AngleLevelPasses | include/robotlog/robotlog.h:198-219 | the seven passes turn `<<LEVEL>> <MESSAGE>` into `<` + level name + `> ` + message |
| Template.AngleBracketedLevel | include/robotlog/robotlog.h:198-219 | a pattern with a stray '<', `<<LEVEL>> <MESSAGE>`, formats to `<` + level name + `> ` + message: the stray '<' is copied, and the resulting `<INFO>` is left alone by the later passes |
| Logger.BatchSize | include/robotlog/robotlog.h:264-271 | one worker iteration takes min(10, queue length) records |
| Logger.RenderAllElements | include/robotlog/robotlog.h:273-279 | the worker writes one line per taken record, each the rendering of the record at the same position |
| Logger.RenderAllAppend | include/robotlog/robotlog.h:273-279 | rendering two record runs one after the other gives the lines of the joined run |
| Logger.RenderAll | include/robotlog/robotlog.h:273-279 | the lines one worker loop writes: specified by Logger.RenderAllElements and Logger.RenderAllAppend |
| Logger.ActivePattern | include/robotlog/robotlog.h:276 | the stored pattern, or the default one when none is stored: used by Logger.StepIsFifo and specified for the default by Logger.DefaultRendering |
| Logger.Render | include/robotlog/robotlog.h:275-276 | `msg.format(pattern)` with format's default colours: specified by Logger.DefaultRendering and the Template lemmas about Format |
| Logger.Step | include/robotlog/robotlog.h:264-279 | one worker iteration: specified by Logger.StepIsFifo |
| Logger.Steps | include/robotlog/robotlog.h:257-281 | n worker iterations: specified by Logger.StepsQueue, Logger.StepsOutput, Logger.EmptyAfter and Logger.FifteenTakesTwo |
| Logger.StepIsFifo | include/robotlog/robotlog.h:264-279 | one iteration removes exactly the first min(10, n) records, writes their renderings after the earlier output in queue order, keeps the rest of the queue, and keeps the pattern |
| Logger.StepsQueue | include/robotlog/robotlog.h:257-281 | after n iterations the first min(10 n, length) records are gone, the rest remain in order, and the pattern is unchanged |
| Logger.DrainedStep | include/robotlog/robotlog.h:264-271 | the first of n iterations takes one batch, and the remaining n-1 iterations take the rest |
| Logger.StepsOutput | include/robotlog/robotlog.h:257-281 | after n iterations the first min(10 n, length) records have each been written once, in queue order, after the earlier output |
| Logger.EmptyAfter | include/robotlog/robotlog.h:257-281 | the queue is empty after n iterations if and only if 10 n covers its length |
| Logger.FifteenTakesTwo | include/robotlog/robotlog.h:264-279 | a 15-record queue is not empty after one iteration and is empty after two, with all 15 records written in order |
| Logger.DefaultRendering | include/robotlog/robotlog.h:231-232 | with the default pattern, a non-DATA record is written as its coloured bracketed level, " ", the file, ":", the line, " - ", the message |
| Logger.FortyTwo | include/robotlog/robotlog.h:68-72 | the decimal text of 42 is "42" |
| Logger.DefaultRenderingExample | include/robotlog/robotlog.h:276 | an ERR record from sensor.c line 42 with message "disk full" is written as RED "[ERR]" RESET " sensor.c:42 - disk full" |
| Logger.InitRecord | include/robotlog/robotlog.h:290-291 | the constructor's record: specified through Logger.Logger.constructor, a DEBUG record with message "Initalized VexLog @ " + dec(millis) + "ms" |
| Logger.Logger.constructor | include/robotlog/robotlog.h:289-292 | a new logger has the default pattern, no output, and one DEBUG record "Initalized VexLog @ <millis>ms" queued |
| Logger.Logger.AddLog | include/robotlog/robotlog.h:307-314 | addlog appends exactly one record with the given level, message, file and line at the tail, and leaves the earlier records, the pattern and the output unchanged |
| Logger.Logger.SetFormatString | include/robotlog/robotlog.h:325-333 | the call returns true and sets the pattern exactly when the lock is obtained; otherwise it returns false and the pattern is unchanged; the queue and the output never change |
| Logger.Logger.WorkerStep | include/robotlog/robotlog.h:264-279 | the loop leaves the logger in the state Step describes: the first min(10, n) records popped and rendered with the stored or default pattern, in queue order |

## Left out

- PROS runtime: `pros::Task`, `pros::delay` and the endless `while (true)` of
  `workerTask` are not modelled. One iteration is `WorkerStep`, and repetition
  is `Steps`. The empty-queue branch of the loop only delays, so it is omitted.
- `pros::millis()` is the constructor parameter `millis`, bounded by the
  32-bit range of its result.
- The `pros::Mutex` of `setFormatString`: whether `take(5000)` succeeds is the
  input `lockTaken`. The lock itself, its timeout and `give` are not modelled.
- Concurrency: the queue is shared between callers and the worker task without
  synchronisation. The model is sequential.
- `std::cout`: each written line is appended to the `output` field. The
  trailing newline is omitted.
- `addlog` stringifies any `T` through `std::ostringstream`. The model takes the
  message as an already-built string, because floating point and iostream
  formatting are out of scope.
- `std::regex_replace`: each rule is a literal replace-all of the placeholder.
  `$&`, `$1` or `$$` in a level text, a file name, a line or a message would be
  read by the regex engine as format escapes. The model treats them as plain
  text.
- Preprocessor: the `__FILENAME__` macro and the logging macros at
  include/robotlog/robotlog.h:346-406 are not modelled. The constructor's
  record uses the file name "robotlog.h" and the line 309, where `addlog`'s
  default arguments are written.
- Out-of-range `Level` values: the `default:` branches of the four level
  helpers are unreachable for the five-valued `Level`, so they are omitted.
- `LogMessage`'s optional fields: the only constructor sets every one, so the
  getters' `value_or` defaults are unreachable and the fields are plain.
- The fields `consoleLogLevel`, `fileLogLevel`, `filePath`, `COLOR_*` and
  `logmutex` of `LOGGER` are never read, so they are not modelled.
- `src/main.cpp` is not part of this model. It exercises a different API and
  contains no logic of the library.
- Colour constants: only RESET, the eight regular colours and HI_GREEN are
  modelled. These are the constants the renderer's defaults use, plus BLACK,
  BLUE and CYAN to complete the regular set.
- Colors.ColorsStartWithCsi: covers only the modelled constants, not the bold,
  underline, background and high-intensity variants.
- Int widths: `short` and `int` are the newtypes `int16` and `int32`. The
  worker's `short loopindices` never exceeds 10, so its narrowing is
  irrelevant.
- Logger.Logger.WorkerStep: proved against any renderer held in `render`,
  which the constructor sets to `Render`, that is `format` with its default
  colours.
- Template.FormatMatchesExpand: covers only patterns that are the spelling of
  a well-formed token sequence, that is, patterns in which every '<' opens a
  `<NAME>` tag with no '<' or '>' in the name. A stray '<', as in
  `<<LEVEL>> <MESSAGE>` or `a < b <LINE>`, puts a pattern outside the theorem;
  `AngleBracketedLevel` covers the first of these. The theorem also requires
  a safe pattern, meaning that no text substituted before `<MESSAGE>` contains
  '<'. `FileExposed`, `FileExposedToLaterRules` and `FileExposedToMessage`
  show what happens otherwise.
- Logger.DefaultRendering: requires a file name without '<', for the same
  reason.
- Template.RepeatedTagSameValue: requires a file name without '<'. The
  property does not hold without it: `FileSplicesMessageTag` gives a file
  name for which the two occurrences of `<FILE>` render differently.
