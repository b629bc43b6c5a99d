/**
 * A reference reading of format patterns, and what LogMessages.Format is
 * proved to do against it.
 *
 * A pattern is read as a sequence of tokens: literal text with no '<', and
 * tags `<NAME>` whose name holds neither '<' nor '>'. The reference
 * rendering Expand replaces each tag by the value of the field it names, in
 * one left-to-right pass, and leaves unrecognised tags (such as `<FUNC>`)
 * as they are. Format instead makes seven replace-all passes over the whole
 * string; the main theorem says the two agree whenever the text substituted by
 * an earlier pass cannot be mistaken for a later tag.
 */
module Template {
  import opened Wrappers
  import opened Decimal
  import opened Colors
  import opened TextReplace
  import opened LogMessages

  datatype Token = Lit(text: string) | Tag(name: string)

  function TagText(name: string): string {
    "<" + name + ">"
  }

  predicate TokenWellFormed(t: Token) {
    match t
    case Lit(s) => '<' !in s
    case Tag(n) => '<' !in n && '>' !in n
  }

  predicate WellFormed(ts: seq<Token>) {
    forall j :: 0 <= j < |ts| ==> TokenWellFormed(ts[j])
  }

  function TokenText(t: Token): string {
    match t
    case Lit(s) => s
    case Tag(n) => TagText(n)
  }

  /** The pattern text a token sequence spells. */
  function Flatten(ts: seq<Token>): string {
    if ts == [] then "" else TokenText(ts[0]) + Flatten(ts[1..])
  }

  /** The recognised placeholder names, in the order Format substitutes them. */
  function FieldName(i: nat): string
    requires i < 7
  {
    match i
    case 0 => "LEVEL"
    case 1 => "BLEVEL"
    case 2 => "CLEVEL"
    case 3 => "CBLEVEL"
    case 4 => "FILE"
    case 5 => "LINE"
    case _ => "MESSAGE"
  }

  /** The position of a recognised placeholder name; None for any other name. */
  function FieldIndex(name: string): (r: Option<nat>)
    ensures r.Some? ==> r.value < 7 && FieldName(r.value) == name
  {
    if name == "LEVEL" then Some(0)
    else if name == "BLEVEL" then Some(1)
    else if name == "CLEVEL" then Some(2)
    else if name == "CBLEVEL" then Some(3)
    else if name == "FILE" then Some(4)
    else if name == "LINE" then Some(5)
    else if name == "MESSAGE" then Some(6)
    else None
  }

  lemma FieldNameIndex(i: nat)
    requires i < 7
    ensures FieldIndex(FieldName(i)) == Some(i)
  {
  }

  /** The text the i-th recognised placeholder stands for. */
  function FieldValue(i: nat, m: LogMessage, p: Palette): string
    requires i < 7
  {
    match i
    case 0 => LevelName(m.level)
    case 1 => LevelBrackets(m.level)
    case 2 => LevelWithColors(m.level, p)
    case 3 => LevelFull(m.level, p)
    case 4 => m.file
    case 5 => LineText(m)
    case _ => m.message
  }

  function ExpandToken(t: Token, m: LogMessage, p: Palette): string {
    match t
    case Lit(s) => s
    case Tag(n) =>
      match FieldIndex(n)
      case Some(i) => FieldValue(i, m, p)
      case None => TagText(n)
  }

  /** Reference rendering: every token expanded on its own, in one pass. */
  function Expand(ts: seq<Token>, m: LogMessage, p: Palette): string {
    if ts == [] then "" else ExpandToken(ts[0], m, p) + Expand(ts[1..], m, p)
  }

  /**
   * The text substituted for a tag by any of the first k passes contains no
   * '<', so no later pass can find a placeholder in it.
   */
  predicate TokenSafeUpTo(t: Token, k: nat, m: LogMessage, p: Palette) {
    TokenWellFormed(t) &&
    (t.Tag? && FieldIndex(t.name).Some? && FieldIndex(t.name).value < k ==>
      '<' !in FieldValue(FieldIndex(t.name).value, m, p))
  }

  predicate SafeUpTo(ts: seq<Token>, k: nat, m: LogMessage, p: Palette) {
    forall j :: 0 <= j < |ts| ==> TokenSafeUpTo(ts[j], k, m, p)
  }

  /**
   * A well-formed pattern whose substituted texts cannot be mistaken for a
   * later placeholder. The message is substituted last and is exempt.
   */
  predicate SafePattern(ts: seq<Token>, m: LogMessage, p: Palette) {
    SafeUpTo(ts, 6, m, p)
  }

  predicate PaletteNoAngle(p: Palette) {
    '<' !in p.err && '<' !in p.warn && '<' !in p.info && '<' !in p.debug
  }

  // ---------------------------------------------------------------------------
  // Proof device: the pattern after the first k passes.

  ghost function StagedToken(t: Token, k: nat, m: LogMessage, p: Palette): string {
    match t
    case Lit(s) => s
    case Tag(n) =>
      match FieldIndex(n)
      case Some(i) => if i < k then FieldValue(i, m, p) else TagText(n)
      case None => TagText(n)
  }

  ghost function Staged(ts: seq<Token>, k: nat, m: LogMessage, p: Palette): string {
    if ts == [] then "" else StagedToken(ts[0], k, m, p) + Staged(ts[1..], k, m, p)
  }

  lemma {:induction false} StagedZero(ts: seq<Token>, m: LogMessage, p: Palette)
    ensures Staged(ts, 0, m, p) == Flatten(ts)
  {
    if ts != [] {
      StagedZero(ts[1..], m, p);
    }
  }

  lemma {:induction false} StagedAll(ts: seq<Token>, m: LogMessage, p: Palette)
    ensures Staged(ts, 7, m, p) == Expand(ts, m, p)
  {
    if ts != [] {
      StagedAll(ts[1..], m, p);
    }
  }

  /** Two different well-formed tags never match at the same position. */
  lemma DistinctTagsDiffer(n: string, name: string, y: string)
    requires '<' !in n && '>' !in n && '<' !in name && '>' !in name && n != name
    requires |TagText(n) + y| >= |TagText(name)|
    ensures (TagText(n) + y)[..|TagText(name)|] != TagText(name)
  {
    var x, pat := TagText(n), TagText(name);
    var s := x + y;
    if |x| == |pat| {
      assert s[..|pat|] == x;
      assert x[1..|x| - 1] == n && pat[1..|pat| - 1] == name;
    } else if |x| > |pat| {
      assert x[|pat| - 1] == n[|pat| - 2];
      assert s[..|pat|][|pat| - 1] != pat[|pat| - 1];
    } else {
      assert pat[|x| - 1] == name[|x| - 2];
      assert s[..|pat|][|x| - 1] != pat[|x| - 1];
    }
  }

  /** A tag other than the pattern's passes through a replace-all pass unchanged. */
  lemma OtherTagPassesThrough(n: string, name: string, y: string, rep: string)
    requires '<' !in n && '>' !in n && '<' !in name && '>' !in name && n != name
    ensures ReplaceAll(TagText(n) + y, TagText(name), rep) == TagText(n) + ReplaceAll(y, TagText(name), rep)
  {
    var x, pat := TagText(n), TagText(name);
    var s := x + y;
    if |s| >= |pat| {
      DistinctTagsDiffer(n, name, y);
      assert ReplaceAll(s, pat, rep) == [s[0]] + ReplaceAll(s[1..], pat, rep);
      assert s[1..] == x[1..] + y;
      assert x[1..] == n + ">";
      ReplaceAllSkipsPrefix(x[1..], y, pat, rep);
      assert [x[0]] + x[1..] == x;
    } else {
      assert ReplaceAll(s, pat, rep) == s;
      assert ReplaceAll(y, pat, rep) == y;
    }
  }

  /** Pass k, met at one token followed by any text, handles that token and moves on. */
  lemma ReplacePassToken(t: Token, rest: string, k: nat, m: LogMessage, p: Palette)
    requires k < 7 && TokenSafeUpTo(t, k, m, p)
    ensures ReplaceAll(StagedToken(t, k, m, p) + rest, TagText(FieldName(k)), FieldValue(k, m, p))
         == StagedToken(t, k + 1, m, p) + ReplaceAll(rest, TagText(FieldName(k)), FieldValue(k, m, p))
  {
    var pat, rep := TagText(FieldName(k)), FieldValue(k, m, p);
    match t
    case Lit(s) =>
      ReplaceAllSkipsPrefix(s, rest, pat, rep);
    case Tag(n) =>
      match FieldIndex(n)
      case Some(i) =>
        if i < k {
          ReplaceAllSkipsPrefix(FieldValue(i, m, p), rest, pat, rep);
        } else if i == k {
          ReplaceAllAtMatch(rest, pat, rep);
        } else {
          OtherTagPassesThrough(n, FieldName(k), rest, rep);
        }
      case None =>
        OtherTagPassesThrough(n, FieldName(k), rest, rep);
  }

  /** Pass k turns the pattern as it stands after k passes into the one after k + 1. */
  lemma {:induction false} ReplacePass(ts: seq<Token>, k: nat, m: LogMessage, p: Palette)
    requires k < 7 && SafeUpTo(ts, k, m, p)
    ensures ReplaceAll(Staged(ts, k, m, p), TagText(FieldName(k)), FieldValue(k, m, p))
         == Staged(ts, k + 1, m, p)
  {
    if ts != [] {
      assert TokenSafeUpTo(ts[0], k, m, p);
      ReplacePass(ts[1..], k, m, p);
      ReplacePassToken(ts[0], Staged(ts[1..], k, m, p), k, m, p);
    }
  }

  /** Safety for more passes implies safety for fewer. */
  lemma SafeUpToFewer(ts: seq<Token>, k: nat, k': nat, m: LogMessage, p: Palette)
    requires k <= k' && SafeUpTo(ts, k', m, p)
    ensures SafeUpTo(ts, k, m, p)
  {
    forall j | 0 <= j < |ts|
      ensures TokenSafeUpTo(ts[j], k, m, p)
    {
      assert TokenSafeUpTo(ts[j], k', m, p);
    }
  }

  /** The placeholder constants Format searches for are the tags of the field names. */
  lemma TagConstants()
    ensures LevelTag == TagText(FieldName(0)) && BLevelTag == TagText(FieldName(1))
    ensures CLevelTag == TagText(FieldName(2)) && CBLevelTag == TagText(FieldName(3))
    ensures FileTag == TagText(FieldName(4)) && LineTag == TagText(FieldName(5))
    ensures MessageTag == TagText(FieldName(6))
  {
  }

  /** The first k passes of Format, in order. */
  ghost function Passes(pattern: string, k: nat, m: LogMessage, p: Palette): string
    requires k <= 7
  {
    if k == 0 then pattern
    else ReplaceAll(Passes(pattern, k - 1, m, p), TagText(FieldName(k - 1)), FieldValue(k - 1, m, p))
  }

  lemma FormatIsPasses(m: LogMessage, pattern: string, p: Palette)
    requires m.level != Data
    ensures Format(m, pattern, p) == Passes(pattern, 7, m, p)
  {
    TagConstants();
    var l := m.level;
    assert Passes(pattern, 1, m, p) == ReplaceAll(pattern, LevelTag, LevelName(l));
    assert Passes(pattern, 2, m, p) == ReplaceAll(Passes(pattern, 1, m, p), BLevelTag, LevelBrackets(l));
    assert Passes(pattern, 3, m, p) == ReplaceAll(Passes(pattern, 2, m, p), CLevelTag, LevelWithColors(l, p));
    assert Passes(pattern, 4, m, p) == ReplaceAll(Passes(pattern, 3, m, p), CBLevelTag, LevelFull(l, p));
    assert Passes(pattern, 5, m, p) == ReplaceAll(Passes(pattern, 4, m, p), FileTag, m.file);
    assert Passes(pattern, 6, m, p) == ReplaceAll(Passes(pattern, 5, m, p), LineTag, LineText(m));
    assert Passes(pattern, 7, m, p) == ReplaceAll(Passes(pattern, 6, m, p), MessageTag, m.message);
  }

  lemma {:induction false} PassesStaged(ts: seq<Token>, k: nat, m: LogMessage, p: Palette)
    requires 0 < k <= 7 && SafeUpTo(ts, k - 1, m, p)
    ensures Passes(Flatten(ts), k, m, p) == Staged(ts, k, m, p)
  {
    if k == 1 {
      StagedZero(ts, m, p);
    } else {
      SafeUpToFewer(ts, k - 2, k - 1, m, p);
      PassesStaged(ts, k - 1, m, p);
    }
    ReplacePass(ts, k - 1, m, p);
  }

  /**
   * Format agrees with the one-pass reference rendering: every occurrence of a
   * recognised placeholder becomes its field's value, every unrecognised tag
   * and every literal stays as it is, and the message is never searched for
   * placeholders.
   */
  lemma FormatMatchesExpand(ts: seq<Token>, m: LogMessage, p: Palette)
    requires m.level != Data && SafePattern(ts, m, p)
    ensures Format(m, Flatten(ts), p) == Expand(ts, m, p)
  {
    FormatIsPasses(m, Flatten(ts), p);
    PassesStaged(ts, 7, m, p);
    StagedAll(ts, m, p);
  }

  /** The level and line texts never contain '<'; colours from a '<'-free palette keep it so. */
  lemma FieldValuesNoAngle(i: nat, m: LogMessage, p: Palette)
    requires i < 4 || i == 5
    requires m.level != Data && PaletteNoAngle(p)
    ensures '<' !in FieldValue(i, m, p)
  {
    var name := LevelName(m.level);
    assert '<' !in name;
    IntToStringShape(m.line as int);
    assert '<' !in Reset;
    if i == 2 || i == 3 {
      assert '<' !in ColorFor(m.level, p);
    }
  }

  /** Every well-formed pattern is safe when the file name and colours hold no '<'. */
  lemma SafeWhenNoAngle(ts: seq<Token>, m: LogMessage, p: Palette)
    requires WellFormed(ts) && m.level != Data && PaletteNoAngle(p) && '<' !in m.file
    ensures SafePattern(ts, m, p)
  {
    forall j | 0 <= j < |ts|
      ensures TokenSafeUpTo(ts[j], 6, m, p)
    {
      assert TokenWellFormed(ts[j]);
      if ts[j].Tag? && FieldIndex(ts[j].name).Some? && FieldIndex(ts[j].name).value < 6 {
        var i := FieldIndex(ts[j].name).value;
        if i != 4 {
          FieldValuesNoAngle(i, m, p);
        }
      }
    }
  }

  /** format's own default colours hold no '<'. */
  lemma FormatPaletteNoAngle()
    ensures PaletteNoAngle(FormatPalette)
  {
  }

  // ---------------------------------------------------------------------------
  // Consequences.

  lemma {:induction false} FlattenConcat(a: seq<Token>, b: seq<Token>)
    ensures Flatten(a + b) == Flatten(a) + Flatten(b)
  {
    if a != [] {
      assert (a + b)[1..] == a[1..] + b;
      FlattenConcat(a[1..], b);
    } else {
      assert a + b == b;
    }
  }

  lemma {:induction false} ExpandConcat(a: seq<Token>, b: seq<Token>, m: LogMessage, p: Palette)
    ensures Expand(a + b, m, p) == Expand(a, m, p) + Expand(b, m, p)
  {
    if a != [] {
      assert (a + b)[1..] == a[1..] + b;
      ExpandConcat(a[1..], b, m, p);
    } else {
      assert a + b == b;
    }
  }

  lemma SafeConcat(a: seq<Token>, b: seq<Token>, m: LogMessage, p: Palette)
    requires SafePattern(a, m, p) && SafePattern(b, m, p)
    ensures SafePattern(a + b, m, p)
  {
    forall j | 0 <= j < |a + b|
      ensures TokenSafeUpTo((a + b)[j], 6, m, p)
    {
      if j < |a| {
        assert (a + b)[j] == a[j];
      } else {
        assert (a + b)[j] == b[j - |a|];
      }
    }
  }

  /** A pattern made of one token. */
  lemma Single(t: Token, m: LogMessage, p: Palette)
    ensures Flatten([t]) == TokenText(t) && Expand([t], m, p) == ExpandToken(t, m, p)
    ensures SafePattern([t], m, p) == TokenSafeUpTo(t, 6, m, p)
  {
    assert [t][1..] == [];
  }

  /** A pattern made of the i-th recognised placeholder alone. */
  lemma SingleField(i: nat, m: LogMessage, p: Palette)
    requires i < 7
    requires i < 6 ==> '<' !in FieldValue(i, m, p)
    ensures Flatten([Tag(FieldName(i))]) == TagText(FieldName(i))
    ensures Expand([Tag(FieldName(i))], m, p) == FieldValue(i, m, p)
    ensures SafePattern([Tag(FieldName(i))], m, p)
  {
    FieldNameIndex(i);
    Single(Tag(FieldName(i)), m, p);
  }

  /** Appending one safe token to a safe pattern. */
  lemma Snoc(ts: seq<Token>, t: Token, m: LogMessage, p: Palette)
    requires SafePattern(ts, m, p) && TokenSafeUpTo(t, 6, m, p)
    ensures SafePattern(ts + [t], m, p)
    ensures Flatten(ts + [t]) == Flatten(ts) + TokenText(t)
    ensures Expand(ts + [t], m, p) == Expand(ts, m, p) + ExpandToken(t, m, p)
  {
    Single(t, m, p);
    SafeConcat(ts, [t], m, p);
    FlattenConcat(ts, [t]);
    ExpandConcat(ts, [t], m, p);
  }

  /** Appending the i-th recognised placeholder to a safe pattern. */
  lemma SnocField(ts: seq<Token>, i: nat, m: LogMessage, p: Palette)
    requires i < 7 && SafePattern(ts, m, p)
    requires i < 6 ==> '<' !in FieldValue(i, m, p)
    ensures SafePattern(ts + [Tag(FieldName(i))], m, p)
    ensures Flatten(ts + [Tag(FieldName(i))]) == Flatten(ts) + TagText(FieldName(i))
    ensures Expand(ts + [Tag(FieldName(i))], m, p) == Expand(ts, m, p) + FieldValue(i, m, p)
  {
    FieldNameIndex(i);
    Snoc(ts, Tag(FieldName(i)), m, p);
  }

  /** Appending literal text without '<' to a safe pattern. */
  lemma SnocLit(ts: seq<Token>, s: string, m: LogMessage, p: Palette)
    requires '<' !in s && SafePattern(ts, m, p)
    ensures SafePattern(ts + [Lit(s)], m, p)
    ensures Flatten(ts + [Lit(s)]) == Flatten(ts) + s
    ensures Expand(ts + [Lit(s)], m, p) == Expand(ts, m, p) + s
  {
    Snoc(ts, Lit(s), m, p);
  }

  /** Two occurrences of one placeholder are replaced by the same text. */
  lemma RepeatedTagSameValue(n: string, s: string, m: LogMessage, p: Palette)
    requires m.level != Data && PaletteNoAngle(p) && '<' !in m.file
    requires '<' !in n && '>' !in n && '<' !in s
    ensures Format(m, TagText(n) + s + TagText(n), p)
         == ExpandToken(Tag(n), m, p) + s + ExpandToken(Tag(n), m, p)
  {
    var a, b := [Tag(n)], [Lit(s)];
    var ts := a + b + a;
    assert WellFormed(ts) by {
      assert ts == [Tag(n), Lit(s), Tag(n)];
    }
    SafeWhenNoAngle(ts, m, p);
    FormatMatchesExpand(ts, m, p);
    Single(Tag(n), m, p);
    Single(Lit(s), m, p);
    FlattenConcat(a, b);
    FlattenConcat(a + b, a);
    ExpandConcat(a, b, m, p);
    ExpandConcat(a + b, a, m, p);
  }

  /** Each level placeholder is expanded by its own rule, whichever others appear beside it. */
  lemma LevelTagsIndependent(m: LogMessage, p: Palette)
    requires m.level != Data && PaletteNoAngle(p)
    ensures Format(m, LevelTag + BLevelTag + CLevelTag + CBLevelTag, p)
         == LevelName(m.level) + LevelBrackets(m.level) + LevelWithColors(m.level, p) + LevelFull(m.level, p)
  {
    var t0, t1, t2, t3 := [Tag(FieldName(0))], [Tag(FieldName(1))], [Tag(FieldName(2))], [Tag(FieldName(3))];
    FieldValuesNoAngle(0, m, p);
    FieldValuesNoAngle(1, m, p);
    FieldValuesNoAngle(2, m, p);
    FieldValuesNoAngle(3, m, p);
    SingleField(0, m, p);
    SingleField(1, m, p);
    SingleField(2, m, p);
    SingleField(3, m, p);
    SafeConcat(t0, t1, m, p);
    SafeConcat(t0 + t1, t2, m, p);
    SafeConcat(t0 + t1 + t2, t3, m, p);
    var ts := t0 + t1 + t2 + t3;
    FormatMatchesExpand(ts, m, p);
    FlattenConcat(t0, t1);
    FlattenConcat(t0 + t1, t2);
    FlattenConcat(t0 + t1 + t2, t3);
    ExpandConcat(t0, t1, m, p);
    ExpandConcat(t0 + t1, t2, m, p);
    ExpandConcat(t0 + t1 + t2, t3, m, p);
    TagConstants();
  }

  /** A pattern made of one tag renders as that tag's expansion. */
  lemma FormatSingleTag(n: string, m: LogMessage, p: Palette)
    requires m.level != Data && TokenSafeUpTo(Tag(n), 6, m, p)
    ensures Format(m, TagText(n), p) == ExpandToken(Tag(n), m, p)
  {
    Single(Tag(n), m, p);
    FormatMatchesExpand([Tag(n)], m, p);
  }

  /** Placeholder text inside a message is not expanded: `<MESSAGE>` is substituted last. */
  lemma MessageNotReexpanded(m: LogMessage, p: Palette)
    requires m.level != Data
    ensures Format(m, MessageTag, p) == m.message
  {
    FieldNameIndex(6);
    FormatSingleTag(FieldName(6), m, p);
    TagConstants();
  }

  /** The placeholder documented for the calling function. */
  const FuncTag: string := "<FUNC>"

  /** `<FUNC>` is documented but never substituted: it is left verbatim. */
  lemma FuncTagVerbatim(m: LogMessage, p: Palette)
    requires m.level != Data
    ensures Format(m, FuncTag, p) == FuncTag
  {
    assert FieldIndex("FUNC") == None;
    FormatSingleTag("FUNC", m, p);
    assert TagText("FUNC") == FuncTag;
  }

  /** A pattern in which no recognised placeholder occurs is returned unchanged. */
  lemma NoPlaceholderUnchanged(m: LogMessage, pattern: string, p: Palette)
    requires m.level != Data
    requires !Occurs(pattern, LevelTag) && !Occurs(pattern, BLevelTag)
    requires !Occurs(pattern, CLevelTag) && !Occurs(pattern, CBLevelTag)
    requires !Occurs(pattern, FileTag) && !Occurs(pattern, LineTag) && !Occurs(pattern, MessageTag)
    ensures Format(m, pattern, p) == pattern
  {
    ReplaceAllNoOccurrence(pattern, LevelTag, LevelName(m.level));
    ReplaceAllNoOccurrence(pattern, BLevelTag, LevelBrackets(m.level));
    ReplaceAllNoOccurrence(pattern, CLevelTag, LevelWithColors(m.level, p));
    ReplaceAllNoOccurrence(pattern, CBLevelTag, LevelFull(m.level, p));
    ReplaceAllNoOccurrence(pattern, FileTag, m.file);
    ReplaceAllNoOccurrence(pattern, LineTag, LineText(m));
    ReplaceAllNoOccurrence(pattern, MessageTag, m.message);
  }

  /**
   * Text inside the file name is not protected: the file name is substituted
   * fifth, so the `<LINE>` and `<MESSAGE>` passes still run over it.
   */
  lemma FileExposed(m: LogMessage, p: Palette)
    requires m.level != Data
    ensures Format(m, FileTag, p) == ReplaceAll(ReplaceAll(m.file, LineTag, LineText(m)), MessageTag, m.message)
  {
    FormatIsPasses(m, FileTag, p);
    FileAfterFilePass(m, p);
    TagConstants();
  }

  /** A file name `<LINE>` is rendered as the line number. */
  lemma FileExposedToLaterRules(m: LogMessage, p: Palette)
    requires m.level != Data && m.file == LineTag
    ensures Format(m, FileTag, p) == LineText(m)
  {
    FileExposed(m, p);
    ReplaceAllAtMatch("", LineTag, LineText(m));
    assert LineTag + "" == LineTag;
    IntToStringShape(m.line as int);
    ReplaceAllSkipsPrefix(LineText(m), "", MessageTag, m.message);
    assert LineText(m) + "" == LineText(m);
  }

  /** A file name `<MESSAGE>` is rendered as the message. */
  lemma FileExposedToMessage(m: LogMessage, p: Palette)
    requires m.level != Data && m.file == MessageTag
    ensures Format(m, FileTag, p) == m.message
  {
    FileExposed(m, p);
    TagConstants();
    FieldNamePlain(5);
    FieldNamePlain(6);
    OtherTagPassesThrough(FieldName(6), FieldName(5), "", LineText(m));
    assert MessageTag + "" == MessageTag;
    ReplaceAllAtMatch("", MessageTag, m.message);
  }

  /** A pass for tag `f` leaves `<v>s<v>` alone when v is not f and s holds no '<'. */
  lemma TagsAroundLiteralKept(v: string, s: string, f: string, rep: string)
    requires '<' !in v && '>' !in v && '<' !in f && '>' !in f && v != f && '<' !in s
    ensures ReplaceAll(TagText(v) + (s + TagText(v)), TagText(f), rep) == TagText(v) + (s + TagText(v))
  {
    var pat := TagText(f);
    OtherTagPassesThrough(v, f, s + TagText(v), rep);
    ReplaceAllSkipsPrefix(s, TagText(v), pat, rep);
    OtherTagPassesThrough(v, f, "", rep);
    assert TagText(v) + "" == TagText(v);
    assert ReplaceAll("", pat, rep) == "";
  }

  /** The pass for tag `w` replaces both tags of `<w>s<w>` when s holds no '<'. */
  lemma TagsAroundLiteralReplaced(w: string, s: string, rep: string)
    requires '<' !in w && '>' !in w && '<' !in s
    ensures ReplaceAll(TagText(w) + (s + TagText(w)), TagText(w), rep) == rep + (s + rep)
  {
    var pat := TagText(w);
    ReplaceAllAtMatch(s + TagText(w), pat, rep);
    ReplaceAllSkipsPrefix(s, TagText(w), pat, rep);
    ReplaceAllAtMatch("", pat, rep);
    assert pat + "" == pat;
    assert ReplaceAll("", pat, rep) == "";
  }

  /** Passes LEVEL to CBLEVEL leave `<FILE>s<FILE>` as it is, s holding no '<'. */
  lemma FileAroundLiteralKept(pattern: string, s: string, k: nat, m: LogMessage, p: Palette)
    requires k < 4 && '<' !in s
    requires Passes(pattern, k, m, p) == TagText(FieldName(4)) + (s + TagText(FieldName(4)))
    ensures Passes(pattern, k + 1, m, p) == TagText(FieldName(4)) + (s + TagText(FieldName(4)))
  {
    FieldNamePlain(4);
    FieldNamePlain(k);
    TagsAroundLiteralKept(FieldName(4), s, FieldName(k), FieldValue(k, m, p));
  }

  /** The first five passes over `<FILE>s<FILE>`, s holding no '<'. */
  lemma FileAroundLiteralPasses(pattern: string, s: string, m: LogMessage, p: Palette)
    requires '<' !in s && pattern == TagText(FieldName(4)) + (s + TagText(FieldName(4)))
    ensures Passes(pattern, 5, m, p) == m.file + (s + m.file)
  {
    FileAroundLiteralKept(pattern, s, 0, m, p);
    FileAroundLiteralKept(pattern, s, 1, m, p);
    FileAroundLiteralKept(pattern, s, 2, m, p);
    FileAroundLiteralKept(pattern, s, 3, m, p);
    FieldNamePlain(4);
    TagsAroundLiteralReplaced(FieldName(4), s, m.file);
  }

  /** The last two passes over `<MESSAGE>` followed by text shorter than any tag. */
  lemma MessageTagThenShortText(x: string, tail: string, m: LogMessage, p: Palette)
    requires |tail| < 6 && x == TagText(FieldName(6)) + tail
    ensures ReplaceAll(ReplaceAll(x, TagText(FieldName(5)), FieldValue(5, m, p)), TagText(FieldName(6)), FieldValue(6, m, p))
         == m.message + tail
  {
    FieldNamePlain(5);
    FieldNamePlain(6);
    OtherTagPassesThrough(FieldName(6), FieldName(5), tail, LineText(m));
    assert ReplaceAll(tail, TagText(FieldName(5)), LineText(m)) == tail;
    ReplaceAllAtMatch(tail, TagText(FieldName(6)), m.message);
    assert ReplaceAll(tail, TagText(FieldName(6)), m.message) == tail;
  }

  /**
   * Two occurrences of `<FILE>` need not render alike: with the file name
   * `<MESS`, the first substituted file name and the literal `AGE>` after it
   * spell `<MESSAGE>`, which the last pass replaces by the message, while the
   * second file name stays as it is.
   */
  lemma FileSplicesMessageTag(pattern: string, m: LogMessage, p: Palette)
    requires m.level != Data && m.file == "<MESS"
    requires pattern == FileTag + "AGE>" + FileTag
    ensures Format(m, pattern, p) == m.message + m.file
    ensures m.message != MessageTag ==> Format(m, pattern, p) != m.file + "AGE>" + m.file
  {
    var lit := "AGE>";
    SpliceSpelled(pattern, m.file);
    FormatIsPasses(m, pattern, p);
    FileAroundLiteralPasses(pattern, lit, m, p);
    MessageTagThenShortText(Passes(pattern, 5, m, p), m.file, m, p);
    SplicedDiffers(m);
  }

  /** `<FILE>AGE><FILE>` spelt with the recognised names, and `<MESS` + `AGE>` + `<MESS` as `<MESSAGE><MESS`. */
  lemma SpliceSpelled(pattern: string, file: string)
    requires pattern == FileTag + "AGE>" + FileTag && file == "<MESS"
    ensures pattern == TagText(FieldName(4)) + ("AGE>" + TagText(FieldName(4)))
    ensures file + ("AGE>" + file) == TagText(FieldName(6)) + file
  {
    TagConstants();
  }

  /** The spliced rendering differs from two copies of the file name unless the message is `<MESSAGE>`. */
  lemma SplicedDiffers(m: LogMessage)
    requires m.file == "<MESS"
    ensures m.message != MessageTag ==> m.message + m.file != m.file + "AGE>" + m.file
  {
    if m.message + m.file == m.file + "AGE>" + m.file {
      assert m.message == (m.message + m.file)[..|m.message|];
      assert m.message == (m.file + "AGE>" + m.file)[..9];
    }
  }

  /** After the first five passes the pattern `<FILE>` has become the file name. */
  lemma FileAfterFilePass(m: LogMessage, p: Palette)
    ensures Passes(FileTag, 5, m, p) == m.file
  {
    var ts := [Tag(FieldName(4))];
    FieldNameIndex(4);
    Single(ts[0], m, p);
    TagConstants();
    assert SafeUpTo(ts, 4, m, p);
    PassesStaged(ts, 5, m, p);
    assert ts[1..] == [];
  }
  // ---------------------------------------------------------------------------
  // A '<' that opens no placeholder.

  /**
   * A '<' just before a pattern that opens with '<' and continues with
   * something else is copied, and the pattern after it is still replaced.
   */
  lemma StrayAngleBefore(pat: string, y: string, rep: string)
    requires |pat| >= 2 && pat[0] == '<' && pat[1] != '<'
    ensures ReplaceAll(['<'] + (pat + y), pat, rep) == ['<'] + (rep + ReplaceAll(y, pat, rep))
  {
    var s := ['<'] + (pat + y);
    assert s[..|pat|] != pat by {
      assert s[..|pat|][1] == pat[0];
    }
    assert s[1..] == pat + y;
    ReplaceAllAtMatch(y, pat, rep);
  }

  /** A pass for tag `f` leaves `<v> <w>` alone when neither v nor w is f. */
  lemma OtherTagsKept(v: string, w: string, f: string, rep: string)
    requires '<' !in v && '>' !in v && '<' !in w && '>' !in w && '<' !in f && '>' !in f
    requires v != f && w != f
    ensures ReplaceAll(TagText(v) + " " + TagText(w), TagText(f), rep) == TagText(v) + " " + TagText(w)
  {
    var pat := TagText(f);
    assert TagText(v) + " " + TagText(w) == TagText(v) + (" " + TagText(w));
    OtherTagPassesThrough(v, f, " " + TagText(w), rep);
    ReplaceAllSkipsPrefix(" ", TagText(w), pat, rep);
    OtherTagPassesThrough(w, f, "", rep);
    assert TagText(w) + "" == TagText(w);
    assert ReplaceAll("", pat, rep) == "";
  }

  /** The pass for tag `w` replaces it in `<v> <w>` and keeps `<v>`. */
  lemma LastTagReplaced(v: string, w: string, rep: string)
    requires '<' !in v && '>' !in v && '<' !in w && '>' !in w && v != w
    ensures ReplaceAll(TagText(v) + " " + TagText(w), TagText(w), rep) == TagText(v) + " " + rep
  {
    var pat := TagText(w);
    assert TagText(v) + " " + TagText(w) == TagText(v) + (" " + TagText(w));
    OtherTagPassesThrough(v, w, " " + TagText(w), rep);
    ReplaceAllSkipsPrefix(" ", TagText(w), pat, rep);
    ReplaceAllAtMatch("", pat, rep);
    assert TagText(w) + "" == TagText(w);
    assert ReplaceAll("", pat, rep) == "";
  }

  /** The first pass over `<<name>> <w>` turns it into `<v> <w>`. */
  lemma StrayAngleFirstPass(name: string, w: string, v: string)
    requires |name| > 0 && '<' !in name && '>' !in name && '<' !in w && '>' !in w && name != w
    ensures ReplaceAll(['<'] + (TagText(name) + ("> " + TagText(w))), TagText(name), v) == TagText(v) + " " + TagText(w)
  {
    var pat := TagText(name);
    assert pat[0] == '<' && pat[1] == name[0];
    StrayAngleBefore(pat, "> " + TagText(w), v);
    assert "> " + TagText(w) == ">" + (" " + TagText(w));
    ReplaceAllSkipsPrefix(">", " " + TagText(w), pat, v);
    ReplaceAllSkipsPrefix(" ", TagText(w), pat, v);
    OtherTagPassesThrough(w, name, "", v);
    assert TagText(w) + "" == TagText(w);
    assert ReplaceAll("", pat, v) == "";
  }

  /** The recognised names are non-empty and hold no angle bracket. */
  lemma FieldNamePlain(k: nat)
    requires k < 7
    ensures |FieldName(k)| > 0 && '<' !in FieldName(k) && '>' !in FieldName(k)
  {
  }

  /** No level name is the name of a placeholder after LEVEL. */
  lemma LevelNameNotField(l: Level, k: nat)
    requires l != Data && 0 < k < 7
    ensures LevelName(l) != FieldName(k)
  {
  }

  /** Passes BLEVEL to LINE leave `<v> <MESSAGE>` as it is, v being the level name. */
  lemma LevelTagKept(pattern: string, k: nat, m: LogMessage, p: Palette)
    requires m.level != Data && 0 < k < 6
    requires Passes(pattern, k, m, p) == TagText(LevelName(m.level)) + " " + TagText(FieldName(6))
    ensures Passes(pattern, k + 1, m, p) == TagText(LevelName(m.level)) + " " + TagText(FieldName(6))
  {
    var v := LevelName(m.level);
    assert '<' !in v && '>' !in v;
    LevelNameNotField(m.level, k);
    LevelNameNotField(m.level, 6);
    FieldNamePlain(k);
    FieldNamePlain(6);
    OtherTagsKept(v, FieldName(6), FieldName(k), FieldValue(k, m, p));
  }

  /** Passes BLEVEL to LINE together leave `<v> <MESSAGE>` as it is. */
  lemma LevelTagKeptThrough(pattern: string, m: LogMessage, p: Palette)
    requires m.level != Data
    requires Passes(pattern, 1, m, p) == TagText(LevelName(m.level)) + " " + TagText(FieldName(6))
    ensures Passes(pattern, 6, m, p) == TagText(LevelName(m.level)) + " " + TagText(FieldName(6))
  {
    LevelTagKept(pattern, 1, m, p);
    LevelTagKept(pattern, 2, m, p);
    LevelTagKept(pattern, 3, m, p);
    LevelTagKept(pattern, 4, m, p);
    LevelTagKept(pattern, 5, m, p);
  }

  /** The seven passes over `<<LEVEL>> <MESSAGE>`. */
  lemma AngleLevelPasses(pattern: string, m: LogMessage, p: Palette)
    requires m.level != Data
    requires pattern == ['<'] + (TagText(FieldName(0)) + ("> " + TagText(FieldName(6))))
    ensures Passes(pattern, 7, m, p) == TagText(LevelName(m.level)) + " " + m.message
  {
    var level, message := FieldName(0), FieldName(6);
    var v := LevelName(m.level);
    var t := TagText(v) + " " + TagText(message);
    assert Passes(pattern, 1, m, p) == t by {
      FieldNamePlain(0);
      FieldNamePlain(6);
      StrayAngleFirstPass(level, message, v);
    }
    LevelTagKeptThrough(pattern, m, p);
    assert Passes(pattern, 7, m, p) == ReplaceAll(t, TagText(message), m.message);
    FieldNamePlain(6);
    assert '<' !in v && '>' !in v;
    LevelNameNotField(m.level, 6);
    LastTagReplaced(v, message, m.message);
  }

  /** `<<LEVEL>> <MESSAGE>` spelt with the recognised names. */
  lemma AnglePatternSpelled()
    ensures "<" + LevelTag + "> " + MessageTag == ['<'] + (TagText(FieldName(0)) + ("> " + TagText(FieldName(6))))
  {
    TagConstants();
  }

  /**
   * A '<' that opens no placeholder lies outside the token view of a pattern,
   * yet format handles it: in `<<LEVEL>> <MESSAGE>` the stray '<' is copied,
   * the level is substituted, and the resulting `<INFO>` (say) is an
   * unrecognised tag that the later passes leave alone.
   */
  lemma AngleBracketedLevel(pattern: string, m: LogMessage, p: Palette)
    requires m.level != Data && pattern == "<" + LevelTag + "> " + MessageTag
    ensures Format(m, pattern, p) == "<" + LevelName(m.level) + "> " + m.message
  {
    AnglePatternSpelled();
    FormatIsPasses(m, pattern, p);
    AngleLevelPasses(pattern, m, p);
  }

}
