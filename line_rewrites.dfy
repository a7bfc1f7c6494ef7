/**
 * What `Group.Adjust` does to one line of each kind, with the table
 * wc3.go builds: which entry decides the line and the exact text it is
 * rewritten to with a given group hotkey.
 */
module LineRewrites {
  import opened Wrappers
  import opened Text
  import opened Expressions
  import opened Groups
  import opened Recognition
  import opened Precedence

  /** A one-placeholder tooltip is not a multi-placeholder form whose first separator it lacks. */
  lemma OneNotLevels(field: string, seps: seq<string>, blanks: bool, open: bool, before: string, key: char, after: string, close: bool)
    requires AllIn(before, Segment) && IsWordChar(key) && AllIn(after, Segment)
    requires seps != [] && !StartsWith(Quote(close), seps[0][Span(seps[0], Segment)..])
    ensures LevelsShape(field, seps, blanks, field + Quote(open) + One(before, key, after, close)) == None
  {
    PlaceholderBody(before, key, after, close);
    Unquoted(field, open, One(before, key, after, close));
    OnePiecesMiss(seps, before, key, after, close);
    LevelsMiss(field, seps, blanks, field + Quote(open) + One(before, key, after, close));
  }

  lemma OnePiecesMiss(seps: seq<string>, before: string, key: char, after: string, close: bool)
    requires AllIn(before, Segment) && IsWordChar(key) && AllIn(after, Segment)
    requires seps != [] && !StartsWith(Quote(close), seps[0][Span(seps[0], Segment)..])
    ensures Pieces(One(before, key, after, close), seps) == None
  {
    var g := OneGroups(before, key, after, close);
    PiecesMissHead(g, Quote(close), seps, after, Quote(close));
  }

  /** A one-placeholder tooltip text as a single placeholder group with an empty separator. */
  lemma OneGroups(before: string, key: char, after: string, close: bool) returns (g: seq<string>)
    ensures |g| == 4 && g[0] == before && g[1] == [key] && g[2] == after
    ensures One(before, key, after, close) == Spell(g) + Quote(close)
    ensures g[2] + (g[3] + (Spell(g[4..]) + Quote(close))) == after + Quote(close)
  {
    g := [before, [key], after, ""];
    OneAsGroups(before, key, after, close);
    assert g[4..] == [] && Spell(g[4..]) == [];
  }

  /** A level label begins with the segment text ` - ` and then `[`. */
  lemma LabelSpan(n: string, more: string)
    ensures Span(Level(n) + more, Segment) == 3 && (Level(n) + more)[3] == '['
  {
    var s := Level(n) + more;
    assert s == " - " + ("[" + Gold + "Level " + n + EndColour + "]" + more);
    SpanOf(" - ", "[" + Gold + "Level " + n + EndColour + "]" + more, Segment);
  }

  /** A closing quote is none of the first separators of the Tip level forms. */
  lemma QuoteNotSeparator(close: bool)
    ensures !StartsWith(Quote(close), LabelledThree[0][Span(LabelledThree[0], Segment)..])
    ensures !StartsWith(Quote(close), BareThree[0][Span(BareThree[0], Segment)..])
    ensures !StartsWith(Quote(close), LabelledTwo[0][Span(LabelledTwo[0], Segment)..])
    ensures !StartsWith(Quote(close), BareTwo[0][Span(BareTwo[0], Segment)..])
  {
    LabelSpan("1", ",");
    NotStartsWith(Quote(close), (Level("1") + ",")[3..], 0);
    NotStartsWith(Quote(close), ",", 0);
  }

  /** Passes over a Tip level entry whose recognizer rejects the line. */
  lemma SkipLevels(line: string, j: nat, seps: seq<string>, blanks: bool)
    requires 20 <= j < 24 && Table[j].shape == Levels(TipField, seps, blanks)
    requires LevelsShape(TipField, seps, blanks, line) == None
    ensures FirstMatchFrom(Table, line, j) == FirstMatchFrom(Table, line, j + 1)
  {
    RecognizesLevels(Table[j], TipField, seps, blanks, line);
    SkipOne(Table, line, j);
  }

  /** A line rejected by all four Tip level forms is passed on to the annotated Tip entry. */
  lemma SkipTipLevels(line: string)
    requires LevelsShape(TipField, LabelledThree, true, line) == None
    requires LevelsShape(TipField, BareThree, false, line) == None
    requires LevelsShape(TipField, LabelledTwo, true, line) == None
    requires LevelsShape(TipField, BareTwo, false, line) == None
    ensures FirstMatchFrom(Table, line, 20) == FirstMatchFrom(Table, line, 24)
  {
    SkipLevels(line, 20, LabelledThree, true);
    SkipLevels(line, 21, BareThree, false);
    SkipLevels(line, 22, LabelledTwo, true);
    SkipLevels(line, 23, BareTwo, false);
  }

  lemma OneNotTipLevels(open: bool, before: string, key: char, after: string, close: bool)
    requires AllIn(before, Segment) && IsWordChar(key) && AllIn(after, Segment)
    ensures var line := TipField + Quote(open) + One(before, key, after, close);
      FirstMatchFrom(Table, line, 20) == FirstMatchFrom(Table, line, 24)
  {
    QuoteNotSeparator(close);
    OneNotLevels(TipField, LabelledThree, true, open, before, key, after, close);
    OneNotLevels(TipField, BareThree, false, open, before, key, after, close);
    OneNotLevels(TipField, LabelledTwo, true, open, before, key, after, close);
    OneNotLevels(TipField, BareTwo, false, open, before, key, after, close);
    SkipTipLevels(TipField + Quote(open) + One(before, key, after, close));
  }

  /** Unfolding step: the `replaceOne` case of `Replace` for a known submatch list. */
  lemma ReplaceOneOf(e: Expression, line: string, key: string, g: seq<string>)
    requires e.action == ReplaceOne && e.Recognize(line) == Some(g)
    ensures e.Replace(line, key) == Sub(g, 1) + Sub(g, 2) + Sub(g, 3) + Sub(g, 4) + Annotation(key) + Sub(g, 5)
  {
  }

  /**
   * A line that reaches the annotated entry of its field, is not annotated
   * and matches the one-placeholder entry right after it is rewritten by
   * that entry.
   */
  lemma OneDecided(line: string, field: string, a: nat, g: seq<string>, key: string)
    requires a + 1 < |Table| && Table[a].shape == Annotated(field) && Table[a + 1] == Expression(ReplaceOne, Placeholder(field))
    requires Classify(Table, line) == FirstMatchFrom(Table, line, a)
    requires AnnotatedShape(field, line) == None && PlaceholderShape(field, line) == Some(g) && |g| == 4
    ensures Rewritten(Table, line, key) == g[0] + g[1] + g[2] + g[3] + Annotation(key)
  {
    RecognizesAnnotated(Table[a], field, line);
    SkipOne(Table, line, a);
    RecognizesPlaceholder(Table[a + 1], field, line);
    Decide(line, a + 1, key);
    ReplaceOneOf(Table[a + 1], line, key, g);
    SubsOne(g, key);
  }

  /** The submatches of `replaceOne`'s template for a placeholder match: `$5` does not exist and is empty. */
  lemma SubsOne(g: seq<string>, key: string)
    requires |g| == 4
    ensures Sub(g, 1) + Sub(g, 2) + Sub(g, 3) + Sub(g, 4) + Annotation(key) + Sub(g, 5) == g[0] + g[1] + g[2] + g[3] + Annotation(key)
  {
    assert Sub(g, 5) == [];
  }

  /** The Researchtip level form rejects a line whose first placeholder is not followed by its label. */
  lemma SkipResearchLevels(line: string)
    requires LevelsShape(ResearchTip, [ResearchLevel], true, line) == None
    ensures FirstMatchFrom(Table, line, 9) == FirstMatchFrom(Table, line, 10)
  {
    ResearchLevelsEntry(line);
    SkipOne(Table, line, 9);
  }

  lemma SkipUntipColoured(line: string)
    requires UntipColouredShape(line) == None
    ensures FirstMatchFrom(Table, line, 16) == FirstMatchFrom(Table, line, 17)
  {
    assert Table[16] == Expression(Keep, UntipColoured);
    RecognizesUntipColoured(Table[16], line);
    SkipOne(Table, line, 16);
  }

  lemma QuoteNotLabel(close: bool)
    ensures !StartsWith(Quote(close), [ResearchLevel][0][Span([ResearchLevel][0], Segment)..])
  {
    LabelSpan("%d", "");
    assert Level("%d") + "" == ResearchLevel;
    NotStartsWith(Quote(close), ResearchLevel[3..], 0);
  }

  /** Text that does not start with a colour code is not a `|cffc3dbff`-coloured Untip. */
  lemma NotBlueFirst(s: string)
    requires s == [] || s[0] != '|'
    ensures !StartsWith(s, "|cffc3dbff")
  {
    NotStartsWith(s, "|cffc3dbff", 0);
  }

  lemma OneNotBlue(open: bool, before: string, key: char, after: string, close: bool)
    requires AllIn(before, Segment) && IsWordChar(key) && AllIn(after, Segment)
    ensures UntipColouredShape(UnTip + Quote(open) + One(before, key, after, close)) == None
  {
    var body := One(before, key, after, close);
    PlaceholderBody(before, key, after, close);
    Unquoted(UnTip, open, body);
    OneTextNotBlue(before, key, after, close);
    UntipColouredMiss(UnTip + Quote(open) + body);
  }

  lemma OneTextNotBlue(before: string, key: char, after: string, close: bool)
    requires AllIn(before, Segment)
    ensures !StartsWith(One(before, key, after, close), "|cffc3dbff")
  {
    var body := One(before, key, after, close);
    if before == [] {
      assert body[4] == Gold[4];
      NotStartsWith(body, "|cffc3dbff", 4);
    } else {
      assert body[0] == before[0];
      NotBlueFirst(body);
    }
  }

  lemma ResearchOneReaches(open: bool, before: string, key: char, after: string, close: bool)
    requires AllIn(before, Segment) && IsWordChar(key) && AllIn(after, Segment)
    ensures var line := ResearchTip + Quote(open) + One(before, key, after, close);
      Classify(Table, line) == FirstMatchFrom(Table, line, 10)
  {
    var line := ResearchTip + Quote(open) + One(before, key, after, close);
    PlaceholderBody(before, key, after, close);
    Unquoted(ResearchTip, open, One(before, key, after, close));
    ResearchStart(line);
    QuoteNotLabel(close);
    OneNotLevels(ResearchTip, [ResearchLevel], true, open, before, key, after, close);
    SkipResearchLevels(line);
  }

  lemma UntipOneReaches(open: bool, before: string, key: char, after: string, close: bool)
    requires AllIn(before, Segment) && IsWordChar(key) && AllIn(after, Segment)
    ensures var line := UnTip + Quote(open) + One(before, key, after, close);
      Classify(Table, line) == FirstMatchFrom(Table, line, 17)
  {
    var line := UnTip + Quote(open) + One(before, key, after, close);
    PlaceholderBody(before, key, after, close);
    Unquoted(UnTip, open, One(before, key, after, close));
    UntipStart(line);
    OneNotBlue(open, before, key, after, close);
    SkipUntipColoured(line);
  }

  lemma TipOneReaches(open: bool, before: string, key: char, after: string, close: bool)
    requires AllIn(before, Segment) && IsWordChar(key) && AllIn(after, Segment)
    ensures var line := TipField + Quote(open) + One(before, key, after, close);
      Classify(Table, line) == FirstMatchFrom(Table, line, 24)
  {
    var line := TipField + Quote(open) + One(before, key, after, close);
    PlaceholderBody(before, key, after, close);
    Unquoted(TipField, open, One(before, key, after, close));
    TipStart(line);
    OneNotTipLevels(open, before, key, after, close);
  }

  /** The tooltip fields, in the order of the table. */
  const TipFields := [AwakenTip, ResearchTip, ReviveTip, UnTip, TipField]

  /** The index of a tooltip field's annotated (kept) entry; its one-placeholder and plain entries follow. */
  function AnnotatedIndex(field: string): (a: nat)
    requires field in TipFields
    ensures a + 2 < |Table| && Table[a] == Expression(Keep, Annotated(field))
    ensures Table[a + 1] == Expression(ReplaceOne, Placeholder(field))
    ensures Table[a + 2] == Expression(ReplaceOne, Plain(field))
  {
    if field == AwakenTip then 6
    else if field == ResearchTip then 10
    else if field == ReviveTip then 13
    else if field == UnTip then 17
    else 24
  }

  /** Where the first-match scan of a one-placeholder tooltip arrives: its field's annotated entry. */
  lemma OneReaches(field: string, open: bool, before: string, key: char, after: string, close: bool)
    requires field in TipFields
    requires AllIn(before, Segment) && IsWordChar(key) && AllIn(after, Segment)
    ensures var line := field + Quote(open) + One(before, key, after, close);
      Classify(Table, line) == FirstMatchFrom(Table, line, AnnotatedIndex(field))
  {
    var line := field + Quote(open) + One(before, key, after, close);
    if field == AwakenTip {
      PlaceholderBody(before, key, after, close);
      Unquoted(field, open, One(before, key, after, close));
      AwakenStart(line);
    } else if field == ResearchTip {
      ResearchOneReaches(open, before, key, after, close);
    } else if field == ReviveTip {
      PlaceholderBody(before, key, after, close);
      Unquoted(field, open, One(before, key, after, close));
      ReviveStart(line);
    } else if field == UnTip {
      UntipOneReaches(open, before, key, after, close);
    } else {
      TipOneReaches(open, before, key, after, close);
    }
  }

  /**
   * A tooltip with one placeholder, `X="p1|cffffcc00c|rp2"` (quotes
   * optional), becomes `X=p1cp2 (|cffffcc00K|r)` with the group hotkey K:
   * the quotes and the colour code go, the key letter stays in place and
   * the annotation closes the line.
   */
  lemma OnePlaceholderRewrite(field: string, open: bool, before: string, key: char, after: string, close: bool, hotkey: string)
    requires field in TipFields
    requires AllIn(before, Segment) && IsWordChar(key) && AllIn(after, Segment)
    ensures Rewritten(Table, field + Quote(open) + One(before, key, after, close), hotkey)
         == field + before + [key] + after + Annotation(hotkey)
  {
    var line := field + Quote(open) + One(before, key, after, close);
    var a := AnnotatedIndex(field);
    OneReaches(field, open, before, key, after, close);
    PlaceholderExact(field, open, before, key, after, close);
    OneNotAnnotated(field, open, before, key, after, close);
    OneDecided(line, field, a, [field, before, [key], after], hotkey);
  }

  // ---- tooltips without a placeholder ----

  /** The tooltip text of a line without a placeholder is not a `|cffc3dbff`-coloured Untip. */
  lemma PlainNotBlue(open: bool, text: string, close: bool)
    requires AllIn(text, Segment)
    ensures UntipColouredShape(UnTip + Quote(open) + (text + Quote(close))) == None
  {
    var run, tail := PlainUnquoted(UnTip, open, text, close);
    if run != [] {
      assert (run + tail)[0] == run[0];
    } else {
      assert run + tail == tail;
    }
    NotBlueFirst(run + tail);
    UntipColouredMiss(UnTip + Quote(open) + (text + Quote(close)));
  }

  lemma PlainNotLevels(field: string, seps: seq<string>, blanks: bool, open: bool, text: string, close: bool)
    requires AllIn(text, Segment) && seps != []
    ensures LevelsShape(field, seps, blanks, field + Quote(open) + (text + Quote(close))) == None
    ensures PlaceholderShape(field, field + Quote(open) + (text + Quote(close))) == None
  {
    var run, tail := PlainUnquoted(field, open, text, close);
    NoPlaceholder(field, seps, blanks, field + Quote(open) + (text + Quote(close)), run, tail);
  }

  lemma ResearchPlainReaches(open: bool, text: string, close: bool)
    requires AllIn(text, Segment)
    ensures var line := ResearchTip + Quote(open) + (text + Quote(close));
      Classify(Table, line) == FirstMatchFrom(Table, line, 10)
  {
    var line := ResearchTip + Quote(open) + (text + Quote(close));
    AfterField(ResearchTip, Quote(open) + (text + Quote(close)));
    assert line == ResearchTip + (Quote(open) + (text + Quote(close)));
    ResearchStart(line);
    PlainNotLevels(ResearchTip, [ResearchLevel], true, open, text, close);
    SkipResearchLevels(line);
  }

  lemma UntipPlainReaches(open: bool, text: string, close: bool)
    requires AllIn(text, Segment)
    ensures var line := UnTip + Quote(open) + (text + Quote(close));
      Classify(Table, line) == FirstMatchFrom(Table, line, 17)
  {
    var line := UnTip + Quote(open) + (text + Quote(close));
    AfterField(UnTip, Quote(open) + (text + Quote(close)));
    assert line == UnTip + (Quote(open) + (text + Quote(close)));
    UntipStart(line);
    PlainNotBlue(open, text, close);
    SkipUntipColoured(line);
  }

  lemma TipPlainReaches(open: bool, text: string, close: bool)
    requires AllIn(text, Segment)
    ensures var line := TipField + Quote(open) + (text + Quote(close));
      Classify(Table, line) == FirstMatchFrom(Table, line, 24)
  {
    var line := TipField + Quote(open) + (text + Quote(close));
    AfterField(TipField, Quote(open) + (text + Quote(close)));
    assert line == TipField + (Quote(open) + (text + Quote(close)));
    TipStart(line);
    PlainNotLevels(TipField, LabelledThree, true, open, text, close);
    PlainNotLevels(TipField, BareThree, false, open, text, close);
    PlainNotLevels(TipField, LabelledTwo, true, open, text, close);
    PlainNotLevels(TipField, BareTwo, false, open, text, close);
    SkipTipLevels(line);
  }

  /** Where the first-match scan of a tooltip without a placeholder arrives: its field's annotated entry. */
  lemma PlainReaches(field: string, open: bool, text: string, close: bool)
    requires field in TipFields && AllIn(text, Segment)
    ensures var line := field + Quote(open) + (text + Quote(close));
      Classify(Table, line) == FirstMatchFrom(Table, line, AnnotatedIndex(field))
  {
    var line := field + Quote(open) + (text + Quote(close));
    if field == AwakenTip {
      AfterField(field, Quote(open) + (text + Quote(close)));
      assert line == field + (Quote(open) + (text + Quote(close)));
      AwakenStart(line);
    } else if field == ResearchTip {
      ResearchPlainReaches(open, text, close);
    } else if field == ReviveTip {
      AfterField(field, Quote(open) + (text + Quote(close)));
      assert line == field + (Quote(open) + (text + Quote(close)));
      ReviveStart(line);
    } else if field == UnTip {
      UntipPlainReaches(open, text, close);
    } else {
      TipPlainReaches(open, text, close);
    }
  }

  /** A line that neither is annotated nor has a placeholder passes both entries of its field that precede the plain one. */
  lemma SkipAnnotatedPlaceholder(line: string, field: string, a: nat)
    requires a + 1 < |Table| && Table[a].shape == Annotated(field) && Table[a + 1].shape == Placeholder(field)
    requires AnnotatedShape(field, line) == None && PlaceholderShape(field, line) == None
    ensures FirstMatchFrom(Table, line, a) == FirstMatchFrom(Table, line, a + 2)
  {
    RecognizesAnnotated(Table[a], field, line);
    SkipOne(Table, line, a);
    RecognizesPlaceholder(Table[a + 1], field, line);
    SkipOne(Table, line, a + 1);
  }

  lemma PlainDecided(line: string, field: string, p: nat, text: string, key: string)
    requires p < |Table| && Table[p] == Expression(ReplaceOne, Plain(field))
    requires Classify(Table, line) == FirstMatchFrom(Table, line, p)
    requires PlainShape(field, line) == Some([field, text])
    ensures Rewritten(Table, line, key) == field + text + Annotation(key)
  {
    RecognizesPlain(Table[p], field, line);
    Decide(line, p, key);
    ReplaceOneOf(Table[p], line, key, [field, text]);
    SubsPlain(field, text, key);
  }

  /** Unfolding step: `$1…$5` of a plain tooltip's two groups. */
  lemma SubsPlain(field: string, text: string, key: string)
    ensures var g := [field, text];
      Sub(g, 1) + Sub(g, 2) + Sub(g, 3) + Sub(g, 4) + Annotation(key) + Sub(g, 5) == field + text + Annotation(key)
  {
    var g := [field, text];
    assert Sub(g, 3) == [] && Sub(g, 4) == [] && Sub(g, 5) == [];
  }

  /**
   * A tooltip without a placeholder, `X="text"` (quotes optional), still
   * gets the annotation: it becomes `X=text (|cffffcc00K|r)`.
   */
  lemma NoPlaceholderRewrite(field: string, open: bool, text: string, close: bool, hotkey: string)
    requires field in TipFields && AllIn(text, Segment)
    ensures Rewritten(Table, field + Quote(open) + (text + Quote(close)), hotkey) == field + text + Annotation(hotkey)
  {
    var line := field + Quote(open) + (text + Quote(close));
    PlainReaches(field, open, text, close);
    PlainNotAnnotated(field, open, text, close);
    PlainNotLevels(field, [""], false, open, text, close);
    PlainExact(field, open, text, close);
    var a := AnnotatedIndex(field);
    SkipAnnotatedPlaceholder(line, field, a);
    PlainDecided(line, field, a + 2, text, hotkey);
  }

  // ---- the Researchtip level form ----

  /** The groups of a Researchtip with its level label, spelled out. */
  lemma ResearchSpelling(before: string, key: char, after: string)
    ensures Spell([before, [key], after, ResearchLevel]) == before + Gold + [key] + EndColour + after + ResearchLevel
  {
    var g := [before, [key], after, ResearchLevel];
    assert g[4..] == [];
  }

  lemma ResearchPlaced(before: string, key: char, after: string, rest: string)
    requires AllIn(before, Segment) && IsWordChar(key) && AllIn(after, Segment)
    ensures WellPlaced([before, [key], after, ResearchLevel], [ResearchLevel], rest)
  {
    var g := [before, [key], after, ResearchLevel];
    assert g[4..] == [] && [ResearchLevel][1..] == [];
    LabelSpan("%d", []);
    assert Level("%d") + [] == ResearchLevel;
    WellPlacedOf(g, [ResearchLevel], rest);
  }

  /** The field before a list of four groups. */
  lemma PrependField(field: string, g: seq<string>)
    requires |g| == 4
    ensures [field] + g == [field, g[0], g[1], g[2], g[3]]
  {
  }

  lemma ResearchLevelMatch(open: bool, before: string, key: char, after: string, close: bool, pad: string)
    requires AllIn(before, Segment) && IsWordChar(key) && AllIn(after, Segment) && AllIn(pad, Blank)
    ensures var line := ResearchTip + Quote(open) + (before + Gold + [key] + EndColour + after + ResearchLevel + (Quote(close) + pad));
      && StartsWith(line, ResearchTip)
      && LevelsShape(ResearchTip, [ResearchLevel], true, line) == Some([ResearchTip, before, [key], after, ResearchLevel])
  {
    var g := [before, [key], after, ResearchLevel];
    var body := before + Gold + [key] + EndColour + after + ResearchLevel;
    var line := ResearchTip + Quote(open) + (body + (Quote(close) + pad));
    ResearchSpelling(before, key, after);
    assert line == ResearchTip + Quote(open) + (Spell(g) + (Quote(close) + pad));
    ResearchPlaced(before, key, after, Quote(close) + pad);
    LevelsExact(ResearchTip, open, g, [ResearchLevel], true, close, pad);
    PrependField(ResearchTip, g);
    AfterField(ResearchTip, Quote(open) + (body + (Quote(close) + pad)));
  }

  /** A line that reaches a one-placeholder entry that recognizes it is rewritten by that entry's template. */
  lemma OneEntryDecided(line: string, j: nat, g: seq<string>, key: string)
    requires j < |Table| && Table[j].action == ReplaceOne
    requires Classify(Table, line) == FirstMatchFrom(Table, line, j) && Table[j].Recognize(line) == Some(g)
    ensures Rewritten(Table, line, key) == Sub(g, 1) + Sub(g, 2) + Sub(g, 3) + Sub(g, 4) + Annotation(key) + Sub(g, 5)
  {
    Decide(line, j, key);
    ReplaceOneOf(Table[j], line, key, g);
  }

  lemma ResearchLevelsEntry(line: string)
    ensures Table[9].action == ReplaceOne && Table[9].Recognize(line) == LevelsShape(ResearchTip, [ResearchLevel], true, line)
  {
    assert Table[9] == Expression(ReplaceOne, Levels(ResearchTip, [ResearchLevel], true));
    RecognizesLevels(Table[9], ResearchTip, [ResearchLevel], true, line);
  }

  lemma ResearchLevelDecided(line: string, g: seq<string>, key: string)
    requires StartsWith(line, ResearchTip) && LevelsShape(ResearchTip, [ResearchLevel], true, line) == Some(g)
    ensures Rewritten(Table, line, key) == Sub(g, 1) + Sub(g, 2) + Sub(g, 3) + Sub(g, 4) + Annotation(key) + Sub(g, 5)
  {
    ResearchStart(line);
    ResearchLevelsEntry(line);
    OneEntryDecided(line, 9, g, key);
  }

  /**
   * The Researchtip level form `Researchtip="p1|cffffcc00c|rp2 - [|cffffcc00Level %d|r]"`
   * keeps its label after the annotation: `Researchtip=p1cp2 (|cffffcc00K|r) - [|cffffcc00Level %d|r]`.
   */
  lemma ResearchLevelRewrite(open: bool, before: string, key: char, after: string, close: bool, pad: string, hotkey: string)
    requires AllIn(before, Segment) && IsWordChar(key) && AllIn(after, Segment) && AllIn(pad, Blank)
    ensures Rewritten(Table, ResearchTip + Quote(open) + (before + Gold + [key] + EndColour + after + ResearchLevel + (Quote(close) + pad)), hotkey)
         == ResearchTip + before + [key] + after + Annotation(hotkey) + ResearchLevel
  {
    var line := ResearchTip + Quote(open) + (before + Gold + [key] + EndColour + after + ResearchLevel + (Quote(close) + pad));
    ResearchLevelMatch(open, before, key, after, close, pad);
    ResearchLevelDecided(line, [ResearchTip, before, [key], after, ResearchLevel], hotkey);
  }

  // ---- the multi-level Tip forms ----

  /**
   * What a multi-level Tip becomes: for each placeholder group
   * `[before, key, after, separator]` the text with the key inline, the
   * annotation and then the separator, in order.
   */
  function Rebuilt(g: seq<string>, key: string): string
    decreases |g|
  {
    if |g| < 4 then "" else g[0] + g[1] + g[2] + Annotation(key) + g[3] + Rebuilt(g[4..], key)
  }

  /** One placeholder group of a rebuilt Tip, after whatever text precedes it. */
  lemma RebuiltStep(p: string, g: seq<string>, key: string)
    requires |g| >= 4
    ensures p + Rebuilt(g, key) == p + g[0] + g[1] + g[2] + Annotation(key) + g[3] + Rebuilt(g[4..], key)
  {
  }

  /** The submatches of `replaceThree`'s template (wc3.go:81) in terms of the groups: `$14` does not exist and is empty. */
  lemma SubsThree(h: seq<string>, key: string)
    requires |h| == 13
    ensures Sub(h, 1) + Sub(h, 2) + Sub(h, 3) + Sub(h, 4) + Annotation(key)
          + Sub(h, 5) + Sub(h, 6) + Sub(h, 7) + Sub(h, 8) + Annotation(key)
          + Sub(h, 9) + Sub(h, 10) + Sub(h, 11) + Sub(h, 12) + Annotation(key) + Sub(h, 13) + Sub(h, 14)
         == h[0] + Rebuilt(h[1..], key)
  {
    var g := h[1..];
    var p1 := h[0] + h[1] + h[2] + h[3] + Annotation(key) + h[4];
    var p2 := p1 + h[5] + h[6] + h[7] + Annotation(key) + h[8];
    var p3 := p2 + h[9] + h[10] + h[11] + Annotation(key) + h[12];
    RebuiltStep(h[0], g, key);
    assert g[4..][0] == h[5] && g[4..][1] == h[6] && g[4..][2] == h[7] && g[4..][3] == h[8];
    RebuiltStep(p1, g[4..], key);
    assert g[4..][4..][0] == h[9] && g[4..][4..][1] == h[10] && g[4..][4..][2] == h[11] && g[4..][4..][3] == h[12];
    RebuiltStep(p2, g[4..][4..], key);
    assert g[4..][4..][4..] == [];
    assert p3 + "" == p3;
  }

  lemma SubsTwo(h: seq<string>, key: string)
    requires |h| == 9
    ensures Sub(h, 1) + Sub(h, 2) + Sub(h, 3) + Sub(h, 4) + Annotation(key)
          + Sub(h, 5) + Sub(h, 6) + Sub(h, 7) + Sub(h, 8) + Annotation(key) + Sub(h, 9)
         == h[0] + Rebuilt(h[1..], key)
  {
    var g := h[1..];
    var p1 := h[0] + h[1] + h[2] + h[3] + Annotation(key) + h[4];
    var p2 := p1 + h[5] + h[6] + h[7] + Annotation(key) + h[8];
    RebuiltStep(h[0], g, key);
    assert g[4..][0] == h[5] && g[4..][1] == h[6] && g[4..][2] == h[7] && g[4..][3] == h[8];
    RebuiltStep(p1, g[4..], key);
    assert g[4..][4..] == [];
    assert p2 + "" == p2;
  }

  lemma ReplaceThreeOf(e: Expression, line: string, key: string, h: seq<string>)
    requires e.action == ReplaceThree && e.Recognize(line) == Some(h) && |h| == 13
    ensures e.Replace(line, key) == h[0] + Rebuilt(h[1..], key)
  {
    assert e.Replace(line, key) == Sub(h, 1) + Sub(h, 2) + Sub(h, 3) + Sub(h, 4) + Annotation(key)
          + Sub(h, 5) + Sub(h, 6) + Sub(h, 7) + Sub(h, 8) + Annotation(key)
          + Sub(h, 9) + Sub(h, 10) + Sub(h, 11) + Sub(h, 12) + Annotation(key) + Sub(h, 13) + Sub(h, 14);
    SubsThree(h, key);
  }

  /** The text the corrected `replaceTwo` builds from its submatches. */
  lemma ReplaceTwoOf(e: Expression, line: string, key: string, h: seq<string>)
    requires e.action == ReplaceTwo && e.Recognize(line) == Some(h) && |h| == 9
    ensures e.Replace(line, key) == h[0] + Rebuilt(h[1..], key)
  {
    assert e.Replace(line, key) == Sub(h, 1) + Sub(h, 2) + Sub(h, 3) + Sub(h, 4) + Annotation(key)
          + Sub(h, 5) + Sub(h, 6) + Sub(h, 7) + Sub(h, 8) + Annotation(key) + Sub(h, 9);
    SubsTwo(h, key);
  }

  /** A multi-level Tip: `Tip=`, the optional quote, the placeholder groups `g`, the optional closing quote and trailing blanks. */
  function LevelsLine(open: bool, g: seq<string>, close: bool, pad: string): string {
    TipField + Quote(open) + (Spell(g) + (Quote(close) + pad))
  }

  /** Each of the Tip level forms accepts only the separators it names. */
  lemma LabelledThreePlaced(g: seq<string>, rest: string)
    requires Placeholders(g, LabelledThree)
    ensures WellPlaced(g, LabelledThree, rest)
  {
    LabelSpan("1", ",");
    LabelSpan("2", ",");
    LabelSpan("3", []);
    assert Level("3") + [] == Level("3");
    WellPlacedOf(g, LabelledThree, rest);
  }

  lemma LabelledTwoPlaced(g: seq<string>, rest: string)
    requires Placeholders(g, LabelledTwo)
    ensures WellPlaced(g, LabelledTwo, rest)
  {
    LabelSpan("1", ",");
    LabelSpan("2", []);
    assert Level("2") + [] == Level("2");
    WellPlacedOf(g, LabelledTwo, rest);
  }

  lemma BareThreePlaced(g: seq<string>, close: bool)
    requires Placeholders(g, BareThree)
    ensures WellPlaced(g, BareThree, Quote(close))
  {
    assert Span(",", Segment) == 0;
    WellPlacedOf(g, BareThree, Quote(close));
  }

  lemma BareTwoPlaced(g: seq<string>, close: bool)
    requires Placeholders(g, BareTwo)
    ensures WellPlaced(g, BareTwo, Quote(close))
  {
    assert Span(",", Segment) == 0;
    WellPlacedOf(g, BareTwo, Quote(close));
  }

  lemma LevelsLineMiss(seps: seq<string>, blanks: bool, open: bool, g: seq<string>, close: bool, pad: string)
    requires |g| >= 4 && AllIn(g[0], Segment)
    requires Pieces(Spell(g) + (Quote(close) + pad), seps) == None
    ensures LevelsShape(TipField, seps, blanks, LevelsLine(open, g, close, pad)) == None
  {
    SpellHead(g, Quote(close) + pad);
    Unquoted(TipField, open, Spell(g) + (Quote(close) + pad));
    LevelsMiss(TipField, seps, blanks, LevelsLine(open, g, close, pad));
  }

  lemma LevelsLineMatch(seps: seq<string>, blanks: bool, open: bool, g: seq<string>, close: bool, pad: string)
    requires seps != [] && WellPlaced(g, seps, Quote(close) + pad)
    requires AllIn(pad, Blank) && (blanks || pad == [])
    ensures StartsWith(LevelsLine(open, g, close, pad), TipField)
    ensures LevelsShape(TipField, seps, blanks, LevelsLine(open, g, close, pad)) == Some([TipField] + g)
  {
    LevelsExact(TipField, open, g, seps, blanks, close, pad);
    AfterField(TipField, Quote(open) + (Spell(g) + (Quote(close) + pad)));
  }

  /** A first placeholder closed by a bare comma is not one closed by the `Level 1` label. */
  lemma CommaNotLabelled(g: seq<string>, rest: string)
    requires |g| >= 4 && AllIn(g[0], Segment) && |g[1]| == 1 && IsWordChar(g[1][0]) && AllIn(g[2], Segment)
    requires g[3] == ","
    ensures Pieces(Spell(g) + rest, LabelledThree) == None
    ensures Pieces(Spell(g) + rest, LabelledTwo) == None
  {
    var tail := g[3] + (Spell(g[4..]) + rest);
    assert tail[0] == ',';
    LabelSpan("1", ",");
    NotStartsWith(tail, LabelledThree[0][3..], 0);
    PiecesMissHead(g, rest, LabelledThree, g[2], tail);
    PiecesMissHead(g, rest, LabelledTwo, g[2], tail);
  }

  /** The text of a level label after its leading ` - `. */
  function Label(n: string): string {
    "[" + Gold + "Level " + n + EndColour + "]"
  }

  lemma LabelSplit(n: string)
    ensures Level(n) == " - " + Label(n)
  {
  }

  /** A first placeholder closed by the `Level 1` label is not one closed by a bare comma. */
  lemma LabelledNotComma(g: seq<string>, rest: string)
    requires |g| >= 4 && AllIn(g[0], Segment) && |g[1]| == 1 && IsWordChar(g[1][0]) && AllIn(g[2], Segment)
    requires g[3] == Level("1") + ","
    ensures Pieces(Spell(g) + rest, BareThree) == None
    ensures Pieces(Spell(g) + rest, BareTwo) == None
  {
    var run := g[2] + " - ";
    var tail := Label("1") + "," + (Spell(g[4..]) + rest);
    LabelSplit("1");
    assert g[2] + (g[3] + (Spell(g[4..]) + rest)) == run + tail;
    assert AllIn(run, Segment) by {
      forall i | 0 <= i < |run| ensures In(run[i], Segment) {
        if i < |g[2]| { assert run[i] == g[2][i]; }
      }
    }
    assert tail[0] == '[';
    assert Span(",", Segment) == 0;
    NotStartsWith(tail, ",", 0);
    PiecesMissHead(g, rest, BareThree, run, tail);
    PiecesMissHead(g, rest, BareTwo, run, tail);
  }

  /** The first group of a placed list, placed on its own. */
  lemma FirstPlaced(g: seq<string>, sep: string, rest: string)
    requires |g| >= 4 && AllIn(g[0], Segment) && |g[1]| == 1 && IsWordChar(g[1][0]) && AllIn(g[2], Segment)
    requires g[3] == sep && Span(sep, Segment) < |sep|
    ensures WellPlaced(g[..4], [sep], rest)
  {
    assert g[..4][4..] == [] && [sep][1..] == [];
    WellPlacedOf(g[..4], [sep], rest);
  }

  /** What may follow the last placeholder of a Tip: the closing quote, blanks, or nothing; never a comma. */
  lemma EndNotComma(close: bool, pad: string)
    requires AllIn(pad, Blank)
    ensures !StartsWith(Quote(close) + pad, ",")
  {
    var rest := Quote(close) + pad;
    if !close && pad != [] {
      assert rest[0] == pad[0];
    }
    NotStartsWith(rest, ",", 0);
  }

  /** Segment text before a level label runs on through the label's leading ` - `. */
  lemma LabelRun(a: string, n: string, rest: string)
    requires AllIn(a, Segment)
    ensures a + (Level(n) + rest) == (a + " - ") + (Label(n) + rest)
    ensures AllIn(a + " - ", Segment)
  {
    LabelSplit(n);
    var run := a + " - ";
    forall i | 0 <= i < |run| ensures In(run[i], Segment) {
      if i < |a| { assert run[i] == a[i]; }
    }
  }

  /** The groups of a labelled two-level Tip, one by one. */
  lemma LabelledTwoParts(g: seq<string>)
    requires Placeholders(g, LabelledTwo)
    ensures |g| == 8 && g[3] == LabelledThree[0] && g[7] == Level("2")
    ensures AllIn(g[4], Segment) && |g[5]| == 1 && IsWordChar(g[5][0]) && AllIn(g[6], Segment)
    ensures g[8..] == [] && Spell(g[8..]) == []
  {
    assert Placeholders(g[4..], LabelledTwo[1..]);
  }

  /** The second label of a labelled two-level Tip, followed by the end of the line, is not `Level 2` and a comma. */
  lemma SecondLabelNotComma(close: bool, pad: string)
    requires AllIn(pad, Blank)
    ensures var tail := Label("2") + (Quote(close) + pad);
      (tail == [] || !In(tail[0], Segment)) && !StartsWith(tail, LabelledThree[1][Span(LabelledThree[1], Segment)..])
  {
    LabelSpan("2", ",");
    LabelSplit("2");
    assert LabelledThree[1][3..] == Label("2") + ",";
    EndNotComma(close, pad);
    StartsWithAfter(Label("2"), Quote(close) + pad, ",");
  }

  /** The first placeholder of a labelled two-level Tip is placed as the first of a labelled three-level one. */
  lemma LabelledFirstPlaced(g: seq<string>, rest: string)
    requires Placeholders(g, LabelledTwo)
    ensures |g| >= 8 && |LabelledThree| >= 2 && WellPlaced(g[..4], [LabelledThree[0]], Spell(g[4..]) + rest)
    ensures AllIn(g[4], Segment) && |g[5]| == 1 && IsWordChar(g[5][0])
  {
    LabelledTwoParts(g);
    LabelSpan("1", ",");
    FirstPlaced(g, LabelledThree[0], Spell(g[4..]) + rest);
  }

  /** The text after the second placeholder of a labelled two-level Tip, cut where its label leaves the segment class. */
  lemma SecondLabelRun(g: seq<string>, rest: string)
    requires Placeholders(g, LabelledTwo)
    ensures g[6] + (g[7] + (Spell(g[8..]) + rest)) == (g[6] + " - ") + (Label("2") + rest)
    ensures AllIn(g[6] + " - ", Segment)
  {
    LabelledTwoParts(g);
    LabelRun(g[6], "2", rest);
  }

  /** A two-level Tip with labels is not a three-level one: its second label is not followed by a comma. */
  lemma LabelledTwoNotThree(g: seq<string>, close: bool, pad: string)
    requires Placeholders(g, LabelledTwo) && AllIn(pad, Blank)
    ensures Pieces(Spell(g) + (Quote(close) + pad), LabelledThree) == None
  {
    var rest := Quote(close) + pad;
    LabelledFirstPlaced(g, rest);
    SecondLabelRun(g, rest);
    SecondLabelNotComma(close, pad);
    PiecesMissSecond(g, rest, LabelledThree, g[6] + " - ", Label("2") + rest);
  }

  /** A two-level Tip with bare commas is not a three-level one: nothing but the quote follows its second placeholder. */
  lemma BareTwoNotThree(g: seq<string>, close: bool)
    requires Placeholders(g, BareTwo)
    ensures Pieces(Spell(g) + Quote(close), BareThree) == None
  {
    var rest := Quote(close);
    assert Placeholders(g[4..], BareTwo[1..]);
    assert g[8..] == [] && Spell(g[8..]) == [];
    assert Span(",", Segment) == 0;
    FirstPlaced(g, ",", Spell(g[4..]) + rest);
    assert g[6] + (g[7] + (Spell(g[8..]) + rest)) == g[6] + rest;
    EndNotComma(close, []);
    assert Quote(close) + [] == Quote(close);
    PiecesMissSecond(g, rest, BareThree, g[6], rest);
  }

  lemma ThreeDecided(line: string, j: nat, h: seq<string>, key: string)
    requires j < |Table| && Table[j].action == ReplaceThree
    requires Classify(Table, line) == FirstMatchFrom(Table, line, j) && Table[j].Recognize(line) == Some(h) && |h| == 13
    ensures Rewritten(Table, line, key) == h[0] + Rebuilt(h[1..], key)
  {
    Decide(line, j, key);
    ReplaceThreeOf(Table[j], line, key, h);
  }

  lemma TwoDecided(line: string, j: nat, h: seq<string>, key: string)
    requires j < |Table| && Table[j].action == ReplaceTwo
    requires Classify(Table, line) == FirstMatchFrom(Table, line, j) && Table[j].Recognize(line) == Some(h) && |h| == 9
    ensures Rewritten(Table, line, key) == h[0] + Rebuilt(h[1..], key)
  {
    Decide(line, j, key);
    ReplaceTwoOf(Table[j], line, key, h);
  }

  /** The recognizers the entries of the Tip level forms run. */
  lemma TipLevelsEntries(line: string)
    ensures Table[20].Recognize(line) == LevelsShape(TipField, LabelledThree, true, line)
    ensures Table[21].Recognize(line) == LevelsShape(TipField, BareThree, false, line)
    ensures Table[22].Recognize(line) == LevelsShape(TipField, LabelledTwo, true, line)
    ensures Table[23].Recognize(line) == LevelsShape(TipField, BareTwo, false, line)
  {
    TipEntries();
    RecognizesLevels(Table[20], TipField, LabelledThree, true, line);
    RecognizesLevels(Table[21], TipField, BareThree, false, line);
    RecognizesLevels(Table[22], TipField, LabelledTwo, true, line);
    RecognizesLevels(Table[23], TipField, BareTwo, false, line);
  }

  lemma LabelledThreeDecided(line: string, h: seq<string>, key: string)
    requires StartsWith(line, TipField)
    requires LevelsShape(TipField, LabelledThree, true, line) == Some(h) && |h| == 13
    ensures Rewritten(Table, line, key) == h[0] + Rebuilt(h[1..], key)
  {
    TipStart(line);
    TipEntries();
    TipLevelsEntries(line);
    ThreeDecided(line, 20, h, key);
  }

  lemma BareThreeDecided(line: string, h: seq<string>, key: string)
    requires StartsWith(line, TipField)
    requires LevelsShape(TipField, LabelledThree, true, line) == None
    requires LevelsShape(TipField, BareThree, false, line) == Some(h) && |h| == 13
    ensures Rewritten(Table, line, key) == h[0] + Rebuilt(h[1..], key)
  {
    TipStart(line);
    TipEntries();
    TipLevelsEntries(line);
    SkipOne(Table, line, 20);
    ThreeDecided(line, 21, h, key);
  }

  lemma LabelledTwoDecided(line: string, h: seq<string>, key: string)
    requires StartsWith(line, TipField)
    requires LevelsShape(TipField, LabelledThree, true, line) == None
    requires LevelsShape(TipField, BareThree, false, line) == None
    requires LevelsShape(TipField, LabelledTwo, true, line) == Some(h) && |h| == 9
    ensures Rewritten(Table, line, key) == h[0] + Rebuilt(h[1..], key)
  {
    TipStart(line);
    TipEntries();
    TipLevelsEntries(line);
    SkipOne(Table, line, 20);
    SkipOne(Table, line, 21);
    TwoDecided(line, 22, h, key);
  }

  lemma BareTwoDecided(line: string, h: seq<string>, key: string)
    requires StartsWith(line, TipField)
    requires LevelsShape(TipField, LabelledThree, true, line) == None
    requires LevelsShape(TipField, BareThree, false, line) == None
    requires LevelsShape(TipField, LabelledTwo, true, line) == None
    requires LevelsShape(TipField, BareTwo, false, line) == Some(h) && |h| == 9
    ensures Rewritten(Table, line, key) == h[0] + Rebuilt(h[1..], key)
  {
    TipStart(line);
    TipEntries();
    TipLevelsEntries(line);
    SkipOne(Table, line, 20);
    SkipOne(Table, line, 21);
    SkipOne(Table, line, 22);
    TwoDecided(line, 23, h, key);
  }

  /**
   * `Tip="p1|cffffcc00c1|rp2 - [|cffffcc00Level 1|r],…Level 3|r]"` becomes
   * `Tip=p1c1p2 (|cffffcc00K|r) - [|cffffcc00Level 1|r],…`: three
   * annotations, each after its placeholder's text and before its label.
   */
  lemma LabelledThreeRewrite(open: bool, g: seq<string>, close: bool, pad: string, hotkey: string)
    requires Placeholders(g, LabelledThree) && AllIn(pad, Blank)
    ensures Rewritten(Table, LevelsLine(open, g, close, pad), hotkey) == TipField + Rebuilt(g, hotkey)
  {
    LabelledThreePlaced(g, Quote(close) + pad);
    LevelsLineMatch(LabelledThree, true, open, g, close, pad);
    assert ([TipField] + g)[1..] == g;
    LabelledThreeDecided(LevelsLine(open, g, close, pad), [TipField] + g, hotkey);
  }

  /** `Tip="p1|cffffcc00c1|rp2,p3…,p5|cffffcc00c3|rp6"`: three annotations, commas kept. */
  lemma BareThreeRewrite(open: bool, g: seq<string>, close: bool, hotkey: string)
    requires Placeholders(g, BareThree)
    ensures Rewritten(Table, LevelsLine(open, g, close, []), hotkey) == TipField + Rebuilt(g, hotkey)
  {
    var line := LevelsLine(open, g, close, []);
    assert Quote(close) + [] == Quote(close);
    CommaNotLabelled(g, Quote(close) + []);
    LevelsLineMiss(LabelledThree, true, open, g, close, []);
    BareThreePlaced(g, close);
    LevelsLineMatch(BareThree, false, open, g, close, []);
    assert ([TipField] + g)[1..] == g;
    BareThreeDecided(line, [TipField] + g, hotkey);
  }

  /** `Tip="…Level 1|r],p5|cffffcc00c3|rp6 - [|cffffcc00Level 2|r]"`: two annotations, both labels kept. */
  lemma LabelledTwoRewrite(open: bool, g: seq<string>, close: bool, pad: string, hotkey: string)
    requires Placeholders(g, LabelledTwo) && AllIn(pad, Blank)
    ensures Rewritten(Table, LevelsLine(open, g, close, pad), hotkey) == TipField + Rebuilt(g, hotkey)
  {
    var line := LevelsLine(open, g, close, pad);
    LabelledTwoNotThree(g, close, pad);
    LevelsLineMiss(LabelledThree, true, open, g, close, pad);
    LabelledNotComma(g, Quote(close) + pad);
    LevelsLineMiss(BareThree, false, open, g, close, pad);
    LabelledTwoPlaced(g, Quote(close) + pad);
    LevelsLineMatch(LabelledTwo, true, open, g, close, pad);
    assert ([TipField] + g)[1..] == g;
    LabelledTwoDecided(line, [TipField] + g, hotkey);
  }

  /** `Tip="p1|cffffcc00c1|rp2,p5|cffffcc00c3|rp6"`: two annotations, the comma kept. */
  lemma BareTwoRewrite(open: bool, g: seq<string>, close: bool, hotkey: string)
    requires Placeholders(g, BareTwo)
    ensures Rewritten(Table, LevelsLine(open, g, close, []), hotkey) == TipField + Rebuilt(g, hotkey)
  {
    var line := LevelsLine(open, g, close, []);
    assert Quote(close) + [] == Quote(close);
    CommaNotLabelled(g, Quote(close) + []);
    LevelsLineMiss(LabelledThree, true, open, g, close, []);
    BareTwoNotThree(g, close);
    LevelsLineMiss(BareThree, false, open, g, close, []);
    LevelsLineMiss(LabelledTwo, true, open, g, close, []);
    BareTwoPlaced(g, close);
    LevelsLineMatch(BareTwo, false, open, g, close, []);
    assert ([TipField] + g)[1..] == g;
    BareTwoDecided(line, [TipField] + g, hotkey);
  }

  /**
   * The template of wc3.go:79 as written drops the `Level 2` label of a
   * labelled two-level Tip; the corrected template keeps it.
   */
  lemma LabelledTwoAsWritten(open: bool, g: seq<string>, close: bool, pad: string, hotkey: string)
    requires Placeholders(g, LabelledTwo) && AllIn(pad, Blank)
    ensures var line := LevelsLine(open, g, close, pad);
      && Table[22].Recognize(line).Some?
      && Table[22].ReplaceTwoAsWritten(line, hotkey) + Level("2") == Rewritten(Table, line, hotkey)
      && Table[22].ReplaceTwoAsWritten(line, hotkey) != Rewritten(Table, line, hotkey)
  {
    var line := LevelsLine(open, g, close, pad);
    LabelledTwoRewrite(open, g, close, pad, hotkey);
    LabelledTwoPlaced(g, Quote(close) + pad);
    LevelsLineMatch(LabelledTwo, true, open, g, close, pad);
    TipEntries();
    TipLevelsEntries(line);
    var h := [TipField] + g;
    assert h[1..] == g;
    assert Placeholders(g[4..], LabelledTwo[1..]);
    assert Sub(h, 9) == Level("2");
    ReplaceTwoOf(Table[22], line, hotkey, h);
    assert |Level("2")| > 0;
  }

  // ---- tooltips that already carry an annotation ----

  /** The text of an annotated tooltip, split where its segment text first stops: at the `(` of the annotation. */
  lemma AnnotatedText(field: string, before: string, word: string, after: string) returns (run: string, tail: string)
    requires AllIn(before, Segment)
    ensures var line := field + (before + Annotation(word) + after);
      && StartsWith(line, field) && DropQuote(line[|field|..]) == run + tail
      && AllIn(run, Segment) && |tail| > 0 && tail[0] == '('
      && (run + tail)[0] != '|'
  {
    var body := before + Annotation(word) + after;
    run := before + " ";
    tail := "(" + Gold + word + EndColour + ")" + after;
    assert body == run + tail;
    assert AllIn(run, Segment) by {
      forall i | 0 <= i < |run| ensures In(run[i], Segment) {
        if i < |before| { assert run[i] == before[i]; }
      }
    }
    assert (run + tail)[0] == run[0];
    assert field + Quote(false) + body == field + body;
    Unquoted(field, false, body);
  }

  lemma AnnotatedNotLevels(field: string, seps: seq<string>, blanks: bool, before: string, word: string, after: string)
    requires AllIn(before, Segment) && seps != []
    ensures LevelsShape(field, seps, blanks, field + (before + Annotation(word) + after)) == None
    ensures PlaceholderShape(field, field + (before + Annotation(word) + after)) == None
  {
    var run, tail := AnnotatedText(field, before, word, after);
    NoPlaceholder(field, seps, blanks, field + (before + Annotation(word) + after), run, tail);
  }

  lemma ResearchAnnotatedReaches(before: string, word: string, after: string)
    requires AllIn(before, Segment)
    ensures var line := ResearchTip + (before + Annotation(word) + after);
      Classify(Table, line) == FirstMatchFrom(Table, line, 10)
  {
    var line := ResearchTip + (before + Annotation(word) + after);
    var run, tail := AnnotatedText(ResearchTip, before, word, after);
    ResearchStart(line);
    AnnotatedNotLevels(ResearchTip, [ResearchLevel], true, before, word, after);
    SkipResearchLevels(line);
  }

  lemma UntipAnnotatedReaches(before: string, word: string, after: string)
    requires AllIn(before, Segment)
    ensures var line := UnTip + (before + Annotation(word) + after);
      Classify(Table, line) == FirstMatchFrom(Table, line, 17)
  {
    var line := UnTip + (before + Annotation(word) + after);
    var run, tail := AnnotatedText(UnTip, before, word, after);
    UntipStart(line);
    NotBlueFirst(run + tail);
    UntipColouredMiss(line);
    SkipUntipColoured(line);
  }

  lemma TipAnnotatedReaches(before: string, word: string, after: string)
    requires AllIn(before, Segment)
    ensures var line := TipField + (before + Annotation(word) + after);
      Classify(Table, line) == FirstMatchFrom(Table, line, 24)
  {
    var line := TipField + (before + Annotation(word) + after);
    var run, tail := AnnotatedText(TipField, before, word, after);
    TipStart(line);
    AnnotatedNotLevels(TipField, LabelledThree, true, before, word, after);
    AnnotatedNotLevels(TipField, BareThree, false, before, word, after);
    AnnotatedNotLevels(TipField, LabelledTwo, true, before, word, after);
    AnnotatedNotLevels(TipField, BareTwo, false, before, word, after);
    SkipTipLevels(line);
  }

  lemma AnnotatedReaches(field: string, before: string, word: string, after: string)
    requires field in TipFields && AllIn(before, Segment)
    ensures var line := field + (before + Annotation(word) + after);
      Classify(Table, line) == FirstMatchFrom(Table, line, AnnotatedIndex(field))
  {
    var line := field + (before + Annotation(word) + after);
    if field == AwakenTip {
      var run, tail := AnnotatedText(field, before, word, after);
      AwakenStart(line);
    } else if field == ResearchTip {
      ResearchAnnotatedReaches(before, word, after);
    } else if field == ReviveTip {
      var run, tail := AnnotatedText(field, before, word, after);
      ReviveStart(line);
    } else if field == UnTip {
      UntipAnnotatedReaches(before, word, after);
    } else {
      TipAnnotatedReaches(before, word, after);
    }
  }

  lemma KeptAt(line: string, a: nat, key: string)
    requires a < |Table| && Table[a].action == Keep
    requires Classify(Table, line) == FirstMatchFrom(Table, line, a) && Table[a].Recognize(line).Some?
    ensures Rewritten(Table, line, key) == line
  {
    Decide(line, a, key);
  }

  /**
   * A tooltip that already carries an annotation, `X=text (|cffffcc00W|r)text`,
   * is decided by its field's keep entry before any rewriting entry and is
   * left as it is, whatever the group's hotkey.
   */
  lemma AnnotatedKept(field: string, before: string, word: string, after: string, hotkey: string)
    requires field in TipFields
    requires AllIn(before, Segment) && |word| > 0 && AllIn(word, Word) && AllIn(after, Segment)
    ensures Rewritten(Table, field + (before + Annotation(word) + after), hotkey) == field + (before + Annotation(word) + after)
  {
    var line := field + (before + Annotation(word) + after);
    var a := AnnotatedIndex(field);
    AnnotatedReaches(field, before, word, after);
    AnnotatedExact(field, before, word, after);
    RecognizesAnnotated(Table[a], field, line);
    KeptAt(line, a, hotkey);
  }

  /**
   * A coloured Untip, `Untip="|cffc3dbff<text>|r"`, is decided by its keep
   * entry (entry 16) and left as it is, whatever the group's hotkey.
   */
  lemma UntipColouredKept(open: bool, text: string, close: bool, hotkey: string)
    requires |text| >= 2 && AllIn(text, Segment)
    ensures var line := UnTip + Quote(open) + (Blue + text + EndColour + Quote(close));
      && Classify(Table, line) == Some(16)
      && Rewritten(Table, line, hotkey) == line
  {
    var line := UnTip + Quote(open) + (Blue + text + EndColour + Quote(close));
    UntipColouredExact(open, text, close);
    UntipColouredStart(open, text, close);
    UntipEntries();
    RecognizesUntipColoured(Table[16], line);
    StopAt(Table, line, 16);
    KeptAt(line, 16, hotkey);
  }

  lemma UntipColouredStart(open: bool, text: string, close: bool)
    ensures var line := UnTip + Quote(open) + (Blue + text + EndColour + Quote(close));
      Classify(Table, line) == FirstMatchFrom(Table, line, 16)
  {
    var line := UnTip + Quote(open) + (Blue + text + EndColour + Quote(close));
    assert line == UnTip + (Quote(open) + (Blue + text + EndColour + Quote(close)));
    AfterField(UnTip, Quote(open) + (Blue + text + EndColour + Quote(close)));
    UntipStart(line);
  }

  /**
   * A line of blanks and tabs (or an empty line) is decided by the blank-line
   * entry (entry 4) and left as it is.
   */
  lemma BlankKept(pad: string, hotkey: string)
    requires AllIn(pad, Blank)
    ensures Classify(Table, pad) == Some(4)
    ensures Rewritten(Table, pad, hotkey) == pad
  {
    HeadEntries();
    BlankNotLead(pad);
    RecognizesHotkey(Table[1], "Hotkey=", pad);
    RecognizesHotkey(Table[2], "Researchhotkey=", pad);
    SkipOne(Table, pad, 0);
    SkipOne(Table, pad, 1);
    SkipOne(Table, pad, 2);
    SkipOne(Table, pad, 3);
    StopAt(Table, pad, 4);
    KeptAt(pad, 4, hotkey);
  }

  /** A blank line starts with none of the leads of entries 0-3. */
  lemma BlankNotLead(pad: string)
    requires AllIn(pad, Blank)
    ensures SectionShape(pad) == None && CommentShape(pad) == None
    ensures HotkeyShape("Hotkey=", pad) == None && HotkeyShape("Researchhotkey=", pad) == None
  {
    if pad != [] { assert In(pad[0], Blank); }
    NotStartsWith(pad, "[", 0);
    NotStartsWith(pad, "//", 0);
    NotStartsWith(pad, "Hotkey=", 0);
    NotStartsWith(pad, "Researchhotkey=", 0);
  }

  // ---- headers, hotkey lines and Unhotkey ----

  /** `Unhotkey=<text>` is overwritten with the group's hotkey: `Unhotkey=K`. */
  lemma UnhotkeyRewrite(text: string, hotkey: string)
    requires AllIn(text, Name)
    ensures Rewritten(Table, "Unhotkey=" + text, hotkey) == "Unhotkey=" + hotkey
  {
    var line := "Unhotkey=" + text;
    AfterField("Unhotkey=", text);
    UnhotkeyStart(line);
    UnhotkeyExact(text);
    OverwriteEntry();
    UnhotkeyEntry(line);
    Decide(line, 5, hotkey);
  }

  lemma UnhotkeyEntry(line: string)
    ensures Table[5].Recognize(line) == UnhotkeyShape(line)
  {
    OverwriteEntry();
    RecognizesUnhotkey(Table[5], line);
  }

  /** `[name]` with optional trailing blanks is a section header. */
  lemma SectionExact(name: string, pad: string)
    requires AllIn(name, Word) && AllIn(pad, Blank)
    ensures SectionShape("[" + name + "]" + pad) == Some([])
  {
    var line := "[" + name + "]" + pad;
    assert line[1..] == name + ("]" + pad);
    SpanOf(name, "]" + pad, Word);
    assert line[|name| + 2..] == pad;
  }

  /**
   * A section header is decided by the first entry, the command: the driver
   * closes the open group on it, and `Adjust` leaves it as it is.
   */
  lemma HeaderCommand(name: string, pad: string)
    requires AllIn(name, Word) && AllIn(pad, Blank)
    ensures var line := "[" + name + "]" + pad;
      && Classify(Table, line) == Some(0)
      && Table[0].Matches(line) == MatchCommand
  {
    var line := "[" + name + "]" + pad;
    SectionExact(name, pad);
    assert Table[0] == Expression(Command, Section);
    StopAt(Table, line, 0);
  }

  /**
   * A `//` line with no newline in it is decided by the comment entry, which
   * keeps it: `Adjust` leaves it as it is.
   */
  lemma CommentKept(text: string, key: string)
    requires forall i :: 0 <= i < |text| ==> text[i] != '\n'
    ensures var line := "//" + text;
      && Classify(Table, line) == Some(3)
      && Table[3].Matches(line) == MatchTrue
      && Table[3].Replace(line, key) == line
  {
    var line := "//" + text;
    CommentExact(text);
    AfterField("//", text);
    HeadEntries();
    SkipEntry(0, line, "//");
    SkipEntry(1, line, "//");
    SkipEntry(2, line, "//");
    StopAt(Table, line, 3);
  }

  lemma HotkeyEntries(line: string)
    ensures Table[1].Recognize(line) == HotkeyShape("Hotkey=", line)
    ensures Table[2].Recognize(line) == HotkeyShape("Researchhotkey=", line)
  {
    HeadEntries();
    RecognizesHotkey(Table[1], "Hotkey=", line);
    RecognizesHotkey(Table[2], "Researchhotkey=", line);
  }

  /**
   * `Hotkey=W,W2,W3` (up to two more words, then blanks) is decided by the
   * Hotkey= entry, and what it extracts is its first word `W`; likewise for
   * `Researchhotkey=`.
   */
  lemma HotkeyLine(field: string, word: string, more: seq<string>, pad: string)
    requires field == "Hotkey=" || field == "Researchhotkey="
    requires |word| > 0 && AllIn(word, Word) && |more| <= 2
    requires forall i :: 0 <= i < |more| ==> |more[i]| > 0 && AllIn(more[i], Word)
    requires AllIn(pad, Blank)
    ensures var line := field + (word + (Commas(more) + pad));
      var i := if field == "Hotkey=" then 1 else 2;
      && Classify(Table, line) == Some(i)
      && Table[i].Matches(line) == MatchHotkey
      && Table[i].Extract(line) == word
  {
    var line := field + (word + (Commas(more) + pad));
    var i := if field == "Hotkey=" then 1 else 2;
    AfterField(field, word + (Commas(more) + pad));
    HotkeyExact(field, word, more, pad);
    HeadEntries();
    HotkeyEntries(line);
    if field == "Hotkey=" {
      HotkeyStart(line);
    } else {
      ResearchHotkeyStart(line);
    }
    StopAt(Table, line, i);
  }

  // ---- a second run over the output ----

  lemma SegmentJoin(a: string, b: string)
    requires AllIn(a, Segment) && AllIn(b, Segment)
    ensures AllIn(a + b, Segment)
  {
    assert forall i :: 0 <= i < |a + b| ==> (a + b)[i] == if i < |a| then a[i] else b[i - |a|];
  }

  /**
   * What a one-placeholder tooltip is rewritten to (OnePlaceholderRewrite)
   * is, with a hotkey word, left as it is by a second run, with any hotkey:
   * the annotated entry now decides it.
   */
  lemma OnePlaceholderStable(field: string, before: string, key: char, after: string, hotkey: string, again: string)
    requires field in TipFields
    requires AllIn(before, Segment) && IsWordChar(key) && AllIn(after, Segment)
    requires |hotkey| > 0 && AllIn(hotkey, Word)
    ensures Rewritten(Table, field + before + [key] + after + Annotation(hotkey), again)
         == field + before + [key] + after + Annotation(hotkey)
  {
    var text := before + [key] + after;
    SegmentJoin(before, [key]);
    SegmentJoin(before + [key], after);
    assert field + before + [key] + after + Annotation(hotkey) == field + (text + Annotation(hotkey) + []);
    AnnotatedKept(field, text, hotkey, [], again);
  }

  /** Likewise for what a tooltip without a placeholder is rewritten to (NoPlaceholderRewrite). */
  lemma NoPlaceholderStable(field: string, text: string, hotkey: string, again: string)
    requires field in TipFields && AllIn(text, Segment)
    requires |hotkey| > 0 && AllIn(hotkey, Word)
    ensures Rewritten(Table, field + text + Annotation(hotkey), again) == field + text + Annotation(hotkey)
  {
    assert field + text + Annotation(hotkey) == field + (text + Annotation(hotkey) + []);
    AnnotatedKept(field, text, hotkey, [], again);
  }
}
