/**
 * Which entry of the table gets to decide a line: entries whose literal
 * lead differs from the line's field can never match it, so the
 * first-match scan of a tooltip line starts at that field's own block.
 */
module Precedence {
  import opened Wrappers
  import opened Text
  import opened Expressions
  import opened Groups

  /** Which recognizer an entry runs, one lemma per shape. */
  lemma RecognizesHotkey(e: Expression, field: string, line: string)
    requires e.shape == HotkeyDef(field)
    ensures e.Recognize(line) == HotkeyShape(field, line)
  {
  }

  lemma RecognizesUnhotkey(e: Expression, line: string)
    requires e.shape == Unhotkey
    ensures e.Recognize(line) == UnhotkeyShape(line)
  {
  }

  lemma RecognizesAnnotated(e: Expression, field: string, line: string)
    requires e.shape == Annotated(field)
    ensures e.Recognize(line) == AnnotatedShape(field, line)
  {
  }

  lemma RecognizesUntipColoured(e: Expression, line: string)
    requires e.shape == UntipColoured
    ensures e.Recognize(line) == UntipColouredShape(line)
  {
  }

  lemma RecognizesPlaceholder(e: Expression, field: string, line: string)
    requires e.shape == Placeholder(field)
    ensures e.Recognize(line) == PlaceholderShape(field, line)
  {
  }

  lemma RecognizesPlain(e: Expression, field: string, line: string)
    requires e.shape == Plain(field)
    ensures e.Recognize(line) == PlainShape(field, line)
  {
  }

  lemma RecognizesLevels(e: Expression, field: string, seps: seq<string>, blanks: bool, line: string)
    requires e.shape == Levels(field, seps, blanks)
    ensures e.Recognize(line) == LevelsShape(field, seps, blanks, line)
  {
  }

  /** Entries that do not match do not stop the scan. */
  lemma {:induction false} SkipRange(exprs: seq<Expression>, line: string, from: nat, stop: nat)
    requires from <= stop <= |exprs|
    requires forall j {:trigger exprs[j].Recognize(line)} :: from <= j < stop ==> exprs[j].Recognize(line).None?
    ensures FirstMatchFrom(exprs, line, from) == FirstMatchFrom(exprs, line, stop)
  {
    var k := from;
    while k < stop
      invariant from <= k <= stop
      invariant FirstMatchFrom(exprs, line, from) == FirstMatchFrom(exprs, line, k)
    {
      SkipOne(exprs, line, k);
      k := k + 1;
    }
  }

  /** An entry that does not match is passed over. */
  lemma SkipOne(exprs: seq<Expression>, line: string, j: nat)
    requires j < |exprs| && exprs[j].Recognize(line).None?
    ensures FirstMatchFrom(exprs, line, j) == FirstMatchFrom(exprs, line, j + 1)
  {
  }

  /** The scan stops at an entry that matches. */
  lemma StopAt(exprs: seq<Expression>, line: string, j: nat)
    requires j < |exprs| && exprs[j].Recognize(line).Some?
    ensures FirstMatchFrom(exprs, line, j) == Some(j)
  {
  }

  /** The first entry that matches decides how the line is rewritten. */
  lemma Decide(line: string, j: nat, key: string)
    requires j < |Table| && Classify(Table, line) == FirstMatchFrom(Table, line, j)
    requires Table[j].Recognize(line).Some?
    ensures Rewritten(Table, line, key) == Table[j].Replace(line, key)
  {
    StopAt(Table, line, j);
    RewrittenBy(Table, line, j, key);
  }

  /** A line that starts with `lead` is matched by no shape whose own lead differs from it. */
  lemma LeadMismatch(e: Expression, line: string, lead: string)
    requires StartsWith(line, lead) && Differs(e.shape.Lead(), lead)
    ensures e.Recognize(line).None?
  {
    DiffersExcludes(e.shape.Lead(), lead, line);
  }

  /** An entry whose lead differs from the line's field is passed over. */
  lemma SkipEntry(j: nat, line: string, field: string)
    requires j < |Table| && StartsWith(line, field) && Differs(Table[j].shape.Lead(), field)
    ensures FirstMatchFrom(Table, line, j) == FirstMatchFrom(Table, line, j + 1)
  {
    LeadMismatch(Table[j], line, field);
    SkipOne(Table, line, j);
  }

  // The entries of the table, block by block.

  lemma HeadEntries()
    ensures |Table| == 27
    ensures Table[0] == Expression(Command, Section)
    ensures Table[1] == Expression(Hotkey, HotkeyDef("Hotkey="))
    ensures Table[2] == Expression(Hotkey, HotkeyDef("Researchhotkey="))
    ensures Table[3] == Expression(Keep, Comment)
    ensures Table[4] == Expression(Keep, BlankLine)
  {
  }

  lemma OverwriteEntry()
    ensures Table[5] == Expression(Overwrite, Unhotkey)
  {
  }

  /** The three entries of a tooltip field: keep when annotated, one placeholder, no placeholder. */
  predicate TooltipBlock(a: nat, field: string) {
    && a + 3 <= |Table|
    && Table[a] == Expression(Keep, Annotated(field))
    && Table[a + 1] == Expression(ReplaceOne, Placeholder(field))
    && Table[a + 2] == Expression(ReplaceOne, Plain(field))
  }

  lemma AwakenEntries()
    ensures TooltipBlock(6, AwakenTip)
  {
  }

  lemma ResearchEntries()
    ensures Table[9] == Expression(ReplaceOne, Levels(ResearchTip, [ResearchLevel], true))
    ensures TooltipBlock(10, ResearchTip)
  {
  }

  lemma ReviveEntries()
    ensures TooltipBlock(13, ReviveTip)
  {
  }

  lemma UntipEntries()
    ensures Table[16] == Expression(Keep, UntipColoured)
    ensures TooltipBlock(17, UnTip)
  {
  }

  lemma TipEntries()
    ensures Table[20] == Expression(ReplaceThree, Levels(TipField, LabelledThree, true))
    ensures Table[21] == Expression(ReplaceThree, Levels(TipField, BareThree, false))
    ensures Table[22] == Expression(ReplaceTwo, Levels(TipField, LabelledTwo, true))
    ensures Table[23] == Expression(ReplaceTwo, Levels(TipField, BareTwo, false))
    ensures TooltipBlock(24, TipField)
  {
  }

  /** A line that starts with `field` passes the command, hotkey, comment and blank-line entries. */
  lemma SkipHeads(line: string, field: string)
    requires StartsWith(line, field) && |field| > 0 && !In(field[0], Blank)
    requires Differs("[", field) && Differs("Hotkey=", field) && Differs("Researchhotkey=", field) && Differs("//", field)
    ensures FirstMatchFrom(Table, line, 0) == FirstMatchFrom(Table, line, 5)
  {
    HeadEntries();
    SkipEntry(0, line, field);
    SkipEntry(1, line, field);
    SkipEntry(2, line, field);
    SkipEntry(3, line, field);
    assert line[..|field|][0] == line[0];
    SkipOne(Table, line, 4);
  }

  /** A line whose field differs from a tooltip block's field passes the whole block. */
  lemma SkipBlock(a: nat, f: string, line: string, field: string)
    requires TooltipBlock(a, f) && StartsWith(line, field) && Differs(f, field)
    ensures FirstMatchFrom(Table, line, a) == FirstMatchFrom(Table, line, a + 3)
  {
    SkipEntry(a, line, field);
    SkipEntry(a + 1, line, field);
    SkipEntry(a + 2, line, field);
  }

  lemma UnhotkeyStart(line: string)
    requires StartsWith(line, "Unhotkey=")
    ensures Classify(Table, line) == FirstMatchFrom(Table, line, 5)
  {
    SkipHeads(line, "Unhotkey=");
  }

  lemma AwakenStart(line: string)
    requires StartsWith(line, AwakenTip)
    ensures Classify(Table, line) == FirstMatchFrom(Table, line, 6)
  {
    SkipHeads(line, AwakenTip);
    OverwriteEntry();
    SkipEntry(5, line, AwakenTip);
  }

  /** `Researchtip=` passes the head entries (one of them shares the prefix `Research`). */
  lemma ResearchDiffers()
    ensures |ResearchTip| > 0 && !In(ResearchTip[0], Blank)
    ensures Differs("[", ResearchTip) && Differs("Hotkey=", ResearchTip)
    ensures Differs("Researchhotkey=", ResearchTip) && Differs("//", ResearchTip)
  {
  }

  lemma ResearchHeads(line: string)
    requires StartsWith(line, ResearchTip)
    ensures Classify(Table, line) == FirstMatchFrom(Table, line, 5)
  {
    ResearchDiffers();
    SkipHeads(line, ResearchTip);
  }

  lemma ResearchStart(line: string)
    requires StartsWith(line, ResearchTip)
    ensures Classify(Table, line) == FirstMatchFrom(Table, line, 9)
  {
    ResearchHeads(line);
    OverwriteEntry();
    SkipEntry(5, line, ResearchTip);
    AwakenEntries();
    SkipBlock(6, AwakenTip, line, ResearchTip);
  }

  /** A line that starts with a field of the later blocks gets past the Awakentip block. */
  lemma PastAwaken(line: string, field: string)
    requires StartsWith(line, field) && |field| > 0 && !In(field[0], Blank)
    requires Differs("[", field) && Differs("Hotkey=", field) && Differs("Researchhotkey=", field) && Differs("//", field)
    requires Differs("Unhotkey=", field) && Differs(AwakenTip, field)
    ensures Classify(Table, line) == FirstMatchFrom(Table, line, 9)
  {
    SkipHeads(line, field);
    OverwriteEntry();
    SkipEntry(5, line, field);
    AwakenEntries();
    SkipBlock(6, AwakenTip, line, field);
  }

  /** A line that starts with a field of the later blocks gets past the Researchtip block. */
  lemma PastResearch(line: string, field: string)
    requires StartsWith(line, field) && |field| > 0 && !In(field[0], Blank)
    requires Differs("[", field) && Differs("Hotkey=", field) && Differs("Researchhotkey=", field) && Differs("//", field)
    requires Differs("Unhotkey=", field) && Differs(AwakenTip, field) && Differs(ResearchTip, field)
    ensures Classify(Table, line) == FirstMatchFrom(Table, line, 13)
  {
    PastAwaken(line, field);
    ResearchEntries();
    SkipEntry(9, line, field);
    SkipBlock(10, ResearchTip, line, field);
  }

  lemma ReviveStart(line: string)
    requires StartsWith(line, ReviveTip)
    ensures Classify(Table, line) == FirstMatchFrom(Table, line, 13)
  {
    PastResearch(line, ReviveTip);
  }

  lemma UntipStart(line: string)
    requires StartsWith(line, UnTip)
    ensures Classify(Table, line) == FirstMatchFrom(Table, line, 16)
  {
    PastResearch(line, UnTip);
    ReviveEntries();
    SkipBlock(13, ReviveTip, line, UnTip);
  }

  lemma TipStart(line: string)
    requires StartsWith(line, TipField)
    ensures Classify(Table, line) == FirstMatchFrom(Table, line, 20)
  {
    PastResearch(line, TipField);
    ReviveEntries();
    SkipBlock(13, ReviveTip, line, TipField);
    UntipEntries();
    SkipEntry(16, line, TipField);
    SkipBlock(17, UnTip, line, TipField);
  }

  lemma HotkeyStart(line: string)
    requires StartsWith(line, "Hotkey=")
    ensures Classify(Table, line) == FirstMatchFrom(Table, line, 1)
  {
    HeadEntries();
    SkipEntry(0, line, "Hotkey=");
  }

  lemma ResearchHotkeyStart(line: string)
    requires StartsWith(line, "Researchhotkey=")
    ensures Classify(Table, line) == FirstMatchFrom(Table, line, 2)
  {
    HeadEntries();
    SkipEntry(0, line, "Researchhotkey=");
    SkipEntry(1, line, "Researchhotkey=");
  }
}
