/**
 * The pattern table of wc3.go: the `action` and `match` enums, the line
 * shapes its regular expressions recognise, and `Expression.matches`,
 * `extract` and `replace`.
 *
 * Each regular expression is a hand-written recognizer that returns Go's
 * submatch list `$1 … $n` (or None when the line does not match), so the
 * replacement templates below read `$n` as `Sub(g, n)`; a group the
 * expression does not have expands to "", as in Go.
 */
module Expressions {
  import opened Wrappers
  import opened Text

  /** What a table entry does with a line it matches (wc3.go:13-20). */
  datatype Action = Keep | Command | Hotkey | ReplaceOne | ReplaceTwo | ReplaceThree | Overwrite

  /** The result of `Expression.matches` (wc3.go:22-25). */
  datatype MatchKind = MatchFalse | MatchTrue | MatchHotkey | MatchCommand

  /** The tooltip fields that carry placeholders. */
  const AwakenTip := "Awakentip="
  const ResearchTip := "Researchtip="
  const ReviveTip := "Revivetip="
  const UnTip := "Untip="
  const TipField := "Tip="

  /** ` - [|cffffcc00Level n|r]`, the per-level label of a multi-level tooltip. */
  function Level(n: string): string {
    " - [" + Gold + "Level " + n + EndColour + "]"
  }

  /** The literal label a Researchtip keeps after its text. */
  const ResearchLevel := Level("%d")

  /** The separators closing each placeholder of the multi-level Tip forms. */
  const LabelledThree := [Level("1") + ",", Level("2") + ",", Level("3")]
  const BareThree := [",", ",", ""]
  const LabelledTwo := [Level("1") + ",", Level("2")]
  const BareTwo := [",", ""]

  /** The line shapes of the table; each stands for one regular expression of NewExpressions. */
  datatype Shape =
    | Section                       // ^\[[\w]*\][ \t]*$
    | HotkeyDef(field: string)      // ^field(\w+)(,\w+){0,2}[ \t]*$
    | Comment                       // ^\/\/.*$
    | BlankLine                     // ^[ \t]*$
    | Unhotkey                      // ^(Unhotkey=)([\w \!\.]*)$
    | Annotated(field: string)      // ^field S* \(\|cffffcc00\w+\|r\)S*$
    | UntipColoured                 // ^Untip="?\|cffc3dbffS{2,}\|r"?$
    | Placeholder(field: string)    // ^(field)"?(S*)\|cffffcc00(\w)\|r(S*)"?$
    | Plain(field: string)          // ^(field)"?(S*)"?$
    | Levels(field: string, seps: seq<string>, blanks: bool)
      // ^(field)"? then per separator (S*)\|cffffcc00(\w)\|r(S*)(sep), then "?$ or "?[ \t]*$
  {
    /** The literal every matching line starts with. */
    function Lead(): string {
      match this
      case Section => "["
      case HotkeyDef(f) => f
      case Comment => "//"
      case BlankLine => ""
      case Unhotkey => "Unhotkey="
      case Annotated(f) => f
      case UntipColoured => UnTip
      case Placeholder(f) => f
      case Plain(f) => f
      case Levels(f, _, _) => f
    }

    /** Runs the recognizer of this shape: the submatches when the line matches. */
    function Recognize(line: string): (r: Option<seq<string>>)
      ensures r.Some? ==> StartsWith(line, Lead())
    {
      match this
      case Section => SectionShape(line)
      case HotkeyDef(f) => HotkeyShape(f, line)
      case Comment => CommentShape(line)
      case BlankLine => BlankShape(line)
      case Unhotkey => UnhotkeyShape(line)
      case Annotated(f) => AnnotatedShape(f, line)
      case UntipColoured => UntipColouredShape(line)
      case Placeholder(f) => PlaceholderShape(f, line)
      case Plain(f) => PlainShape(f, line)
      case Levels(f, seps, blanks) => LevelsShape(f, seps, blanks, line)
    }
  }

  /** Drops the optional opening quote `"?` (greedy, as Go takes it). */
  function DropQuote(s: string): (r: string)
    ensures r == s || (s == "\"" + r)
  {
    if |s| > 0 && s[0] == '"' then s[1..] else s
  }

  /** `"?$` */
  predicate QuoteEnd(s: string) {
    s == [] || s == "\""
  }

  /** `"?[ \t]*$` */
  predicate QuoteBlankEnd(s: string) {
    AllIn(DropQuote(s), Blank)
  }

  /** One placeholder `before|cffffcc00K|rafter` followed by a separator. */
  datatype Piece = Piece(before: string, key: char, after: string, rest: string)

  /** `(S*)\|cffffcc00(\w)\|r(S*)sep` at the start of `s`. */
  function Marked(s: string, sep: string): (r: Option<Piece>)
    ensures r.Some? ==>
      && AllIn(r.value.before, Segment) && IsWordChar(r.value.key) && AllIn(r.value.after, Segment)
      && s == r.value.before + Gold + [r.value.key] + EndColour + r.value.after + sep + r.value.rest
  {
    match Sep(s, Gold)
    case None => None
    case Some((p, t)) =>
      if |t| >= 3 && IsWordChar(t[0]) && t[1..3] == EndColour then
        match Sep(t[3..], sep)
        case None => None
        case Some((q, rest)) =>
          MarkedSpelling(s, p, t, q, sep, rest);
          Some(Piece(p, t[0], q, rest))
      else None
  }

  lemma MarkedSpelling(s: string, p: string, t: string, q: string, sep: string, rest: string)
    requires |t| >= 3 && t[1..3] == EndColour
    requires s == p + Gold + t
    requires t[3..] == q + sep + rest
    ensures s == p + Gold + [t[0]] + EndColour + q + sep + rest
  {
    assert t == [t[0]] + t[1..3] + t[3..];
  }

  /** The text a list of placeholder groups `[before, key, after, sep]*` was read from. */
  function Spell(g: seq<string>): string
    decreases |g|
  {
    if |g| < 4 then "" else g[0] + Gold + g[1] + EndColour + g[2] + g[3] + Spell(g[4..])
  }

  lemma PiecesSpelling(s: string, m: Piece, sep: string, g: seq<string>, rest: string, h: seq<string>)
    requires s == m.before + Gold + [m.key] + EndColour + m.after + sep + m.rest
    requires m.rest == Spell(g) + rest
    requires h == [m.before, [m.key], m.after, sep] + g
    ensures s == Spell(h) + rest
  {
    assert h[4..] == g;
    assert Spell(h) == m.before + Gold + [m.key] + EndColour + m.after + sep + Spell(g);
  }

  /** One placeholder per separator, in order; four groups each. */
  function Pieces(s: string, seps: seq<string>): (r: Option<(seq<string>, string)>)
    ensures r.Some? ==> |r.value.0| == 4 * |seps| && s == Spell(r.value.0) + r.value.1
    decreases seps
  {
    if seps == [] then Some(([], s))
    else
      match Marked(s, seps[0])
      case None => None
      case Some(m) =>
        match Pieces(m.rest, seps[1..])
        case None => None
        case Some((g, rest)) =>
          var h := [m.before, [m.key], m.after, seps[0]] + g;
          PiecesSpelling(s, m, seps[0], g, rest, h);
          Some((h, rest))
  }

  // ---- one recognizer per shape; each returns the submatches $1..$n ----

  /** `^\[[\w]*\][ \t]*$`: `[`, a run of word characters, `]`, then blanks to the end. */
  function SectionShape(line: string): (r: Option<seq<string>>)
    ensures r.Some? ==> StartsWith(line, "[") && r.value == []
    ensures r.Some? ==> (
      && |line| >= 2
      && var k := 1 + Span(line[1..], Word);
         k < |line| && AllIn(line[1..k], Word) && line[k] == ']' && AllIn(line[k + 1..], Blank))
  {
    if |line| > 0 && line[0] == '[' then
      var n := Span(line[1..], Word);
      assert line[1..][..n] == line[1..1 + n];
      if 1 + n < |line| && line[1 + n] == ']' && AllIn(line[n + 2..], Blank) then Some([]) else None
    else None
  }

  /** `,\w+` at the start of `t`: its length, or 0. */
  function CommaWord(t: string): (n: nat)
    ensures n <= |t|
    ensures n > 0 ==> n >= 2 && t[0] == ',' && AllIn(t[1..n], Word)
  {
    if |t| > 0 && t[0] == ',' && Span(t[1..], Word) > 0 then
      assert t[1..1 + Span(t[1..], Word)] == t[1..][..Span(t[1..], Word)];
      1 + Span(t[1..], Word)
    else 0
  }

  /** `^field(\w+)(,\w+){0,2}[ \t]*$`; group 2 is the last repetition. */
  function HotkeyShape(field: string, line: string): (r: Option<seq<string>>)
    ensures r.Some? ==> StartsWith(line, field) && |r.value| == 2
    ensures r.Some? ==> |r.value[0]| > 0 && AllIn(r.value[0], Word) && StartsWith(line[|field|..], r.value[0])
    ensures r.Some? ==> StartsWith(line, field) && r.value[0] == line[|field|..][..Span(line[|field|..], Word)]
  {
    if !(StartsWith(line, field)) then None
    else
      var s := line[|field|..];
      var n := Span(s, Word);
      var t := s[n..];
      var a := CommaWord(t);
      var b := CommaWord(t[a..]);
      if n > 0 && AllIn(t[a..][b..], Blank) then
        Some([s[..n], if b > 0 then t[a..][..b] else t[..a]])
      else None
  }

  /** `^\/\/.*$`: `//` then any characters but a newline (`.` does not match `\n`). */
  function CommentShape(line: string): (r: Option<seq<string>>)
    ensures r.Some? <==> StartsWith(line, "//") && forall i :: 2 <= i < |line| ==> line[i] != '\n'
    ensures r.Some? ==> r.value == []
  {
    if StartsWith(line, "//") && (forall i :: 2 <= i < |line| ==> line[i] != '\n') then Some([]) else None
  }

  function BlankShape(line: string): (r: Option<seq<string>>)
    ensures r.Some? <==> AllIn(line, Blank)
  {
    if AllIn(line, Blank) then Some([]) else None
  }

  function UnhotkeyShape(line: string): (r: Option<seq<string>>)
    ensures r.Some? <==> StartsWith(line, "Unhotkey=") && AllIn(line[9..], Name)
    ensures r.Some? ==> r.value == ["Unhotkey=", line[9..]]
  {
    if StartsWith(line, "Unhotkey=") && AllIn(line[9..], Name) then Some(["Unhotkey=", line[9..]]) else None
  }

  function AnnotatedShape(field: string, line: string): (r: Option<seq<string>>)
    ensures r.Some? ==> StartsWith(line, field)
  {
    if !(StartsWith(line, field)) then None
    else
      match Sep(line[|field|..], " (" + Gold)
      case None => None
      case Some((_, t)) =>
        var n := Span(t, Word);
        if n > 0 && StartsWith(t[n..], EndColour + ")") && AllIn(t[n + 3..], Segment) then Some([]) else None
  }

  function UntipColouredShape(line: string): (r: Option<seq<string>>)
    ensures r.Some? ==> StartsWith(line, UnTip)
  {
    if !(StartsWith(line, UnTip)) then None
    else
      var s := DropQuote(line[|UnTip|..]);
      if !(StartsWith(s, Blue)) then None
      else
        var t := s[10..];
        var n := Span(t, Segment);
        if n >= 2 && StartsWith(t[n..], EndColour) && QuoteEnd(t[n + 2..]) then Some([]) else None
  }

  function PlaceholderShape(field: string, line: string): (r: Option<seq<string>>)
    ensures r.Some? ==> StartsWith(line, field) && |r.value| == 4 && r.value[0] == field && |r.value[2]| == 1
  {
    if !(StartsWith(line, field)) then None
    else
      match Marked(DropQuote(line[|field|..]), "")
      case None => None
      case Some(m) => if QuoteEnd(m.rest) then Some([field, m.before, [m.key], m.after]) else None
  }

  function PlainShape(field: string, line: string): (r: Option<seq<string>>)
    ensures r.Some? ==> StartsWith(line, field) && |r.value| == 2 && r.value[0] == field && AllIn(r.value[1], Segment)
  {
    if !(StartsWith(line, field)) then None
    else
      var s := DropQuote(line[|field|..]);
      var n := Span(s, Segment);
      if QuoteEnd(s[n..]) then Some([field, s[..n]]) else None
  }

  function LevelsShape(field: string, seps: seq<string>, blanks: bool, line: string): (r: Option<seq<string>>)
    ensures r.Some? ==> StartsWith(line, field) && |r.value| == 1 + 4 * |seps| && r.value[0] == field
  {
    if !(StartsWith(line, field)) then None
    else
      match Pieces(DropQuote(line[|field|..]), seps)
      case None => None
      case Some((g, rest)) =>
        if (if blanks then QuoteBlankEnd(rest) else QuoteEnd(rest)) then Some([field] + g) else None
  }

  /** Go's `$n` in a replacement template: group n, or "" when there is none. */
  function Sub(g: seq<string>, n: nat): string {
    if 1 <= n <= |g| then g[n - 1] else ""
  }

  /** An entry of the table: an action and the shape of its regular expression (wc3.go:29-32). */
  datatype Expression = Expression(action: Action, shape: Shape) {

    function Recognize(line: string): Option<seq<string>> {
      shape.Recognize(line)
    }

    /** wc3.go:35-52. */
    function Matches(line: string): (m: MatchKind)
      ensures m == MatchFalse <==> Recognize(line).None?
      ensures m == MatchCommand <==> Recognize(line).Some? && action == Command
      ensures m == MatchHotkey <==> Recognize(line).Some? && action == Hotkey
      ensures m == MatchTrue <==> Recognize(line).Some? && action != Command && action != Hotkey
    {
      if Recognize(line).Some? then
        match action
        case Command => MatchCommand
        case Hotkey => MatchHotkey
        case _ => MatchTrue
      else MatchFalse
    }

    /** wc3.go:54-56: `$1`, the hotkey word of a Hotkey=/Researchhotkey= line. */
    function Extract(line: string): (r: string)
      requires Recognize(line).Some?
      ensures shape.HotkeyDef? ==> |r| > 0 && AllIn(r, Word) && StartsWith(line[|shape.field|..], r)
      ensures shape.HotkeyDef? ==> (
        && StartsWith(line, shape.field)
        && r == line[|shape.field|..][..Span(line[|shape.field|..], Word)])
    {
      Sub(Recognize(line).value, 1)
    }

    /**
     * wc3.go:59-86, with `fmt.Sprintf` as concatenation (no captured text
     * can hold a `%`).  ReplaceTwo also appends `$9`, the label closing the
     * second placeholder; see ReplaceTwoAsWritten for the template as written.
     */
    function Replace(line: string, key: string): (r: string)
      requires Recognize(line).Some?
      ensures action == Keep || action == Command || action == Hotkey ==> r == line
    {
      var g := Recognize(line).value;
      match action
      case Keep => line
      case Command => line
      case Hotkey => line
      case Overwrite => Sub(g, 1) + key
      case ReplaceOne =>
        Sub(g, 1) + Sub(g, 2) + Sub(g, 3) + Sub(g, 4) + Annotation(key) + Sub(g, 5)
      case ReplaceTwo =>
        Sub(g, 1) + Sub(g, 2) + Sub(g, 3) + Sub(g, 4) + Annotation(key)
        + Sub(g, 5) + Sub(g, 6) + Sub(g, 7) + Sub(g, 8) + Annotation(key) + Sub(g, 9)
      case ReplaceThree =>
        Sub(g, 1) + Sub(g, 2) + Sub(g, 3) + Sub(g, 4) + Annotation(key)
        + Sub(g, 5) + Sub(g, 6) + Sub(g, 7) + Sub(g, 8) + Annotation(key)
        + Sub(g, 9) + Sub(g, 10) + Sub(g, 11) + Sub(g, 12) + Annotation(key) + Sub(g, 13) + Sub(g, 14)
    }

    /** wc3.go:79 as written: the template stops at `$8`, so `$9` is missing from the result. */
    function ReplaceTwoAsWritten(line: string, key: string): (r: string)
      requires Recognize(line).Some?
      ensures action == ReplaceTwo ==> r + Sub(Recognize(line).value, 9) == Replace(line, key)
    {
      var g := Recognize(line).value;
      Sub(g, 1) + Sub(g, 2) + Sub(g, 3) + Sub(g, 4) + Annotation(key)
      + Sub(g, 5) + Sub(g, 6) + Sub(g, 7) + Sub(g, 8) + Annotation(key)
    }
  }

  /** NewExpressions (wc3.go:89-221), in its order. */
  const Table: seq<Expression> := [
    Expression(Command, Section),                                   // 0  command
    Expression(Hotkey, HotkeyDef("Hotkey=")),                       // 1  hotkey
    Expression(Hotkey, HotkeyDef("Researchhotkey=")),               // 2  researchhotkey
    Expression(Keep, Comment),                                      // 3  comment
    Expression(Keep, BlankLine),                                    // 4  empty
    Expression(Overwrite, Unhotkey),                                // 5  unhotkey
    Expression(Keep, Annotated(AwakenTip)),                         // 6
    Expression(ReplaceOne, Placeholder(AwakenTip)),                 // 7
    Expression(ReplaceOne, Plain(AwakenTip)),                       // 8
    Expression(ReplaceOne, Levels(ResearchTip, [ResearchLevel], true)), // 9
    Expression(Keep, Annotated(ResearchTip)),                       // 10
    Expression(ReplaceOne, Placeholder(ResearchTip)),               // 11
    Expression(ReplaceOne, Plain(ResearchTip)),                     // 12
    Expression(Keep, Annotated(ReviveTip)),                         // 13
    Expression(ReplaceOne, Placeholder(ReviveTip)),                 // 14
    Expression(ReplaceOne, Plain(ReviveTip)),                       // 15
    Expression(Keep, UntipColoured),                                // 16
    Expression(Keep, Annotated(UnTip)),                             // 17
    Expression(ReplaceOne, Placeholder(UnTip)),                     // 18
    Expression(ReplaceOne, Plain(UnTip)),                           // 19
    Expression(ReplaceThree, Levels(TipField, LabelledThree, true)),  // 20
    Expression(ReplaceThree, Levels(TipField, BareThree, false)),     // 21
    Expression(ReplaceTwo, Levels(TipField, LabelledTwo, true)),      // 22
    Expression(ReplaceTwo, Levels(TipField, BareTwo, false)),         // 23
    Expression(Keep, Annotated(TipField)),                          // 24
    Expression(ReplaceOne, Placeholder(TipField)),                  // 25
    Expression(ReplaceOne, Plain(TipField))                         // 26
  ]
}
