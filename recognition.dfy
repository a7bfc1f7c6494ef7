/**
 * What the recognizers of the expression table accept and what they read
 * out of a line: for each shape, the lines built from well-formed parts
 * are recognised with exactly those parts as submatches, and a few
 * near-misses are rejected.
 */
module Recognition {
  import opened Wrappers
  import opened Text
  import opened Expressions

  /** The optional quote `"?`, present or not. */
  function Quote(present: bool): string {
    if present then "\"" else ""
  }

  lemma DropQuoteOf(present: bool, body: string)
    requires body == [] || body[0] != '"'
    ensures DropQuote(Quote(present) + body) == body
  {
    if present {
      assert (Quote(present) + body)[1..] == body;
    }
  }

  /** A placeholder `before|cffffcc00K|rafter` followed by `sep` is read back part by part. */
  lemma MarkedExact(before: string, key: char, after: string, sep: string, rest: string)
    requires AllIn(before, Segment) && IsWordChar(key) && AllIn(after, Segment)
    requires Delimits(sep, rest)
    ensures Marked(before + Gold + [key] + EndColour + after + sep + rest, sep) == Some(Piece(before, key, after, rest))
  {
    GoldDelimits();
    var t := MarkedParts(before, key, after, sep, rest);
    SepExact(before, Gold, t);
    SepExact(after, sep, rest);
  }

  /** The colour code starts with a non-segment character, so it ends any segment run. */
  lemma GoldDelimits()
    ensures Span(Gold, Segment) == 0 && Gold[0] == '|' && |Gold| > 0
  {
    assert !In(Gold[0], Segment);
  }

  /** What follows the colour code in a placeholder: key, reset, text after, separator, rest. */
  lemma MarkedParts(before: string, key: char, after: string, sep: string, rest: string) returns (t: string)
    ensures before + Gold + [key] + EndColour + after + sep + rest == before + Gold + t
    ensures |t| >= 3 && t[0] == key && t[1..3] == EndColour && t[3..] == after + sep + rest
  {
    t := [key] + EndColour + after + sep + rest;
    assert t[1..3] == EndColour && t[3..] == after + sep + rest;
  }

  /**
   * Placeholder groups `[before, key, after, sep]*` that a line can be
   * built from: each part in its character class and each separator
   * delimited by what follows it.
   */
  predicate WellPlaced(g: seq<string>, seps: seq<string>, rest: string)
    decreases |seps|
  {
    && |g| == 4 * |seps|
    && (seps != [] ==>
         && AllIn(g[0], Segment) && |g[1]| == 1 && IsWordChar(g[1][0]) && AllIn(g[2], Segment)
         && g[3] == seps[0]
         && Delimits(seps[0], Spell(g[4..]) + rest)
         && WellPlaced(g[4..], seps[1..], rest))
  }

  /**
   * `g` is a list of placeholder groups `[before, key, after, sep]`, one per
   * separator of `seps`: segment text, one word character, segment text and
   * that separator.
   */
  predicate Placeholders(g: seq<string>, seps: seq<string>)
    decreases |seps|
  {
    && |g| == 4 * |seps|
    && (seps != [] ==>
         && AllIn(g[0], Segment) && |g[1]| == 1 && IsWordChar(g[1][0]) && AllIn(g[2], Segment)
         && g[3] == seps[0]
         && Placeholders(g[4..], seps[1..]))
  }

  /** Separators that end in a non-segment character, except maybe the last, which `rest` then delimits. */
  predicate Closing(seps: seq<string>, rest: string) {
    && (forall i :: 0 <= i < |seps| - 1 ==> Span(seps[i], Segment) < |seps[i]|)
    && (seps != [] ==> Delimits(seps[|seps| - 1], rest))
  }

  lemma {:induction false} WellPlacedOf(g: seq<string>, seps: seq<string>, rest: string)
    requires Placeholders(g, seps) && Closing(seps, rest)
    ensures WellPlaced(g, seps, rest)
    decreases |seps|
  {
    if seps != [] {
      if |seps| == 1 {
        assert g[4..] == [] && Spell(g[4..]) + rest == rest;
      } else {
        assert Span(seps[0], Segment) < |seps[0]|;
        assert Closing(seps[1..], rest) by {
          forall i | 0 <= i < |seps[1..]| - 1 ensures Span(seps[1..][i], Segment) < |seps[1..][i]| {
            assert seps[1..][i] == seps[i + 1];
          }
          assert seps[1..][|seps[1..]| - 1] == seps[|seps| - 1];
        }
      }
      WellPlacedOf(g[4..], seps[1..], rest);
    }
  }

  lemma SpellFirst(g: seq<string>, rest: string)
    requires |g| >= 4 && |g[1]| == 1
    ensures Spell(g) + rest == g[0] + Gold + [g[1][0]] + EndColour + g[2] + g[3] + (Spell(g[4..]) + rest)
  {
    assert g[1] == [g[1][0]];
  }

  lemma PiecesStep(s: string, seps: seq<string>, m: Piece, g: seq<string>, rest: string)
    requires seps != [] && Marked(s, seps[0]) == Some(m)
    requires Pieces(m.rest, seps[1..]) == Some((g, rest))
    ensures Pieces(s, seps) == Some(([m.before, [m.key], m.after, seps[0]] + g, rest))
  {
  }

  lemma PiecesNone(g: seq<string>, rest: string)
    requires g == []
    ensures Pieces(Spell(g) + rest, []) == Some((g, rest))
  {
    assert Spell(g) + rest == rest;
  }

  lemma Regroup(g: seq<string>)
    requires |g| >= 4 && |g[1]| == 1
    ensures [g[0], [g[1][0]], g[2], g[3]] + g[4..] == g
  {
    assert g[1] == [g[1][0]];
    var h := [g[0], [g[1][0]], g[2], g[3]] + g[4..];
    assert forall i :: 0 <= i < |g| ==> h[i] == g[i];
  }

  /** Pieces reads back every well-placed list of groups it could have come from. */
  lemma {:induction false} PiecesExact(g: seq<string>, seps: seq<string>, rest: string)
    requires WellPlaced(g, seps, rest)
    ensures Pieces(Spell(g) + rest, seps) == Some((g, rest))
    decreases |seps|
  {
    if seps != [] {
      var tail := Spell(g[4..]) + rest;
      SpellFirst(g, rest);
      MarkedExact(g[0], g[1][0], g[2], seps[0], tail);
      PiecesExact(g[4..], seps[1..], rest);
      PiecesStep(Spell(g) + rest, seps, Piece(g[0], g[1][0], g[2], tail), g[4..], rest);
      Regroup(g);
    } else {
      PiecesNone(g, rest);
    }
  }

  /** A line split after its field. */
  lemma AfterField(field: string, rest: string)
    ensures StartsWith(field + rest, field) && (field + rest)[|field|..] == rest
  {
    assert (field + rest)[..|field|] == field;
  }

  lemma NoQuoteFirst(seg: string, more: string)
    requires AllIn(seg, Segment) && |more| > 0 && more[0] != '"'
    ensures (seg + more)[0] != '"'
  {
    if seg != [] { assert (seg + more)[0] == seg[0]; } else { assert seg + more == more; }
  }

  /** `^Unhotkey=([\w \!\.]*)$` reads the name text back. */
  lemma UnhotkeyExact(text: string)
    requires AllIn(text, Name)
    ensures UnhotkeyShape("Unhotkey=" + text) == Some(["Unhotkey=", text])
  {
    AfterField("Unhotkey=", text);
  }

  /** The text after the field and its optional opening quote. */
  lemma Unquoted(field: string, open: bool, body: string)
    requires body == [] || body[0] != '"'
    ensures StartsWith(field + Quote(open) + body, field) && DropQuote((field + Quote(open) + body)[|field|..]) == body
  {
    assert field + Quote(open) + body == field + (Quote(open) + body);
    AfterField(field, Quote(open) + body);
    DropQuoteOf(open, body);
  }

  /** The text after `field=` and its optional quote in a tooltip with one placeholder. */
  function One(before: string, key: char, after: string, close: bool): string {
    before + Gold + [key] + EndColour + after + Quote(close)
  }

  lemma PlaceholderBody(before: string, key: char, after: string, close: bool)
    requires AllIn(before, Segment) && IsWordChar(key) && AllIn(after, Segment)
    ensures var body := One(before, key, after, close);
      && body[0] != '"'
      && Marked(body, "") == Some(Piece(before, key, after, Quote(close)))
  {
    var body := before + Gold + [key] + EndColour + after + Quote(close);
    NoQuoteFirst(before, Gold + [key] + EndColour + after + Quote(close));
    assert body == before + (Gold + [key] + EndColour + after + Quote(close));
    MarkedExact(before, key, after, "", Quote(close));
    assert body == before + Gold + [key] + EndColour + after + "" + Quote(close);
  }

  /** A tooltip with one placeholder, quoted or not, yields field, before-text, key and after-text. */
  lemma PlaceholderExact(field: string, open: bool, before: string, key: char, after: string, close: bool)
    requires AllIn(before, Segment) && IsWordChar(key) && AllIn(after, Segment)
    ensures PlaceholderShape(field, field + Quote(open) + One(before, key, after, close)) == Some([field, before, [key], after])
  {
    var body := One(before, key, after, close);
    PlaceholderBody(before, key, after, close);
    Unquoted(field, open, body);
    PlaceholderOf(field, field + Quote(open) + body, body, Piece(before, key, after, Quote(close)));
  }

  lemma PlaceholderOf(field: string, line: string, body: string, m: Piece)
    requires StartsWith(line, field) && DropQuote(line[|field|..]) == body
    requires Marked(body, "") == Some(m) && QuoteEnd(m.rest)
    ensures PlaceholderShape(field, line) == Some([field, m.before, [m.key], m.after])
  {
  }

  /** A tooltip without a placeholder, quoted or not, yields field and text. */
  lemma PlainExact(field: string, open: bool, text: string, close: bool)
    requires AllIn(text, Segment)
    ensures PlainShape(field, field + Quote(open) + (text + Quote(close))) == Some([field, text])
  {
    var body := text + Quote(close);
    var line := field + Quote(open) + body;
    if text == [] {
      assert body == Quote(close);
      assert line == field + (Quote(open) + Quote(close));
      AfterField(field, Quote(open) + Quote(close));
      var s := DropQuote(Quote(open) + Quote(close));
      assert s == [] || s == "\"";
      assert Span(s, Segment) == 0;
    } else {
      assert body[0] == text[0];
      Unquoted(field, open, body);
      PlainBody(text, close);
    }
  }

  lemma PlainBody(text: string, close: bool)
    requires AllIn(text, Segment)
    ensures var s := text + Quote(close);
      Span(s, Segment) == |text| && s[..|text|] == text && s[|text|..] == Quote(close)
  {
    SpanOf(text, Quote(close), Segment);
    assert (text + Quote(close))[..|text|] == text;
  }

  lemma SpellHead(g: seq<string>, rest: string)
    requires |g| >= 4 && AllIn(g[0], Segment)
    ensures (Spell(g) + rest)[0] != '"'
  {
    assert (Spell(g) + rest)[0] == (g[0] + Gold)[0];
    if g[0] == [] {
      assert (g[0] + Gold)[0] == Gold[0];
    } else {
      assert (g[0] + Gold)[0] == g[0][0];
    }
  }

  lemma LevelsBody(g: seq<string>, seps: seq<string>, rest: string)
    requires seps != [] && WellPlaced(g, seps, rest)
    ensures (Spell(g) + rest)[0] != '"'
    ensures Pieces(Spell(g) + rest, seps) == Some((g, rest))
  {
    SpellHead(g, rest);
    PiecesExact(g, seps, rest);
  }

  lemma LevelsOf(field: string, seps: seq<string>, blanks: bool, line: string, g: seq<string>, rest: string)
    requires StartsWith(line, field) && Pieces(DropQuote(line[|field|..]), seps) == Some((g, rest))
    requires if blanks then QuoteBlankEnd(rest) else QuoteEnd(rest)
    ensures LevelsShape(field, seps, blanks, line) == Some([field] + g)
  {
  }

  /**
   * A multi-placeholder tooltip: field, optional quote, the placeholder
   * groups, optional quote and (where the pattern allows) trailing blanks
   * yields the field followed by every group in order.
   */
  lemma LevelsExact(field: string, open: bool, g: seq<string>, seps: seq<string>, blanks: bool, close: bool, pad: string)
    requires seps != [] && WellPlaced(g, seps, Quote(close) + pad)
    requires AllIn(pad, Blank) && (blanks || pad == [])
    ensures LevelsShape(field, seps, blanks, field + Quote(open) + (Spell(g) + (Quote(close) + pad))) == Some([field] + g)
  {
    var rest := Quote(close) + pad;
    LevelsBody(g, seps, rest);
    Unquoted(field, open, Spell(g) + rest);
    LevelsEnd(blanks, close, pad);
    LevelsOf(field, seps, blanks, field + Quote(open) + (Spell(g) + rest), g, rest);
  }

  /** The optional closing quote and, where allowed, trailing blanks end a tooltip. */
  lemma LevelsEnd(blanks: bool, close: bool, pad: string)
    requires AllIn(pad, Blank) && (blanks || pad == [])
    ensures if blanks then QuoteBlankEnd(Quote(close) + pad) else QuoteEnd(Quote(close) + pad)
  {
    if blanks {
      assert pad == [] || pad[0] != '"';
      DropQuoteOf(close, pad);
    } else {
      assert Quote(close) + pad == Quote(close);
    }
  }

  lemma AnnotationSplit(before: string, word: string, after: string)
    requires AllIn(before, Segment) && |word| > 0 && AllIn(word, Word)
    ensures Sep(before + Annotation(word) + after, " (" + Gold) == Some((before, word + (EndColour + ")" + after)))
  {
    var lit := " (" + Gold;
    var t := word + (EndColour + ")" + after);
    assert before + Annotation(word) + after == before + lit + t;
    assert Span(lit, Segment) == 1 by { assert In(lit[0], Segment) && !In(lit[1], Segment); }
    SepExact(before, lit, t);
  }

  lemma WordThenClose(word: string, after: string)
    requires |word| > 0 && AllIn(word, Word)
    ensures var t := word + (EndColour + ")" + after);
      Span(t, Word) == |word| && t[|word|..] == EndColour + ")" + after && t[|word| + 3..] == after
  {
    SpanOf(word, EndColour + ")" + after, Word);
    assert (word + (EndColour + ")" + after))[|word|..] == EndColour + ")" + after;
  }

  lemma AnnotatedOf(field: string, line: string, t: string, n: nat)
    requires StartsWith(line, field) && Sep(line[|field|..], " (" + Gold).Some?
    requires Sep(line[|field|..], " (" + Gold).value.1 == t
    requires Span(t, Word) == n && n > 0 && StartsWith(t[n..], EndColour + ")") && AllIn(t[n + 3..], Segment)
    ensures AnnotatedShape(field, line) == Some([])
  {
  }

  /** ` (|cffffcc00W|r)` after segment text marks a tooltip as already annotated. */
  lemma AnnotatedExact(field: string, before: string, word: string, after: string)
    requires AllIn(before, Segment) && |word| > 0 && AllIn(word, Word) && AllIn(after, Segment)
    ensures AnnotatedShape(field, field + (before + Annotation(word) + after)) == Some([])
  {
    var t := word + (EndColour + ")" + after);
    AfterField(field, before + Annotation(word) + after);
    AnnotationSplit(before, word, after);
    WordThenClose(word, after);
    assert StartsWith(t[|word|..], EndColour + ")");
    AnnotatedOf(field, field + (before + Annotation(word) + after), t, |word|);
  }

  /** Segment text ended by anything but ` (` is not an annotated tooltip. */
  lemma AnnotatedMiss(field: string, text: string, tail: string)
    requires AllIn(text, Segment)
    requires tail == [] || (!In(tail[0], Segment) && tail[0] != '(')
    ensures AnnotatedShape(field, field + (text + tail)) == None
  {
    var lit := " (" + Gold;
    AfterField(field, text + tail);
    assert Span(lit, Segment) == 1 by { assert In(lit[0], Segment) && !In(lit[1], Segment); }
    assert |tail| > 0 && tail[0] == '(' ==> true;
    assert lit[1..][0] == '(';
    SepMiss(text, tail, lit);
  }

  /** A prefix in common does not change whether one string starts with another. */
  lemma StartsWithAfter(a: string, b: string, c: string)
    ensures StartsWith(a + b, a + c) ==> StartsWith(b, c)
  {
    if StartsWith(a + b, a + c) {
      assert (a + b)[..|a| + |c|][|a|..] == b[..|c|];
      assert (a + c)[|a|..] == c;
    }
  }

  /** Without the gold colour code right after the first segment run there is no placeholder. */
  lemma MarkedMissGold(text: string, tail: string, sep: string)
    requires AllIn(text, Segment)
    requires tail == [] || (!In(tail[0], Segment) && tail[0] != '|')
    ensures Marked(text + tail, sep) == None
  {
    GoldDelimits();
    assert Gold[0..] == Gold;
    NotStartsWith(tail, Gold, 0);
    SepMiss(text, tail, Gold);
  }

  /** A placeholder not followed by `sep` (after the segment run) is not read. */
  lemma MarkedMissSep(before: string, key: char, after: string, tail: string, sep: string)
    requires AllIn(before, Segment) && IsWordChar(key) && AllIn(after, Segment)
    requires tail == [] || !In(tail[0], Segment)
    requires !StartsWith(tail, sep[Span(sep, Segment)..])
    ensures Marked(before + Gold + [key] + EndColour + (after + tail), sep) == None
  {
    var t := [key] + EndColour + (after + tail);
    assert before + Gold + [key] + EndColour + (after + tail) == before + Gold + t;
    assert Span(Gold, Segment) == 0 by { assert !In(Gold[0], Segment); }
    SepExact(before, Gold, t);
    assert t[1..3] == EndColour && t[3..] == after + tail;
    SepMiss(after, tail, sep);
  }

  lemma PiecesMissFirst(s: string, seps: seq<string>)
    requires seps != [] && Marked(s, seps[0]) == None
    ensures Pieces(s, seps) == None
  {
  }

  lemma PiecesMissLater(s: string, seps: seq<string>, m: Piece)
    requires seps != [] && Marked(s, seps[0]) == Some(m) && Pieces(m.rest, seps[1..]) == None
    ensures Pieces(s, seps) == None
  {
  }

  lemma LevelsMiss(field: string, seps: seq<string>, blanks: bool, line: string)
    requires StartsWith(line, field) && Pieces(DropQuote(line[|field|..]), seps) == None
    ensures LevelsShape(field, seps, blanks, line) == None
  {
  }

  lemma PlaceholderMiss(field: string, line: string)
    requires StartsWith(line, field) && Marked(DropQuote(line[|field|..]), "") == None
    ensures PlaceholderShape(field, line) == None
  {
  }

  /** The first placeholder of a list of groups, with everything after its key as one tail. */
  lemma GroupsHead(g: seq<string>, rest: string)
    requires |g| >= 4 && |g[1]| == 1
    ensures Spell(g) + rest == g[0] + Gold + [g[1][0]] + EndColour + (g[2] + (g[3] + (Spell(g[4..]) + rest)))
  {
    SpellFirst(g, rest);
  }

  /** Pieces fails when the first placeholder is not followed by the first separator. */
  lemma PiecesMissHead(g: seq<string>, rest: string, seps: seq<string>, run: string, tail: string)
    requires |g| >= 4 && AllIn(g[0], Segment) && |g[1]| == 1 && IsWordChar(g[1][0])
    requires g[2] + (g[3] + (Spell(g[4..]) + rest)) == run + tail
    requires AllIn(run, Segment) && (tail == [] || !In(tail[0], Segment))
    requires seps != [] && !StartsWith(tail, seps[0][Span(seps[0], Segment)..])
    ensures Pieces(Spell(g) + rest, seps) == None
  {
    GroupsHead(g, rest);
    MarkedMissSep(g[0], g[1][0], run, tail, seps[0]);
    PiecesMissFirst(Spell(g) + rest, seps);
  }

  /** Pieces fails when the first placeholder is read but the second is not followed by its separator. */
  lemma PiecesMissSecond(g: seq<string>, rest: string, seps: seq<string>, run: string, tail: string)
    requires |g| >= 8 && |seps| >= 2 && WellPlaced(g[..4], [seps[0]], Spell(g[4..]) + rest)
    requires AllIn(g[4], Segment) && |g[5]| == 1 && IsWordChar(g[5][0])
    requires g[6] + (g[7] + (Spell(g[8..]) + rest)) == run + tail
    requires AllIn(run, Segment) && (tail == [] || !In(tail[0], Segment))
    requires !StartsWith(tail, seps[1][Span(seps[1], Segment)..])
    ensures Pieces(Spell(g) + rest, seps) == None
  {
    var h := g[4..];
    assert h[..4] == g[4..8] && h[4..] == g[8..];
    PiecesMissHead(h, rest, seps[1..], run, tail);
    SpellFirst(g, rest);
    MarkedExact(g[0], g[1][0], g[2], seps[0], Spell(h) + rest);
    PiecesMissLater(Spell(g) + rest, seps, Piece(g[0], g[1][0], g[2], Spell(h) + rest));
  }

  /** Tooltip text that is segment text and then something other than the gold code has no placeholder. */
  lemma NoPlaceholder(field: string, seps: seq<string>, blanks: bool, line: string, run: string, tail: string)
    requires StartsWith(line, field) && DropQuote(line[|field|..]) == run + tail
    requires AllIn(run, Segment) && (tail == [] || (!In(tail[0], Segment) && tail[0] != '|'))
    requires seps != []
    ensures LevelsShape(field, seps, blanks, line) == None
    ensures PlaceholderShape(field, line) == None
  {
    MarkedMissGold(run, tail, seps[0]);
    MarkedMissGold(run, tail, "");
    PiecesMissFirst(run + tail, seps);
    LevelsMiss(field, seps, blanks, line);
    PlaceholderMiss(field, line);
  }

  /** The one-placeholder text is one placeholder group with an empty separator. */
  lemma OneAsGroups(before: string, key: char, after: string, close: bool)
    ensures One(before, key, after, close) == Spell([before, [key], after, ""]) + Quote(close)
  {
    var g := [before, [key], after, ""];
    assert g[4..] == [];
    assert Spell(g) == before + Gold + [key] + EndColour + after + "" + Spell([]);
  }

  /** A one-placeholder tooltip is not an annotated one. */
  lemma OneNotAnnotated(field: string, open: bool, before: string, key: char, after: string, close: bool)
    requires AllIn(before, Segment)
    ensures AnnotatedShape(field, field + Quote(open) + One(before, key, after, close)) == None
  {
    var body := One(before, key, after, close);
    if open {
      assert field + Quote(open) + body == field + ([] + ("\"" + body));
      AnnotatedMiss(field, [], "\"" + body);
    } else {
      var tail := Gold + [key] + EndColour + after + Quote(close);
      assert field + Quote(open) + body == field + (before + tail);
      AnnotatedMiss(field, before, tail);
    }
  }

  /** A tooltip without a placeholder is not an annotated one. */
  lemma PlainNotAnnotated(field: string, open: bool, text: string, close: bool)
    requires AllIn(text, Segment)
    ensures AnnotatedShape(field, field + Quote(open) + (text + Quote(close))) == None
  {
    if open {
      assert field + Quote(open) + (text + Quote(close)) == field + ([] + ("\"" + (text + Quote(close))));
      AnnotatedMiss(field, [], "\"" + (text + Quote(close)));
    } else {
      assert field + Quote(open) + (text + Quote(close)) == field + (text + Quote(close));
      AnnotatedMiss(field, text, Quote(close));
    }
  }

  /** The tooltip text of a line without a placeholder, once its opening quote is dropped. */
  lemma PlainUnquoted(field: string, open: bool, text: string, close: bool) returns (run: string, tail: string)
    requires AllIn(text, Segment)
    ensures var line := field + Quote(open) + (text + Quote(close));
      && StartsWith(line, field) && DropQuote(line[|field|..]) == run + tail
      && AllIn(run, Segment) && (tail == [] || tail == "\"")
  {
    var body := text + Quote(close);
    AfterQuotedField(field, Quote(open), body);
    if text == [] {
      run := [];
      tail := QuotesOnly(open, close);
    } else {
      assert body[0] == text[0];
      DropQuoteOf(open, body);
      run, tail := text, Quote(close);
    }
  }

  lemma AfterQuotedField(field: string, q: string, body: string)
    ensures StartsWith(field + q + body, field) && (field + q + body)[|field|..] == q + body
  {
    assert field + q + body == field + (q + body);
    AfterField(field, q + body);
  }

  /** With no text, at most the closing quote is left once the opening one is dropped. */
  lemma QuotesOnly(open: bool, close: bool) returns (tail: string)
    ensures DropQuote(Quote(open) + ([] + Quote(close))) == tail
    ensures tail == [] || tail == "\""
  {
    tail := DropQuote(Quote(open) + Quote(close));
    assert [] + Quote(close) == Quote(close);
  }

  /**
   * Completeness of the coloured Untip keep pattern: `Untip=`, an optional
   * quote, `|cffc3dbff`, at least two segment characters, `|r` and an
   * optional quote.
   */
  lemma UntipColouredExact(open: bool, text: string, close: bool)
    requires |text| >= 2 && AllIn(text, Segment)
    ensures UntipColouredShape(UnTip + Quote(open) + (Blue + text + EndColour + Quote(close))) == Some([])
  {
    var body := Blue + text + EndColour + Quote(close);
    assert body[0] == '|';
    Unquoted(UnTip, open, body);
    var t := BlueBody(text, close);
    SpanOf(text, EndColour + Quote(close), Segment);
    UntipColouredOf(UnTip + Quote(open) + body, t);
  }

  /** What follows the colour code: the text, then `|r` and the optional quote. */
  lemma BlueBody(text: string, close: bool) returns (t: string)
    ensures var body := Blue + text + EndColour + Quote(close);
      && StartsWith(body, Blue) && body[10..] == t && t == text + (EndColour + Quote(close))
      && t[|text|..] == EndColour + Quote(close) && StartsWith(t[|text|..], EndColour)
      && t[|text| + 2..] == Quote(close)
  {
    t := text + (EndColour + Quote(close));
    var body := Blue + text + EndColour + Quote(close);
    assert body == Blue + t;
    assert body[..10] == Blue;
    assert t[|text|..] == EndColour + Quote(close);
    assert t[|text| + 2..] == Quote(close);
  }

  lemma UntipColouredOf(line: string, t: string)
    requires StartsWith(line, UnTip) && StartsWith(DropQuote(line[|UnTip|..]), Blue)
    requires DropQuote(line[|UnTip|..])[10..] == t
    requires Span(t, Segment) >= 2 && StartsWith(t[Span(t, Segment)..], EndColour)
    requires QuoteEnd(t[Span(t, Segment) + 2..])
    ensures UntipColouredShape(line) == Some([])
  {
  }

  /** A `|cffc3dbff`-coloured Untip needs that colour code right after the field and quote. */
  lemma UntipColouredMiss(line: string)
    requires StartsWith(line, UnTip) && !StartsWith(DropQuote(line[|UnTip|..]), Blue)
    ensures UntipColouredShape(line) == None
  {
  }

  lemma NotStartsWith(s: string, p: string, i: nat)
    requires i < |p| && (i < |s| ==> s[i] != p[i])
    ensures !StartsWith(s, p)
  {
    assert |p| <= |s| ==> s[..|p|][i] == s[i];
  }

  /** `,w1,w2…`: the repeated `(,\w+)` part of a hotkey line. */
  function Commas(more: seq<string>): string {
    if more == [] then "" else "," + more[0] + Commas(more[1..])
  }

  lemma CommaWordOf(word: string, rest: string)
    requires |word| > 0 && AllIn(word, Word) && (rest == [] || !IsWordChar(rest[0]))
    ensures CommaWord("," + word + rest) == 1 + |word| && ("," + word + rest)[1 + |word|..] == rest
  {
    var t := "," + word + rest;
    assert t[1..] == word + rest;
    SpanOf(word, rest, Word);
  }

  lemma CommaWordNone(rest: string)
    requires rest == [] || rest[0] != ','
    ensures CommaWord(rest) == 0
  {
  }

  lemma HotkeyShapeOf(field: string, line: string, n: nat, a: nat, b: nat)
    requires StartsWith(line, field)
    requires n == Span(line[|field|..], Word) && n > 0
    requires a == CommaWord(line[|field|..][n..]) && b == CommaWord(line[|field|..][n..][a..])
    requires AllIn(line[|field|..][n..][a..][b..], Blank)
    ensures HotkeyShape(field, line).Some? && HotkeyShape(field, line).value[0] == line[|field|..][..n]
  {
  }

  lemma BlankNotWord(pad: string)
    requires AllIn(pad, Blank)
    ensures pad == [] || (!IsWordChar(pad[0]) && pad[0] != ',')
  {
    if pad != [] { assert In(pad[0], Blank); }
  }

  /** The `(,\w+){0,2}[ \t]*` tail is consumed: what the two CommaWord steps leave is blank. */
  lemma CommasTail(more: seq<string>, pad: string) returns (a: nat, b: nat)
    requires |more| <= 2 && forall i :: 0 <= i < |more| ==> |more[i]| > 0 && AllIn(more[i], Word)
    requires AllIn(pad, Blank)
    ensures var t := Commas(more) + pad;
      a <= |t| && a == CommaWord(t) && b <= |t[a..]| && b == CommaWord(t[a..]) && t[a..][b..] == pad
  {
    var t := Commas(more) + pad;
    BlankNotWord(pad);
    if more == [] {
      assert t == pad;
      CommaWordNone(pad);
      a, b := 0, 0;
    } else {
      var t1 := Commas(more[1..]) + pad;
      assert t == "," + more[0] + t1;
      if more[1..] == [] {
        assert t1 == pad;
        CommaWordOf(more[0], pad);
        CommaWordNone(pad);
        a, b := 1 + |more[0]|, 0;
      } else {
        assert t1 == "," + more[1] + pad by {
          assert more[1..][0] == more[1] && more[1..][1..] == [];
          assert Commas(more[1..]) == "," + more[1] + Commas([]);
        }
        CommaWordOf(more[0], t1);
        CommaWordOf(more[1], pad);
        a, b := 1 + |more[0]|, 1 + |more[1]|;
      }
    }
  }

  /**
   * `field` + a word + up to two `,word` repetitions + blanks is a hotkey
   * line, and the hotkey it names is the first word.
   */
  lemma HotkeyExact(field: string, word: string, more: seq<string>, pad: string)
    requires |word| > 0 && AllIn(word, Word) && |more| <= 2
    requires forall i :: 0 <= i < |more| ==> |more[i]| > 0 && AllIn(more[i], Word)
    requires AllIn(pad, Blank)
    ensures HotkeyShape(field, field + (word + (Commas(more) + pad))).Some?
    ensures HotkeyShape(field, field + (word + (Commas(more) + pad))).value[0] == word
  {
    var line := field + (word + (Commas(more) + pad));
    var t := Commas(more) + pad;
    AfterField(field, word + t);
    BlankNotWord(pad);
    if more != [] {
      assert t[0] == ',';
    }
    SpanOf(word, t, Word);
    assert (word + t)[|word|..] == t && (word + t)[..|word|] == word;
    var a, b := CommasTail(more, pad);
    HotkeyShapeOf(field, line, |word|, a, b);
  }
  /** A `,\w+` that CommaWord finds, as its comma, its word and what follows. */
  lemma CommaSplit(t: string) returns (w: string, rest: string)
    requires CommaWord(t) > 0
    ensures t == "," + w + rest && |w| > 0 && AllIn(w, Word) && rest == t[CommaWord(t)..]
  {
    var n := CommaWord(t);
    w, rest := t[1..n], t[n..];
    assert t == [t[0]] + t[1..n] + t[n..];
  }

  /** What the two CommaWord steps read is `Commas` of at most two words; `pad` is what they leave. */
  lemma CommasSplit(t: string) returns (more: seq<string>, pad: string)
    ensures |more| <= 2 && forall i :: 0 <= i < |more| ==> |more[i]| > 0 && AllIn(more[i], Word)
    ensures t == Commas(more) + pad
    ensures CommaWord(t) <= |t| && pad == t[CommaWord(t)..][CommaWord(t[CommaWord(t)..])..]
  {
    var a := CommaWord(t);
    if a == 0 {
      assert t[a..] == t;
      more, pad := [], t;
    } else {
      var w, u := CommaSplit(t);
      var b := CommaWord(u);
      if b == 0 {
        assert u[b..] == u;
        more, pad := [w], u;
        assert Commas(more) == "," + w + Commas([]);
      } else {
        var w2, v := CommaSplit(u);
        more, pad := [w, w2], v;
        assert more[1..] == [w2] && [w2][1..] == [];
        assert Commas(more) == "," + w + ("," + w2 + Commas([]));
      }
    }
  }

  /**
   * Soundness of the hotkey recognizer: a matching line is the field, its
   * first word `$1`, at most two `,word` and trailing blanks.
   */
  lemma HotkeySound(field: string, line: string) returns (more: seq<string>, pad: string)
    requires HotkeyShape(field, line).Some?
    ensures var word := HotkeyShape(field, line).value[0];
      && |word| > 0 && AllIn(word, Word)
      && |more| <= 2 && (forall i :: 0 <= i < |more| ==> |more[i]| > 0 && AllIn(more[i], Word))
      && AllIn(pad, Blank)
      && line == field + (word + (Commas(more) + pad))
  {
    var word, t := HotkeyParts(field, line);
    more, pad := CommasSplit(t);
  }

  /** A matching hotkey line as the field, `$1` and the tail the two CommaWord steps leave blank. */
  lemma HotkeyParts(field: string, line: string) returns (word: string, t: string)
    requires HotkeyShape(field, line).Some?
    ensures line == field + (word + t) && word == HotkeyShape(field, line).value[0]
    ensures CommaWord(t) <= |t| && AllIn(t[CommaWord(t)..][CommaWord(t[CommaWord(t)..])..], Blank)
  {
    HotkeyGuard(field, line);
    var s := line[|field|..];
    word, t := s[..Span(s, Word)], s[Span(s, Word)..];
    FieldWordTail(field, line, Span(s, Word));
  }

  /** The condition the hotkey recognizer checks after the first word. */
  lemma HotkeyGuard(field: string, line: string)
    requires HotkeyShape(field, line).Some?
    ensures StartsWith(line, field)
    ensures var s := line[|field|..]; var t := s[Span(s, Word)..];
      CommaWord(t) <= |t| && AllIn(t[CommaWord(t)..][CommaWord(t[CommaWord(t)..])..], Blank)
  {
  }

  lemma FieldWordTail(field: string, line: string, n: nat)
    requires StartsWith(line, field) && n <= |line| - |field|
    ensures line == field + (line[|field|..][..n] + line[|field|..][n..])
  {
    assert line == field + line[|field|..];
    assert line[|field|..] == line[|field|..][..n] + line[|field|..][n..];
  }

  /** `//` followed by any text without a newline is a comment line. */
  lemma CommentExact(text: string)
    requires forall i :: 0 <= i < |text| ==> text[i] != '\n'
    ensures CommentShape("//" + text) == Some([])
  {
    var line := "//" + text;
    assert line[..2] == "//";
    assert forall i :: 2 <= i < |line| ==> line[i] == text[i - 2];
  }
}
