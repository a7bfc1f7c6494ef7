/**
 * What the scanner loop of wc3.go:263-289 prints, stated without the loop:
 * the lines some entry matches, cut into groups at each header, each group
 * rewritten with the hotkey of its last hotkey line.  Everything here takes
 * the table as a parameter.
 */
module Scoping {
  import opened Wrappers
  import opened Expressions
  import opened Groups
  import opened Driver
  import opened Text
  import opened Recognition
  import opened LineRewrites

  /** Some entry of the table matches the line: the loop keeps it. */
  predicate Matched(exprs: seq<Expression>, line: string) {
    Classify(exprs, line).Some?
  }

  /** The first matching entry is a command: the line opens a new group. */
  predicate IsHeader(exprs: seq<Expression>, line: string) {
    match Classify(exprs, line)
    case None => false
    case Some(i) => exprs[i].Matches(line) == MatchCommand
  }

  /** The first matching entry is a hotkey entry: the line sets the group's hotkey. */
  predicate IsHotkeyLine(exprs: seq<Expression>, line: string) {
    match Classify(exprs, line)
    case None => false
    case Some(i) => exprs[i].Matches(line) == MatchHotkey
  }

  /** The hotkey a hotkey line sets. */
  function HotkeyOf(exprs: seq<Expression>, line: string): string
    requires IsHotkeyLine(exprs, line)
  {
    exprs[Classify(exprs, line).value].Extract(line)
  }

  /** The input lines some entry matches, in input order. */
  function Kept(exprs: seq<Expression>, input: seq<string>): (r: seq<string>)
    ensures |r| <= |input|
    ensures forall k :: 0 <= k < |r| ==> Matched(exprs, r[k])
    decreases |input|
  {
    if input == [] then []
    else
      var x := input[|input| - 1];
      Kept(exprs, input[..|input| - 1]) + (if Matched(exprs, x) then [x] else [])
  }

  /** The hotkey of a group: what its last hotkey line sets, or empty when it has none. */
  function KeyOf(exprs: seq<Expression>, group: seq<string>): string
    decreases |group|
  {
    if group == [] then ""
    else if IsHotkeyLine(exprs, group[|group| - 1]) then HotkeyOf(exprs, group[|group| - 1])
    else KeyOf(exprs, group[..|group| - 1])
  }

  /** Lines cut into groups: the lines before the first header, then one group per header. */
  function Grouped(exprs: seq<Expression>, lines: seq<string>): (r: seq<seq<string>>)
    ensures |r| >= 1
    decreases |lines|
  {
    if lines == [] then [[]]
    else
      var g := Grouped(exprs, lines[..|lines| - 1]);
      var x := lines[|lines| - 1];
      if IsHeader(exprs, x) then g + [[x]]
      else g[..|g| - 1] + [g[|g| - 1] + [x]]
  }

  function Flatten(groups: seq<seq<string>>): seq<string>
    decreases |groups|
  {
    if groups == [] then [] else Flatten(groups[..|groups| - 1]) + groups[|groups| - 1]
  }

  /** The groups printed one after the other, each rewritten with its own hotkey. */
  function Emitted(exprs: seq<Expression>, groups: seq<seq<string>>): seq<string>
    decreases |groups|
  {
    if groups == [] then []
    else
      var g := groups[|groups| - 1];
      Emitted(exprs, groups[..|groups| - 1]) + Rewrite(exprs, g, KeyOf(exprs, g))
  }

  lemma {:induction false} FeedConcat(exprs: seq<Expression>, p: Progress, a: seq<string>, b: seq<string>)
    ensures Feed(exprs, p, a + b) == Feed(exprs, Feed(exprs, p, a), b)
    decreases |a|
  {
    if a != [] {
      assert (a + b)[0] == a[0] && (a + b)[1..] == a[1..] + b;
      FeedConcat(exprs, Step(exprs, p, a[0]), a[1..], b);
    } else {
      assert a + b == b;
    }
  }

  lemma FeedSnoc(exprs: seq<Expression>, p: Progress, a: seq<string>, x: string)
    ensures Feed(exprs, p, a + [x]) == Step(exprs, Feed(exprs, p, a), x)
  {
    FeedConcat(exprs, p, a, [x]);
    assert [x][1..] == [];
  }

  /** Where the loop stands after a prefix of the input, in terms of the groups of the lines it kept. */
  predicate Accounts(exprs: seq<Expression>, q: Progress, groups: seq<seq<string>>)
    requires |groups| >= 1
  {
    var last := groups[|groups| - 1];
    && q.emitted == Emitted(exprs, groups[..|groups| - 1])
    && q.lines == last
    && q.hotkey == KeyOf(exprs, last)
  }

  lemma KeptSnoc(exprs: seq<Expression>, a: seq<string>, x: string)
    ensures Kept(exprs, a + [x]) == Kept(exprs, a) + (if Matched(exprs, x) then [x] else [])
  {
    assert (a + [x])[..|a|] == a;
  }

  lemma GroupedSnoc(exprs: seq<Expression>, lines: seq<string>, x: string)
    ensures var g := Grouped(exprs, lines);
      Grouped(exprs, lines + [x]) == if IsHeader(exprs, x) then g + [[x]] else g[..|g| - 1] + [g[|g| - 1] + [x]]
  {
    assert (lines + [x])[..|lines|] == lines;
  }

  lemma {:induction false} FeedAccounts(exprs: seq<Expression>, input: seq<string>)
    ensures Accounts(exprs, Feed(exprs, Start, input), Grouped(exprs, Kept(exprs, input)))
    decreases |input|
  {
    if input == [] {
      assert Kept(exprs, input) == [];
    } else {
      var a, x := input[..|input| - 1], input[|input| - 1];
      assert input == a + [x];
      FeedAccounts(exprs, a);
      FeedSnoc(exprs, Start, a, x);
      KeptSnoc(exprs, a, x);
      var q := Feed(exprs, Start, a);
      var g := Grouped(exprs, Kept(exprs, a));
      if Matched(exprs, x) {
        GroupedSnoc(exprs, Kept(exprs, a), x);
        StepAccounts(exprs, q, g, x);
      } else {
        assert Kept(exprs, a) + [] == Kept(exprs, a);
      }
    }
  }

  /** One kept line moves the loop's state exactly as it extends the groups. */
  lemma StepAccounts(exprs: seq<Expression>, q: Progress, g: seq<seq<string>>, x: string)
    requires |g| >= 1 && Accounts(exprs, q, g) && Matched(exprs, x)
    ensures IsHeader(exprs, x) ==> Accounts(exprs, Step(exprs, q, x), g + [[x]])
    ensures !IsHeader(exprs, x) ==> Accounts(exprs, Step(exprs, q, x), g[..|g| - 1] + [g[|g| - 1] + [x]])
  {
    var last := g[|g| - 1];
    if IsHeader(exprs, x) {
      var h := g + [[x]];
      assert h[..|h| - 1] == g;
      assert g[..|g| - 1] + [last] == g;
      assert [x][..0] == [];
    } else {
      var h := g[..|g| - 1] + [last + [x]];
      assert h[..|h| - 1] == g[..|g| - 1];
      assert (last + [x])[..|last|] == last;
    }
  }

  /**
   * What the program prints: the matched lines cut into groups at each
   * header, each group rewritten with the hotkey of its own last hotkey line.
   */
  lemma TransformGroups(exprs: seq<Expression>, input: seq<string>)
    ensures Transform(exprs, input) == Emitted(exprs, Grouped(exprs, Kept(exprs, input)))
  {
    FeedAccounts(exprs, input);
  }

  lemma FlattenPush(g: seq<seq<string>>, y: seq<string>)
    ensures Flatten(g + [y]) == Flatten(g) + y
  {
    assert (g + [y])[..|g|] == g;
  }

  lemma FlattenExtend(g: seq<seq<string>>, x: string)
    requires |g| >= 1
    ensures Flatten(g[..|g| - 1] + [g[|g| - 1] + [x]]) == Flatten(g) + [x]
  {
    var init, last := g[..|g| - 1], g[|g| - 1];
    FlattenPush(init, last + [x]);
    assert Flatten(g) == Flatten(init) + last;
  }

  lemma {:induction false} GroupedFlatten(exprs: seq<Expression>, lines: seq<string>)
    ensures Flatten(Grouped(exprs, lines)) == lines
    decreases |lines|
  {
    if lines != [] {
      var a, x := lines[..|lines| - 1], lines[|lines| - 1];
      assert lines == a + [x];
      GroupedFlatten(exprs, a);
      GroupedSnoc(exprs, a, x);
      if IsHeader(exprs, x) {
        FlattenPush(Grouped(exprs, a), [x]);
      } else {
        FlattenExtend(Grouped(exprs, a), x);
      }
    }
  }

  lemma {:induction false} EmittedLength(exprs: seq<Expression>, groups: seq<seq<string>>)
    ensures |Emitted(exprs, groups)| == |Flatten(groups)|
    decreases |groups|
  {
    if groups != [] {
      EmittedLength(exprs, groups[..|groups| - 1]);
    }
  }

  /** One output line per matched input line: nothing is added, and unmatched lines are not printed. */
  lemma TransformLength(exprs: seq<Expression>, input: seq<string>)
    ensures |Transform(exprs, input)| == |Kept(exprs, input)|
  {
    TransformGroups(exprs, input);
    EmittedLength(exprs, Grouped(exprs, Kept(exprs, input)));
    GroupedFlatten(exprs, Kept(exprs, input));
  }

  /** A line no entry matches changes nothing: the output is as if it were not in the file. */
  lemma UnmatchedDropped(exprs: seq<Expression>, a: seq<string>, x: string, b: seq<string>)
    requires !Matched(exprs, x)
    ensures Transform(exprs, a + [x] + b) == Transform(exprs, a + b)
  {
    FeedConcat(exprs, Start, a + [x], b);
    FeedSnoc(exprs, Start, a, x);
    FeedConcat(exprs, Start, a, b);
  }

  /**
   * Every group but the first begins with a header, and no other line of
   * any group is one: the lines before the first header form a group of
   * their own.
   */
  lemma {:induction false} GroupedHeaders(exprs: seq<Expression>, lines: seq<string>)
    ensures var g := Grouped(exprs, lines);
      forall j, k :: 0 <= j < |g| && 0 <= k < |g[j]| ==> (IsHeader(exprs, g[j][k]) <==> j > 0 && k == 0)
    ensures var g := Grouped(exprs, lines);
      forall j :: 0 < j < |g| ==> |g[j]| > 0
    decreases |lines|
  {
    if lines != [] {
      var a, x := lines[..|lines| - 1], lines[|lines| - 1];
      assert lines == a + [x];
      GroupedHeaders(exprs, a);
      GroupedSnoc(exprs, a, x);
      if IsHeader(exprs, x) {
        HeadersPush(exprs, Grouped(exprs, a), x);
      } else {
        HeadersExtend(exprs, Grouped(exprs, a), x);
      }
    }
  }

  /** Groups whose headers are placed as Grouped places them. */
  predicate HeadersPlaced(exprs: seq<Expression>, g: seq<seq<string>>) {
    && (forall j, k :: 0 <= j < |g| && 0 <= k < |g[j]| ==> (IsHeader(exprs, g[j][k]) <==> j > 0 && k == 0))
    && (forall j :: 0 < j < |g| ==> |g[j]| > 0)
  }

  lemma HeadersPush(exprs: seq<Expression>, g: seq<seq<string>>, x: string)
    requires |g| >= 1 && HeadersPlaced(exprs, g) && IsHeader(exprs, x)
    ensures HeadersPlaced(exprs, g + [[x]])
  {
    var h := g + [[x]];
    assert forall j :: 0 <= j < |g| ==> h[j] == g[j];
    assert h[|g|] == [x];
  }

  lemma HeadersExtend(exprs: seq<Expression>, g: seq<seq<string>>, x: string)
    requires |g| >= 1 && HeadersPlaced(exprs, g) && !IsHeader(exprs, x)
    ensures HeadersPlaced(exprs, g[..|g| - 1] + [g[|g| - 1] + [x]])
  {
    var last := g[|g| - 1];
    var h := g[..|g| - 1] + [last + [x]];
    assert forall j :: 0 <= j < |g| - 1 ==> h[j] == g[j];
    var hl := h[|g| - 1];
    assert hl == last + [x];
    forall k | 0 <= k < |hl|
      ensures IsHeader(exprs, hl[k]) <==> |g| - 1 > 0 && k == 0
    {
      if k < |last| {
        assert hl[k] == last[k];
      } else {
        assert hl[k] == x;
      }
    }
  }

  /** A group without a hotkey line has the empty hotkey (wc3.go:253, 276). */
  lemma {:induction false} KeyOfNone(exprs: seq<Expression>, group: seq<string>)
    requires forall k :: 0 <= k < |group| ==> !IsHotkeyLine(exprs, group[k])
    ensures KeyOf(exprs, group) == ""
    decreases |group|
  {
    if group != [] {
      KeyOfNone(exprs, group[..|group| - 1]);
    }
  }

  /** The last hotkey line of a group decides its hotkey, whatever came before it (wc3.go:277-279). */
  lemma {:induction false} LastHotkeyWins(exprs: seq<Expression>, before: seq<string>, h: string, after: seq<string>)
    requires IsHotkeyLine(exprs, h)
    requires forall k :: 0 <= k < |after| ==> !IsHotkeyLine(exprs, after[k])
    ensures KeyOf(exprs, before + [h] + after) == HotkeyOf(exprs, h)
    decreases |after|
  {
    var s := before + [h] + after;
    if after == [] {
      assert s[|s| - 1] == h;
    } else {
      var a := after[..|after| - 1];
      assert s[..|s| - 1] == before + [h] + a;
      assert s[|s| - 1] == after[|after| - 1];
      LastHotkeyWins(exprs, before, h, a);
    }
  }

  /** With the program's table, `[name]` opens a new group. */
  lemma SectionOpensGroup(name: string, pad: string)
    requires AllIn(name, Word) && AllIn(pad, Blank)
    ensures IsHeader(Table, "[" + name + "]" + pad) && !IsHotkeyLine(Table, "[" + name + "]" + pad)
  {
    HeaderCommand(name, pad);
  }

  /** With the program's table, `Hotkey=W,…` and `Researchhotkey=W,…` set the group's hotkey to `W`. */
  lemma HotkeyLineSets(field: string, word: string, more: seq<string>, pad: string)
    requires field == "Hotkey=" || field == "Researchhotkey="
    requires |word| > 0 && AllIn(word, Word) && |more| <= 2
    requires forall i :: 0 <= i < |more| ==> |more[i]| > 0 && AllIn(more[i], Word)
    requires AllIn(pad, Blank)
    ensures var line := field + (word + (Commas(more) + pad));
      && IsHotkeyLine(Table, line) && !IsHeader(Table, line)
      && HotkeyOf(Table, line) == word
  {
    HotkeyLine(field, word, more, pad);
  }
}
