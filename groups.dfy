/**
 * First-match classification against a pattern table and `Group.Adjust`
 * (wc3.go:223-240): the lines of one group, rewritten in place with the
 * group's hotkey.  Like the Go code, everything here takes the table as a
 * parameter; the table the program builds is `Expressions.Table`.
 */
module Groups {
  import opened Wrappers
  import opened Text
  import opened Expressions

  /** The first entry at index `j` or later whose `matches` is not matchFalse. */
  function FirstMatchFrom(exprs: seq<Expression>, line: string, j: nat): (r: Option<nat>)
    requires j <= |exprs|
    ensures r.Some? ==> j <= r.value < |exprs| && exprs[r.value].Matches(line) != MatchFalse
    decreases |exprs| - j
  {
    if j == |exprs| then None
    else if exprs[j].Matches(line) != MatchFalse then Some(j)
    else FirstMatchFrom(exprs, line, j + 1)
  }

  /** The index of the entry that decides a line, if any: the first one that matches. */
  function Classify(exprs: seq<Expression>, line: string): (r: Option<nat>)
    ensures r.Some? ==> r.value < |exprs| && exprs[r.value].Recognize(line).Some?
  {
    FirstMatchFrom(exprs, line, 0)
  }

  /** One line as `Adjust` leaves it: rewritten by its first matching entry, or untouched. */
  function Rewritten(exprs: seq<Expression>, line: string, key: string): string {
    match Classify(exprs, line)
    case None => line
    case Some(i) => exprs[i].Replace(line, key)
  }

  /** The lines of a group as `Adjust` leaves them. */
  function Rewrite(exprs: seq<Expression>, lines: seq<string>, key: string): (r: seq<string>)
    ensures |r| == |lines|
  {
    seq(|lines|, i requires 0 <= i < |lines| => Rewritten(exprs, lines[i], key))
  }

  /** A line is rewritten by the entry at which the first-match scan stops. */
  lemma RewrittenBy(exprs: seq<Expression>, line: string, j: nat, key: string)
    requires j < |exprs| && FirstMatchFrom(exprs, line, j) == Classify(exprs, line)
    requires exprs[j].Matches(line) != MatchFalse
    ensures Rewritten(exprs, line, key) == exprs[j].Replace(line, key)
  {
  }

  /** A hotkey group of CustomKeys.txt: its lines and the hotkey that applies to them. */
  class Group {
    var hotkey: string
    var lines: seq<string>

    /** `Group{}`: no lines, empty hotkey. */
    constructor ()
      ensures hotkey == "" && lines == []
    {
      hotkey := "";
      lines := [];
    }

    /** `Group{Lines: []string{header}}`. */
    constructor Headed(header: string)
      ensures hotkey == "" && lines == [header]
    {
      hotkey := "";
      lines := [header];
    }

    /** wc3.go:230-240: each line is replaced by its first matching entry, using the group's hotkey. */
    method Adjust(expressions: seq<Expression>)
      modifies this
      ensures hotkey == old(hotkey)
      ensures lines == Rewrite(expressions, old(lines), old(hotkey))
    {
      var i := 0;
      while i < |lines|
        invariant 0 <= i <= |lines| == |old(lines)|
        invariant hotkey == old(hotkey)
        invariant forall k :: 0 <= k < i ==> lines[k] == Rewritten(expressions, old(lines)[k], hotkey)
        invariant forall k :: i <= k < |lines| ==> lines[k] == old(lines)[k]
      {
        var line := lines[i];
        ghost var before := lines;
        var j := 0;
        while j < |expressions|
          invariant 0 <= j <= |expressions|
          invariant FirstMatchFrom(expressions, line, j) == Classify(expressions, line)
          invariant lines == before
        {
          var e := expressions[j];
          var m := e.Matches(line);
          if m == MatchCommand || m == MatchHotkey || m == MatchTrue {
            lines := lines[i := e.Replace(line, hotkey)];
            RewrittenBy(expressions, line, j, hotkey);
            break;
          }
          j := j + 1;
        }
        i := i + 1;
      }
    }
  }
}
