/**
 * The scanner loop of `main` (wc3.go:249-294) with the file and the
 * printing taken out: the input is the sequence of lines the scanner
 * yields, the output the sequence of lines `Group.Print` would write.
 */
module Driver {
  import opened Wrappers
  import opened Expressions
  import opened Groups

  /** Where the loop stands: the lines already printed and the open group. */
  datatype Progress = Progress(emitted: seq<string>, hotkey: string, lines: seq<string>)

  /** The state before the first line: nothing printed, `Group{}` open. */
  const Start := Progress([], "", [])

  /** Adjust and print the open group (wc3.go:271-272, 288-289). */
  function Flush(exprs: seq<Expression>, p: Progress): seq<string> {
    p.emitted + Rewrite(exprs, p.lines, p.hotkey)
  }

  /** One turn of the outer loop: what the first matching entry does with the line (wc3.go:266-285). */
  function Step(exprs: seq<Expression>, p: Progress, line: string): Progress {
    match Classify(exprs, line)
    case None => p
    case Some(i) =>
      var m := exprs[i].Matches(line);
      if m == MatchCommand then Progress(Flush(exprs, p), "", [line])
      else if m == MatchHotkey then Progress(p.emitted, exprs[i].Extract(line), p.lines + [line])
      else Progress(p.emitted, p.hotkey, p.lines + [line])
  }

  /** The loop over the remaining lines. */
  function Feed(exprs: seq<Expression>, p: Progress, input: seq<string>): Progress
    decreases |input|
  {
    if input == [] then p else Feed(exprs, Step(exprs, p, input[0]), input[1..])
  }

  /** Everything the program prints for an input file. */
  function Transform(exprs: seq<Expression>, input: seq<string>): seq<string> {
    Flush(exprs, Feed(exprs, Start, input))
  }

  /**
   * The body of `main` after the table is built: the scanner loop with its
   * labelled inner loop over the table, then the last group.
   */
  method Process(expressions: seq<Expression>, input: seq<string>) returns (output: seq<string>)
    ensures output == Transform(expressions, input)
  {
    var current := new Group();
    output := [];
    var n := 0;
    while n < |input|
      invariant 0 <= n <= |input|
      invariant fresh(current)
      invariant Flush(expressions, Feed(expressions, Progress(output, current.hotkey, current.lines), input[n..]))
             == Transform(expressions, input)
    {
      var line := input[n];
      ghost var before := Progress(output, current.hotkey, current.lines);
      assert input[n..][0] == line && input[n..][1..] == input[n + 1..];
      var j := 0;
      while j < |expressions|
        invariant 0 <= j <= |expressions|
        invariant FirstMatchFrom(expressions, line, j) == Classify(expressions, line)
        invariant Progress(output, current.hotkey, current.lines) == before
      {
        var e := expressions[j];
        var m := e.Matches(line);
        if m == MatchCommand {
          current.Adjust(expressions);
          output := output + current.lines;
          current := new Group.Headed(line);
          break;
        } else if m == MatchHotkey {
          current.lines := current.lines + [line];
          current.hotkey := e.Extract(line);
          break;
        } else if m == MatchTrue {
          current.lines := current.lines + [line];
          break;
        }
        assert FirstMatchFrom(expressions, line, j) == FirstMatchFrom(expressions, line, j + 1);
        j := j + 1;
      }
      assert Progress(output, current.hotkey, current.lines) == Step(expressions, before, line);
      n := n + 1;
    }
    current.Adjust(expressions);
    output := output + current.lines;
  }

  /** `main`: build the table (NewExpressions) and run the loop over the file's lines. */
  method Run(input: seq<string>) returns (output: seq<string>)
    ensures output == Transform(Table, input)
  {
    var expressions := Table;
    output := Process(expressions, input);
  }
}
