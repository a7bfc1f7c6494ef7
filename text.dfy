/**
 * Character classes and the two scanning primitives every line shape of
 * wc3.go is built from.  `\w` is ASCII `[0-9A-Za-z_]`, as in Go's regexp
 * package; the "segment" class is the `[\w \-\!\.]` that the tooltip
 * patterns use for free text.
 */
module Text {
  import opened Wrappers

  /** The character classes the patterns use. */
  datatype Class =
    | Word     // \w
    | Segment  // [\w \-\!\.]   tooltip text
    | Name     // [\w \!\.]     the Unhotkey= value
    | Blank    // [ \t]

  predicate IsWordChar(c: char) {
    ('a' <= c <= 'z') || ('A' <= c <= 'Z') || ('0' <= c <= '9') || c == '_'
  }

  predicate In(c: char, k: Class) {
    match k
    case Word => IsWordChar(c)
    case Segment => IsWordChar(c) || c == ' ' || c == '-' || c == '!' || c == '.'
    case Name => IsWordChar(c) || c == ' ' || c == '!' || c == '.'
    case Blank => c == ' ' || c == '\t'
  }

  predicate AllIn(s: string, k: Class) {
    forall i :: 0 <= i < |s| ==> In(s[i], k)
  }

  /** `s` begins with `p` (the regexp's literal prefixes). */
  predicate StartsWith(s: string, p: string) {
    |p| <= |s| && s[..|p|] == p
  }

  /** The colour code that marks the hotkey letter inside a tooltip. */
  const Gold := "|cffffcc00"
  /** The colour reset that closes it. */
  const EndColour := "|r"
  /** The colour code of an already coloured Untip line. */
  const Blue := "|cffc3dbff"

  /** The annotation the rewriter appends after a placeholder: ` (|cffffcc00K|r)`. */
  function Annotation(key: string): string {
    " (" + Gold + key + EndColour + ")"
  }

  /** The length of the longest prefix of `s` whose characters are all in `k`. */
  function Span(s: string, k: Class): (n: nat)
    ensures n <= |s|
    ensures AllIn(s[..n], k)
    ensures n < |s| ==> !In(s[n], k)
  {
    if s == [] || !In(s[0], k) then 0
    else
      var m := Span(s[1..], k);
      assert s[..m + 1] == [s[0]] + s[1..][..m];
      1 + m
  }

  /** A run of class `k` that ends where `s` ends or at a character outside `k` is the whole span. */
  lemma SpanOf(run: string, tail: string, k: Class)
    requires AllIn(run, k)
    requires tail == [] || !In(tail[0], k)
    ensures Span(run + tail, k) == |run|
  {
    var s := run + tail;
    var n := Span(s, k);
    assert forall i :: 0 <= i < |run| ==> s[i] == run[i] && In(s[i], k);
    assert forall i :: 0 <= i < n ==> s[..n][i] == s[i];
    assert |run| < |s| ==> s[|run|] == tail[0];
  }

  /**
   * Splits `s` as `seg + lit + rest` where `seg` is segment text, the way a
   * regexp `([\w \-\!\.]*)lit` splits it: `seg` takes the longest segment run
   * and gives back the segment characters `lit` itself begins with.
   */
  function Sep(s: string, lit: string): (r: Option<(string, string)>)
    ensures r.Some? ==> AllIn(r.value.0, Segment) && s == r.value.0 + lit + r.value.1
  {
    var n := Span(s, Segment);
    var k := Span(lit, Segment);
    if k <= n && n - k + |lit| <= |s| && s[n - k..n - k + |lit|] == lit then
      assert s == s[..n - k] + s[n - k..n - k + |lit|] + s[n - k + |lit|..];
      assert AllIn(s[..n - k], Segment) by {
        assert forall i :: 0 <= i < n - k ==> s[..n - k][i] == s[..n][i];
      }
      Some((s[..n - k], s[n - k + |lit|..]))
    else None
  }

  /** `lit` (followed by `rest`) ends a segment run: the split is then unique. */
  predicate Delimits(lit: string, rest: string) {
    Span(lit, Segment) < |lit| || rest == [] || !In(rest[0], Segment)
  }

  /** Completeness of Sep: every way of writing `s` as segment text, `lit` and a rest is the one Sep finds. */
  lemma SepExact(seg: string, lit: string, rest: string)
    requires AllIn(seg, Segment)
    requires Delimits(lit, rest)
    ensures Sep(seg + lit + rest, lit) == Some((seg, rest))
  {
    var k := Span(lit, Segment);
    AllInConcat(seg, lit[..k], Segment);
    var tail := RunEnd(lit, k, rest);
    SpanOf(seg + lit[..k], tail, Segment);
    SplitThree(seg, lit, rest, k, tail);
  }

  lemma AllInConcat(a: string, b: string, k: Class)
    requires AllIn(a, k) && AllIn(b, k)
    ensures AllIn(a + b, k)
  {
    assert forall i :: |a| <= i < |a + b| ==> (a + b)[i] == b[i - |a|];
  }

  /** What follows the segment characters `lit` begins with does not continue the run. */
  lemma RunEnd(lit: string, k: nat, rest: string) returns (tail: string)
    requires k == Span(lit, Segment) && Delimits(lit, rest)
    ensures tail == lit[k..] + rest && (tail == [] || !In(tail[0], Segment))
  {
    tail := lit[k..] + rest;
    if k < |lit| {
      assert tail[0] == lit[k];
    } else {
      assert tail == rest;
    }
  }

  lemma SplitThree(seg: string, lit: string, rest: string, k: nat, tail: string)
    requires k <= |lit| && tail == lit[k..] + rest
    ensures var s := seg + lit + rest;
      && s == (seg + lit[..k]) + tail
      && s[|seg|..|seg| + |lit|] == lit && s[..|seg|] == seg && s[|seg| + |lit|..] == rest
  {
    var s := seg + lit + rest;
    assert lit == lit[..k] + lit[k..];
    assert s[|seg|..|seg| + |lit|] == lit;
    assert s[..|seg|] == seg;
    assert s[|seg| + |lit|..] == rest;
  }

  /** Sep fails when the segment run is not followed by what is left of `lit` after its own segment characters. */
  lemma SepMiss(seg: string, tail: string, lit: string)
    requires AllIn(seg, Segment)
    requires tail == [] || !In(tail[0], Segment)
    requires !StartsWith(tail, lit[Span(lit, Segment)..])
    ensures Sep(seg + tail, lit) == None
  {
    var s := seg + tail;
    SpanOf(seg, tail, Segment);
    var n, k := |seg|, Span(lit, Segment);
    assert s[n..] == tail;
    assert k <= n && n - k + |lit| <= |s| ==>
      s[n - k..n - k + |lit|][k..] == s[n..n - k + |lit|] == tail[..|lit| - k];
  }

  /** Two literals that disagree at some position: no line starts with both. */
  predicate Differs(a: string, b: string) {
    |a| > 0 && |b| > 0 && (a[0] != b[0] || Differs(a[1..], b[1..]))
  }

  /** The first position at which two differing literals disagree. */
  function DiffersAt(a: string, b: string): (i: nat)
    requires Differs(a, b)
    ensures i < |a| && i < |b| && a[i] != b[i]
  {
    if a[0] != b[0] then 0 else 1 + DiffersAt(a[1..], b[1..])
  }

  lemma DiffersExcludes(a: string, b: string, line: string)
    requires Differs(a, b) && StartsWith(line, b)
    ensures !StartsWith(line, a)
  {
    var i := DiffersAt(a, b);
    assert line[..|b|][i] == line[i];
    assert |a| <= |line| ==> line[..|a|][i] == line[i];
  }
}
