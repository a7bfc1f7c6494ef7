# wc3.go hotkey rewriter, modelled in Dafny

`wc3.go` reads a Warcraft III `CustomKeys.txt` file line by line and prints it
again with the hotkey of each command group written into the group's tooltips.
The printed tooltips look like `Tip=Build Farm (|cffffcc00F|r)`.

One exception is deliberate: the `replaceTwo` template at wc3.go:79 drops the
`Level 2` label of the labelled two-level Tip (see "## Findings"). `Replace`,
and with it `Group.Adjust`, `Transform`, `Process` and `Run`, applies the
corrected template, which keeps that label. `ReplaceTwoAsWritten` and
`LineRewrites.LabelledTwoAsWritten` model the template as written.

The program has three parts, and each is modelled:

- **Classification.** A fixed, ordered table of 27 line shapes, each with an
  action (`NewExpressions`). The first entry that matches a line decides its
  class (`Expression.matches`).
- **Grouping.** The scanner loop of `main` collects matched lines into groups,
  and each `[Name]` header closes the open group. A `Hotkey=` or
  `Researchhotkey=` line sets the group's hotkey.
- **Rewriting.** `Group.Adjust` and `Expression.replace` rebuild each tooltip
  from its submatches. The coloured placeholder `|cffffcc00K|r` loses its
  colour, and the annotation ` (|cffffcc00K|r)` with the group's hotkey is
  spliced in after the placeholder's text.

Modules:

| file | module | what it holds |
|---|---|---|
| `wrappers.dfy` | `Wrappers` | `Option` |
| `text.dfy` | `Text` | character classes (`\w` is ASCII, as in Go's regexp); `Span` and `Sep`, the two scanning steps every pattern is built from |
| `expressions.dfy` | `Expressions` | the `action`/`match` enums; one hand-written recognizer per regular expression, returning Go's submatch list `$1…$n`; `Expression.Matches`/`Extract`/`Replace`; the table `Table` |
| `groups.dfy` | `Groups` | first-match classification; `Rewritten` for one line; class `Group` with the in-place `Adjust` |
| `driver.dfy` | `Driver` | the scanner loop: `Step`/`Feed`/`Transform` as functions, and the imperative `Process`/`Run` proved equal to them |
| `recognition.dfy` | `Recognition` | completeness of the recognizers on lines built from their parts (the header's is `LineRewrites.SectionExact`, the blank line's is `BlankShape`'s own contract), rejections of particular lines, and soundness of the hotkey recognizer |
| `precedence.dfy` | `Precedence` | where the first-match scan of each kind of line begins with the real table |
| `line_rewrites.dfy` | `LineRewrites` | the exact output `Adjust` gives each kind of line with the real table |
| `scoping.dfy` | `Scoping` | the whole program's output, described without the loop |

The regular expressions are not run by a regex engine. Each one is an
anchored shape over literals, `\w` and the segment class `[\w \-\!\.]`, so
each is a recognizer written by hand. The boundaries of the segment class
make every capture unique. The `Recognition` lemmas prove that the split each
recognizer finds is the only one.

The model follows wc3.go in these details:

- A line that matches no entry is **dropped**. It is never appended to a
  group (wc3.go:266-285), so it is not printed. It is not passed through.
- A group's hotkey is the one set by its **last** hotkey line. It applies to
  every line of the group, including the lines before that hotkey line.
- A tooltip with no placeholder still gets the annotation appended
  (wc3.go:76 with wc3.go:215-218).
- Rewritten tooltips lose their quotes. The labelled multi-level Tip forms
  (wc3.go:181-184, 194-198) and the Researchtip level form (wc3.go:132-135)
  allow trailing blanks after the closing quote, and they lose those blanks.
  The bare comma forms (wc3.go:187-191, 201-204) allow no blanks after the
  quote. On an unquoted bare tip, trailing spaces are segment text: they stay
  in the last text group and are kept in front of the annotation. A quoted
  bare tip followed by blanks, or a bare tip that ends in a tab, matches no
  entry and is dropped.

## Model

| member | source | states |
|---|---|---|
| Text.Span | wc3.go:125 | the longest prefix in a character class: everything before it is in the class, and the next character is not |
| Text.Sep | wc3.go:125 | a segment run followed by a literal, as `([\w \-\!\.]*)lit` splits it: segment text, the literal, then the rest |
| Text.SepExact | wc3.go:125 | completeness: segment text, a delimiting literal and a rest are split back into exactly those parts |
| Text.SepMiss | wc3.go:125 | rejection: a segment run not followed by what the literal demands does not split |
| Text.DiffersExcludes | wc3.go:89-221 | no line starts with two literals that differ at some position |
| Expressions.Shape.Recognize | wc3.go:89-221 | every line a shape matches starts with that shape's literal lead |
| Expressions.DropQuote | wc3.go:125 | `"?` drops one leading quote or nothing |
| Expressions.Marked | wc3.go:125 | a match is segment text, `\|cffffcc00`, one word character, `\|r`, segment text, the separator and the rest, in that order and spelled back exactly |
| Expressions.Pieces | wc3.go:179-205 | the groups found spell the input back: four per separator |
| Expressions.SectionShape | wc3.go:93-96 | soundness: a matching line is `[`, a run of word characters, `]`, then only blanks and tabs (the converse is LineRewrites.SectionExact) |
| Expressions.CommaWord | wc3.go:99 | `,\w+` at the head of the text: a comma then word characters, or nothing |
| Expressions.HotkeyShape | wc3.go:97-104 | a matching line starts with the field, and `$1` is the whole non-empty run of word characters after it |
| Expressions.CommentShape | wc3.go:105-108 | matches if and only if the line starts with `//` and holds no newline after it |
| Expressions.BlankShape | wc3.go:109-112 | matches if and only if the line is all blanks and tabs |
| Expressions.UnhotkeyShape | wc3.go:114-117 | matches if and only if the line is `Unhotkey=` then `[\w !.]*`; the groups are the field and that text |
| Expressions.AnnotatedShape | wc3.go:119-122 | a matching line starts with the field |
| Expressions.UntipColouredShape | wc3.go:162-165 | a matching line starts with `Untip=` |
| Expressions.PlaceholderShape | wc3.go:123-126 | a match yields the field, the text before, the one-character key and the text after |
| Expressions.PlainShape | wc3.go:127-130 | a match yields the field and segment text |
| Expressions.LevelsShape | wc3.go:179-205 | a match yields the field followed by four groups per separator |
| Expressions.Expression.Matches | wc3.go:35-52 | `matchFalse` if and only if no match; `matchCommand` if and only if a match on a command entry; `matchHotkey` likewise for hotkey entries; `matchTrue` for a match on any other entry |
| Expressions.Expression.Extract | wc3.go:54-56 | on a hotkey entry: the whole first word, the longest non-empty run of `\w` characters after the field |
| Expressions.Expression.Replace | wc3.go:59-86 | keep, command and hotkey entries return the line unchanged (the `replaceTwo` case is the corrected template; see "## Findings") |
| Expressions.Expression.ReplaceTwoAsWritten | wc3.go:78-79 | the template as written: adding `$9` to its result gives the corrected `Replace` |
| Groups.FirstMatchFrom | wc3.go:232-238 | the index found is in range and that entry matches |
| Groups.Classify | wc3.go:232-238 | the entry found matches the line |
| Groups.Rewrite | wc3.go:230-240 | a group keeps its number of lines |
| Groups.RewrittenBy | wc3.go:232-238 | the entry at which the scan stops rewrites the line |
| Groups.Group.constructor | wc3.go:253 | `Group{}`: no lines, empty hotkey |
| Groups.Group.Headed | wc3.go:274 | a new group holding only its header, with an empty hotkey |
| Groups.Group.Adjust | wc3.go:230-240 | every line is replaced in place by its first matching entry's rewrite, with the group's hotkey; the hotkey is unchanged |
| Driver.Process | wc3.go:263-289 | the loop prints exactly `Transform` of the input |
| Driver.Run | wc3.go:249-293 | `main` prints `Transform(Table, input)`, with the corrected `replaceTwo` template |
| Recognition.DropQuoteOf | wc3.go:125 | an optional quote before a body that does not start with a quote is dropped exactly |
| Recognition.MarkedExact | wc3.go:125 | completeness of one placeholder: its parts are found exactly |
| Recognition.WellPlacedOf | wc3.go:179-205 | separators that end in a non-segment character, the last one delimited by what follows, place every group |
| Recognition.PiecesExact | wc3.go:179-205 | groups placed by their separators are read back exactly, with the rest |
| Recognition.UnhotkeyExact | wc3.go:114-117 | `Unhotkey=` then `[\w !.]*` text yields that text as `$2` |
| Recognition.PlaceholderExact | wc3.go:123-126 | a one-placeholder tooltip, quoted or not, yields its field, text before, key and text after |
| Recognition.PlainExact | wc3.go:127-130 | a tooltip of segment text, quoted or not, yields its field and that text |
| Recognition.LevelsExact | wc3.go:179-205 | a level-form tooltip (the Tip forms here, and equally the one-placeholder Researchtip form at wc3.go:132-135) yields its field and every group in order, trailing blanks allowed where the pattern allows them |
| Recognition.AnnotatedExact | wc3.go:119-122 | a tooltip already carrying ` (\|cffffcc00W\|r)` matches the keep pattern |
| Recognition.AnnotatedMiss | wc3.go:119-122 | segment text followed by anything but ` (` does not match the keep pattern |
| Recognition.MarkedMissGold | wc3.go:125 | text with no colour marker after its segment run has no placeholder |
| Recognition.MarkedMissSep | wc3.go:181-183 | a placeholder not followed by the expected separator is rejected |
| Recognition.PiecesMissHead | wc3.go:179-205 | a first placeholder closed by the wrong separator rejects the whole form |
| Recognition.PiecesMissSecond | wc3.go:179-205 | a second placeholder closed by the wrong separator rejects the whole form |
| Recognition.NoPlaceholder | wc3.go:123-135 | a tooltip with no colour marker matches neither a placeholder nor a level form |
| Recognition.OneNotAnnotated | wc3.go:119-126 | a one-placeholder tooltip does not match the keep pattern |
| Recognition.PlainNotAnnotated | wc3.go:119-130 | a tooltip of plain segment text does not match the keep pattern |
| Recognition.UntipColouredExact | wc3.go:162-165 | `Untip=`, an optional quote, `\|cffc3dbff`, at least two segment characters, `\|r` and an optional quote matches the coloured keep pattern |
| Recognition.UntipColouredMiss | wc3.go:162-165 | an `Untip=` line whose text does not start with `\|cffc3dbff` does not match the coloured keep pattern |
| Recognition.HotkeyExact | wc3.go:97-104 | `field` then a word, up to two `,word`, then blanks, matches and its `$1` is the first word |
| Recognition.HotkeySound | wc3.go:97-104 | the converse: every matching line is the field, its `$1`, at most two `,word` and trailing blanks |
| Recognition.CommentExact | wc3.go:105-108 | `//` followed by text without a newline matches the comment pattern |
| Precedence.SkipRange | wc3.go:232-238 | entries that do not match do not change where the scan stops |
| Precedence.Decide | wc3.go:232-236 | the entry at which the scan stops decides the rewrite |
| Precedence.SkipEntry | wc3.go:231-235 | an entry whose literal lead differs from the field a line starts with does not match it, so the scan passes on to the next entry |
| Precedence.SkipHeads | wc3.go:93-111 | a line that starts with a tooltip or Unhotkey field passes the header, the two hotkey forms, the comment and the blank-line entries |
| Precedence.UnhotkeyStart | wc3.go:93-117 | an `Unhotkey=` line is first tried at entry 5 |
| Precedence.AwakenStart | wc3.go:93-122 | an `Awakentip=` line is first tried at its keep entry |
| Precedence.ResearchStart | wc3.go:93-135 | a `Researchtip=` line is first tried at the level form |
| Precedence.ReviveStart | wc3.go:93-152 | a `Revivetip=` line is first tried at its keep entry |
| Precedence.UntipStart | wc3.go:93-165 | an `Untip=` line is first tried at the coloured keep entry |
| Precedence.TipStart | wc3.go:93-185 | a `Tip=` line is first tried at the three-level labelled form |
| Precedence.HotkeyStart | wc3.go:93-100 | a `Hotkey=` line is first tried at the hotkey entry |
| Precedence.ResearchHotkeyStart | wc3.go:93-104 | a `Researchhotkey=` line is first tried at its hotkey entry |
| LineRewrites.ReplaceThreeOf | wc3.go:81 | the `replaceThree` result is the field followed by `Rebuilt` of the groups (`$14` is empty) |
| LineRewrites.ReplaceTwoOf | wc3.go:78-79 | the corrected `replaceTwo` result is the field followed by `Rebuilt` of the groups |
| LineRewrites.OneReaches | wc3.go:119-175 | the scan of a one-placeholder tooltip reaches its field's keep entry |
| LineRewrites.OnePlaceholderRewrite | wc3.go:75-76 | `X="p1\|cffffcc00c\|rp2"` becomes `X=p1cp2 (\|cffffcc00K\|r)` for all five tooltip fields |
| LineRewrites.PlainReaches | wc3.go:119-218 | the scan of a tooltip without a placeholder reaches its field's keep entry |
| LineRewrites.NoPlaceholderRewrite | wc3.go:215-218 | `X="p1"` becomes `X=p1 (\|cffffcc00K\|r)`: the annotation is still appended |
| LineRewrites.ResearchLevelRewrite | wc3.go:132-135 | the Researchtip level form keeps ` - [\|cffffcc00Level %d\|r]` verbatim after the annotation |
| LineRewrites.LabelledThreeRewrite | wc3.go:179-185 | the labelled three-level Tip gets three annotations, each before its `Level n` label |
| LineRewrites.BareThreeRewrite | wc3.go:186-192 | the comma-separated three-level Tip gets three annotations, commas kept; it is not taken for the labelled form |
| LineRewrites.LabelledTwoRewrite | wc3.go:194-198 | the labelled two-level Tip (corrected template) gets two annotations and keeps both labels; neither three-level form takes it |
| LineRewrites.BareTwoRewrite | wc3.go:200-204 | the comma-separated two-level Tip gets two annotations; none of the three earlier level forms takes it |
| LineRewrites.LabelledTwoAsWritten | wc3.go:78-79 | with the template as written, the labelled two-level Tip loses its `Level 2` label, and the result differs from the corrected one |
| LineRewrites.AnnotatedReaches | wc3.go:119-210 | the scan of an annotated tooltip reaches its field's keep entry |
| LineRewrites.AnnotatedKept | wc3.go:119-122 | a tooltip already of the form `text (\|cffffcc00W\|r)text` is decided by a keep entry and left unchanged, for all five fields |
| LineRewrites.OnePlaceholderStable | wc3.go:119-126 | a second run leaves a rewritten one-placeholder tooltip unchanged when the hotkey is a word |
| LineRewrites.NoPlaceholderStable | wc3.go:119-130 | likewise for a rewritten tooltip that had no placeholder |
| LineRewrites.UnhotkeyRewrite | wc3.go:72-73 | `Unhotkey=<text>` becomes exactly `Unhotkey=` followed by the group's hotkey |
| LineRewrites.SectionExact | wc3.go:93-96 | `[name]` with trailing blanks matches the header pattern |
| LineRewrites.HeaderCommand | wc3.go:93-96 | a header is decided by entry 0 and matches as `matchCommand` |
| LineRewrites.BlankKept | wc3.go:109-112 | a line of blanks and tabs, empty included, is decided by the blank-line entry and left unchanged |
| LineRewrites.UntipColouredKept | wc3.go:162-165 | a coloured `Untip=` line is decided by its keep entry (entry 16) and left unchanged |
| LineRewrites.CommentKept | wc3.go:105-108 | a `//` line without a newline is decided by the comment entry as `matchTrue` and left unchanged |
| LineRewrites.HotkeyLine | wc3.go:97-104 | a `Hotkey=`/`Researchhotkey=` line is decided by its hotkey entry, matches as `matchHotkey`, and extracts its first word |
| Scoping.Kept | wc3.go:263-285 | the kept lines are input lines that some entry matches |
| Scoping.FeedConcat | wc3.go:263-285 | running the loop over two pieces of input is running it over the whole |
| Scoping.TransformGroups | wc3.go:263-289 | the output is the matched lines cut into groups at each header, each group rewritten with the hotkey of its own last hotkey line |
| Scoping.GroupedFlatten | wc3.go:270-282 | grouping loses, adds and reorders no line |
| Scoping.GroupedHeaders | wc3.go:270-274 | every group but the first begins with a header and holds no other; the lines before the first header form a group with no header |
| Scoping.TransformLength | wc3.go:263-289 | the output has exactly as many lines as the input has matched lines |
| Scoping.UnmatchedDropped | wc3.go:266-285 | removing a line that no entry matches does not change the output |
| Scoping.KeyOfNone | wc3.go:253 | a group with no hotkey line has the empty hotkey |
| Scoping.LastHotkeyWins | wc3.go:276-279 | the last hotkey line of a group decides its hotkey, whatever came before |
| Scoping.SectionOpensGroup | wc3.go:270-274 | with the program's table, `[name]` is a header and not a hotkey line |
| Scoping.HotkeyLineSets | wc3.go:276-279 | with the program's table, `Hotkey=W,…` is a hotkey line that sets the hotkey to `W` |

## Left out

- Opening `CustomKeys.txt`, `bufio.Scanner` and its line-length limit, `panic` on I/O errors, `defer f.Close()` and the printing in `Group.Print` (wc3.go:243-247, 255-261, 291-293) are I/O. The input is the sequence of lines and the output the sequence of printed lines.
- The Go `regexp` engine is not modelled in general. Each of the 27 patterns is a hand-written recognizer with `\w` as ASCII `[0-9A-Za-z_]`. Strings are sequences of characters, with no UTF-8 decoding.
- `fmt.Sprintf` is modelled as concatenation. No captured text that is placed inside a `Sprintf` format can hold a `%`. The literal `%d` of the Researchtip label is `$5`, which is appended outside `Sprintf` (wc3.go:76).
- The integer values of the `action` and `match` constants are left out. Both are closed datatypes.
- Expressions.Expression.Replace, Driver.Run: `Transform` applies the corrected `replaceTwo` template, which appends `$9`. On a labelled two-level Tip, `main` as written prints the line without its `Level 2` label (see "## Findings"). That as-written behaviour is modelled only line by line, by `ReplaceTwoAsWritten` and `LineRewrites.LabelledTwoAsWritten`, and not for a whole file.
- The `"<< ERROR >>"` result of `replace` (wc3.go:85) is left out. It cannot happen because the match over the seven actions is exhaustive.
- Expressions.Expression.Replace: requires that the entry matches the line, as every caller ensures (wc3.go:232-234, 268-284). What Go's `ReplaceAllString` would return for a line the entry does not match is not modelled.
- Expressions.Expression.Extract: requires a match for the same reason.
- Expressions.AnnotatedShape, Expressions.UntipColouredShape, Expressions.PlaceholderShape, Expressions.PlainShape, Expressions.LevelsShape: their own contracts state only what a match starts with and how many groups it has. The `Recognition` lemmas prove completeness (a line built from the pattern's parts matches, with exactly those groups) and the rejection of particular non-matching lines. They do not prove soundness, i.e. that every line these recognizers accept has the pattern's form.
- Groups.Group.Adjust: a Go `Group` is a value whose `Lines` slice shares its backing array with the caller's. The model is a class with the lines rewritten in place, which gives the same result.
- A rewritten multi-level or Researchtip level line, or a tooltip rewritten with an empty hotkey, is not matched by any keep entry. A second run would therefore drop it. The model proves stability only for single-placeholder and plain tooltips with a word hotkey.

## Findings

| source | as written | input that shows it | evidently intended | confidence | as-written member | corrected member |
|---|---|---|---|---|---|---|
| wc3.go:78-79 with wc3.go:194-198 | the `replaceTwo` template is `$1$2$3$4 (…)$5$6$7$8 (…)` and stops at `$8`; the labelled two-level pattern has nine groups, and its ninth is the ` - [\|cffffcc00Level 2\|r]` label | `Tip="a\|cffffcc00B\|r - [\|cffffcc00Level 1\|r],c\|cffffcc00D\|r - [\|cffffcc00Level 2\|r]"` in a group with hotkey `K` becomes `Tip=aB (\|cffffcc00K\|r) - [\|cffffcc00Level 1\|r],cD (\|cffffcc00K\|r)`: the `Level 2` label is lost | append `$9` as `replaceOne` appends `$5` and `replaceThree` appends `$13$14`, keeping the label | high; not executed | Expressions.Expression.ReplaceTwoAsWritten, LineRewrites.LabelledTwoAsWritten | Expressions.Expression.Replace, LineRewrites.LabelledTwoRewrite |
