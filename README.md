# prologue_logger, modelled in Dafny

`prologue_logger` is a Rust crate that writes compiler-style diagnostics, the way
`cargo` and `rustc` lay them out:

```text
warning: variable does not need to be mutable
 --> src/main.rs:3:9
  |
3 |     let mut x = 42;
  |         ----^
  |         |
  |         help: remove this `mut`
  |
  = note: `#[warn(unused_mut)]` on by default
```

This project models the layout engine and the state around it, and proves properties of them:

- **Annotations.** A source line keeps its annotated spans sorted and non-overlapping.
  `annotate` refuses an overlapping span. Underlines stand under the columns they mark, and
  the staggered call-out rows are written from the rightmost annotation leftwards
  (`lines.dfy`).
- **Sources.** A source block has a location header, its lines, trailing margin rows and
  notes. Without a formatter width its margin column is shared by every row; with a
  width, only when every line number fits that width (`sources.dfy`).
- **Entries.** An entry is a kind, a text and an optional source. A `MultiEntry` group
  shares one margin width among its entries and ends in exactly one blank row. A row is
  one written piece ended by a line feed; a text that itself holds a line feed (an entry
  text such as "a\n") still makes a row that is not blank, though it prints a blank line.
  A `Task`
  row right-aligns its progress word (`entries.dfy`).
- **The builder.** `EntrySourceBuilder` has a pending line, the notes, and the errors that
  hand the builder back (`building.dfy`, `errors.dfy`).
- **Targets.** Targets count the warnings and errors logged to them. The target list keeps
  names unique (`targets.dfy`).
- **Styled writing.** The standard styled writer ignores styles. `RichMargin`, `Highlight`,
  `RichLine` and `RichText` are the rich-text layer (`style.dfy`).
- **Shared helpers.** The fixed glyphs and the console no-op styling are in
  `internals.dfy`. Kind ordering and labels are in `kinds.dfy`. Rust's formatter padding,
  decimal digits, `str::lines` and the joining of newline-terminated rows are in
  `text.dfy`.

What each part writes is modelled as text: a sequence of rows that `Text.Render` joins and
ends each with a line feed. The formatter's requested width is an `Option<nat>`. Rust's
`Formatter::pad` is modelled exactly: a minimum width, a fill character, an alignment, and
no truncation.

State that the source changes in place is modelled by classes:

- `EntrySourceBuilder`: builder methods take `mut self` and return it; the model updates
  one object in place, which is the same thing.
- `MultiEntry`.
- `Target`: its counters are shared between clones.
- `TargetList`.
- `RichText`.

Values that are uniquely owned are datatypes, and the functions on them return the updated
value: `SourceLine`, `Source`, `Entry`, `RichLine`, `RichMargin`, `Highlight` and `Error`.

The model follows these choices of the code:

- **Source width.** Without a formatter width, a source's margin width is the digit count
  of the largest line number among its lines. The anchor line is used only when there are
  no lines (src/lib.rs:491-498).
- **Group width.** A `MultiEntry` takes its shared width from each entry's anchor line, or
  1 for an entry without a source (src/lib.rs:1272-1276). The crate promises that in a
  group all code lines start at the same position (src/lib.rs:1264-1266). The code keeps
  that promise only when no line number has more digits than the largest anchor
  (Findings row 3). `Entries.GroupMarginAligned` proves it for every entry whose line
  numbers fit the group's width: its margin rows sit in the group's rows with their bars
  in one column.
- **Brightness.** `Entry::source` and `Entry::named_source` set the entry's bright flag
  before the builder exists, so `discard` returns a bright entry (src/lib.rs:1133-1137,
  948-951).
- **`if_warnings` / `if_errors`.** These call their callback with the count when it is
  positive. The model returns the count the callback would receive, or `None` when it is
  not called (its `Ok(())` result).

## Model

| member | source | states |
|---|---|---|
| Wrappers.Option.GetOr | src/lib.rs:491-498 | reference definition: `Option::unwrap_or` |
| Kinds.AtMostIsTotalOrder | src/lib.rs:546-560 | the derived order on entry kinds is a total order, with Help < Note < Warning < Error |
| Kinds.Worst | src/lib.rs:1657-1660 | the maximum kind bounds every kind of the sequence and is one of them; Help for no kinds |
| Kinds.WorstIsErrorOrWarning | src/lib.rs:1657-1665 | the maximum is Error exactly when some kind is Error, and Warning exactly when none is Error and some is Warning |
| Kinds.Label | src/lib.rs:561-569 | reference definition: the label of each kind, four characters or more |
| Kinds.LabelInjective | src/lib.rs:561-569 | different kinds display different labels |
| Kinds.Styled | src/lib.rs:571-580 | a kind-coloured object displays as the object itself |
| Console.Display | src/internals.rs:9-13 | without a width, a styled object displays as its inner object |
| Console.StyleIsTransparent | src/internals.rs:14-42 | `style` and every colour method leave the displayed text unchanged, padding included |
| Internals.LineStart | src/internals.rs:45-51 | the margin bar is `\|` |
| Internals.NoteDash | src/internals.rs:52-58 | the note bullet is `=` |
| Internals.Arrow | src/internals.rs:59-65 | the location marker is `-->` |
| Internals.Colon | src/internals.rs:66-72 | the separator after a kind is `:` |
| Internals.Title | src/internals.rs:73-79 | a title displays as its text |
| Internals.AnnotationUnderline | src/internals.rs:80-90 | an underline of length n is n characters |
| Internals.AnnotationUnderlineIsPadded | src/internals.rs:82-90 | the underline is the styled empty string right-aligned to n with the kind's glyph as fill |
| Internals.UnderlineAt | src/internals.rs:84-88 | every underline character is `-` for Help and `^` for the other kinds |
| Errors.Message | src/error.rs:107-119 | the duplicate-target message is the target name plus 24 fixed characters |
| Errors.MessageInjective | src/error.rs:107-119 | different error kinds give different messages |
| Errors.Display | src/error.rs:48-52 | reference definition: an error displays as its kind's message |
| Errors.Kind | src/error.rs:72-75 | reference definition: the kind of an error |
| Errors.IntoPartialConfiguration | src/error.rs:82-86 | reference definition: the configuration an error hands back |
| Errors.DisplayTellsKinds | src/error.rs:48-52 | two errors display alike exactly when their kinds are equal |
| Errors.FromKind | src/error.rs:53-57 | an error made from a kind has that kind and no partial configuration |
| Errors.SetPartialConfiguration | src/error.rs:77-80 | setting the configuration keeps the kind |
| Errors.IntoErrorWithPartialConfiguration | src/error.rs:120-125 | the promoted error has the kind and hands back the configuration |
| Errors.SetThenInto | src/error.rs:77-86 | the configuration taken out is the one set; kind and message stay |
| Errors.SetOnFromKind | src/error.rs:53-57 | setting a configuration on an error from a kind is promoting the kind with it |
| Text.LinesHaveNoNewline | src/lib.rs:321-331 | no piece of `str::lines` holds a line feed, and a text without one is one line |
| Text.DigitsMonotone | src/lib.rs:491-498 | a larger number never has fewer digits, so the digit count of the maximum bounds all |
| Lines.NewSourceLine | src/lib.rs:451-455 | a new line has its number and contents and no annotations |
| Lines.Precedes | src/lib.rs:341-350 | reference definition: the corrected annotation order, by position and then length (Findings row 1) |
| Lines.ValidChain | src/lib.rs:464-469 | on a valid line every span ends at or before the start of every later span |
| Lines.ValidIffOrdered | src/lib.rs:464-469 | the adjacent form of the line invariant is equivalent to the pairwise form |
| Lines.ValidIffSortedAndDisjoint | src/lib.rs:456-477 | the line invariant is exactly: sorted by position then length, and pairwise disjoint |
| Lines.InsertionIndex | src/lib.rs:474-475 | the insertion index is after every span preceding the new one and before the first that does not |
| Lines.Insert | src/lib.rs:474-475 | an insertion adds exactly the new annotation (multiset) |
| Lines.InsertAt | src/lib.rs:474-475 | after insertion at index k, earlier annotations stay, the new one is at k, later ones shift by one |
| Lines.AddAnnotation | src/lib.rs:474-475 | reference definition: the line with the annotation inserted in the corrected order |
| Lines.InsertKeepsValid | src/lib.rs:456-477 | an accepted annotation keeps the line sorted and overlap-free |
| Lines.PositionIndex | src/lib.rs:341-350 | as written, the new annotation goes after every annotation at or before its position |
| Lines.InsertAsWritten | src/lib.rs:474-475 | the position-only sort adds exactly the new annotation (multiset) |
| Lines.InsertAsWrittenAt | src/lib.rs:474-475 | where each annotation lands under the position-only sort |
| Lines.AsWrittenKeepsSortedDisjoint | src/lib.rs:456-477 | the position-only sort keeps the line sorted by position and pairwise disjoint |
| Lines.AsWrittenPassesCursor | src/lib.rs:379-383 | as written, (5,0) after (5,3) is accepted and placed after it, so the cursor (8) passes the next position (5) |
| Lines.InsertOrdersZeroLengthFirst | src/lib.rs:474-475 | with the length as tie-break the same two spans come out in drawable order |
| Lines.EarlyExitSound | src/lib.rs:466-469 | on a valid line, stopping the overlap scan at the first span after the new one gives the full scan's verdict |
| Lines.AddAtEnd | src/lib.rs:456-477 | a span at or after the end of the last one is accepted and appended |
| Lines.Annotate | src/lib.rs:456-477 | annotate succeeds with the annotation inserted exactly when the span overlaps none, else fails with OverlappingAnnotation |
| Lines.Advance | src/lib.rs:379-383 | the blanks written take the cursor exactly to the annotation's position |
| Lines.Gutter | src/lib.rs:416-417 | the empty margin is w + 2 characters |
| Lines.LineRowCount | src/lib.rs:411-448 | a bare line writes one row, a line with k annotations 2k rows |
| Lines.UnderlinesLength | src/lib.rs:385-390 | the underlines reach exactly the end of the last span drawn |
| Lines.UnderlineGlyphAt | src/lib.rs:385-390 | inside each span the underline row holds that kind's glyph |
| Lines.UnderlineGapAt | src/lib.rs:379-390 | between spans the underline row is blank |
| Lines.TextArrowLength | src/lib.rs:392-403 | a stem is as wide as its span, except a labelled empty span, whose bar overflows to one column |
| Lines.ArrowsLength | src/lib.rs:392-403 | with no labelled empty span, the stems reach exactly the end of the last span drawn |
| Lines.StemAt | src/lib.rs:396-397 | a labelled annotation's stem row has `\|` at its position |
| Lines.NoStemAt | src/lib.rs:398-400 | an unlabelled annotation leaves its span blank in the stem rows |
| Lines.BarExtends | src/lib.rs:411-448 | writing more after a margin keeps its bar |
| Lines.GutterBar | src/lib.rs:416-417 | the empty margin has a blank at column w and the bar at w + 1 |
| Lines.StemRowBar | src/lib.rs:433-438 | every stem row has the bar at column w + 1 |
| Lines.LabelRowBar | src/lib.rs:439-444 | every label row has the bar at column w + 1 |
| Lines.SourceRow | src/lib.rs:414-415 | reference definition: the number left-aligned in w columns, the bar, the text |
| Lines.UnderlineRow | src/lib.rs:416-423 | reference definition: the empty margin, then the underlines |
| Lines.LineRows | src/lib.rs:411-448 | reference definition: every row a line writes |
| Lines.SourceRowAt | src/lib.rs:414-415 | the source row is the number in w columns, then ` \| `, then the text from column w + 3 |
| Lines.SourceRowBar | src/lib.rs:414-415 | a number that fits puts the bar at column w + 1 |
| Lines.UnderlineRowBar | src/lib.rs:416-429 | the underline row has the bar at column w + 1 |
| Lines.CallOutBar | src/lib.rs:431-446 | every call-out row has the bar at column w + 1 |
| Lines.LineRowsBar | src/lib.rs:411-448 | every row a line writes has the bar at column w + 1 once its number fits |
| Lines.LineRowsFront | src/lib.rs:414-429 | the first row is the source row, then (with annotations) the underline row |
| Lines.LineRowsBack | src/lib.rs:431-446 | the rows after the underline row are the call-outs of all but the last annotation |
| Lines.UnderlineRowAt | src/lib.rs:416-423 | the underlines start at column w + 2 of the underline row |
| Lines.UnderlineUnderColumn | src/lib.rs:411-423 | an underline at 1-based column c stands exactly under the c-th character of the text |
| Lines.PopOrder | src/lib.rs:424-446 | the pop order holds two rows per popped annotation |
| Lines.PopOrderAt | src/lib.rs:431-446 | the m-th annotation's stem and label rows are written at 2(n-1-m) and the row after it |
| Lines.PopOrderStep | src/lib.rs:431-446 | popping the m-th annotation writes the next two rows of the pop order |
| Lines.DrawUnderlines | src/lib.rs:418-423 | the underline loop writes the underlines of all annotations |
| Lines.DrawArrows | src/lib.rs:392-403 | the stem loop writes the first m stems and leaves the cursor at the end of the m-th span |
| Lines.DrawCallOut | src/lib.rs:431-446 | one pop writes that annotation's stem row and label row |
| Lines.DrawCallOuts | src/lib.rs:431-446 | the pop loop writes the call-out rows in pop order |
| Lines.BareLineRendered | src/lib.rs:414-416 | a line without annotations writes only its source row |
| Lines.AnnotatedLineRendered | src/lib.rs:411-448 | an annotated line writes the source row, the underlines with the last label, then the call-outs |
| Lines.RenderLine | src/lib.rs:411-448 | `Display for SourceLine` writes exactly the rows of the line |
| Sources.AsStr | src/lib.rs:286-292 | both note kinds are four characters |
| Sources.NoteRows | src/lib.rs:319-333 | a note writes one row per line of its text |
| Sources.NoteTextAligned | src/lib.rs:319-333 | every note line starts at column width + 9, after `=` (first row) or a blank at width + 1 |
| Sources.RenderNote | src/lib.rs:319-333 | the note loop writes the note's rows |
| Sources.NewSource | src/lib.rs:532-534 | a new source is anonymous, anchored, with no lines or notes |
| Sources.SetFilename | src/lib.rs:536-538 | only the file name changes |
| Sources.AddLine | src/lib.rs:540-542 | only the lines change, by one line at the end |
| Sources.MaxLine | src/lib.rs:491-498 | the largest line number bounds every line's number and is one of them |
| Sources.SourceWidth | src/lib.rs:489-498 | reference definition: the formatter's width, or the digits of the largest line number (the anchor without lines) |
| Sources.HeaderRow | src/lib.rs:500-505 | reference definition: the location row, named or anonymous |
| Sources.SourceRows | src/lib.rs:488-529 | reference definition: every row a source block writes |
| Sources.SourceWidthFits | src/lib.rs:491-498 | without a width every line number fits the margin, and the width is the anchor's digit count when there are no lines |
| Sources.AllLineRowsMargined | src/lib.rs:509-510 | every row of lines whose numbers fit carries the bar |
| Sources.LineRowsMargined | src/lib.rs:509-510 | every row of one line whose number fits carries the bar |
| Sources.MarginedAppend | src/lib.rs:507-523 | joining margined row blocks keeps every row margined |
| Sources.SourceMarginAligned | src/lib.rs:488-529 | header, then margined rows, then notes; every row from the empty margin to the last margin row carries the bar |
| Sources.SourceMarginAlignedByDefault | src/lib.rs:488-529 | without a formatter width the margin rows are always aligned |
| Sources.TrailingMarginCount | src/lib.rs:513-523 | one closing margin row when the last line has no annotations (or there are no lines), one more before notes |
| Sources.SourceRowCount | src/lib.rs:488-529 | the block is header, empty margin, line rows, trailing margins and notes, in that order |
| Sources.SourceLastRow | src/lib.rs:513-518 | without notes, the block ends in an empty margin row or in the last line's last row, as the last line has annotations or not |
| Sources.RenderLines | src/lib.rs:509-510 | the line loop writes each line's rows at the source width |
| Sources.RenderNotes | src/lib.rs:525-527 | the note loop writes each note's rows at the source width |
| Sources.RenderSource | src/lib.rs:488-529 | `Display for Source` writes exactly the rows of the block |
| Entries.NewEntry | src/lib.rs:981-984 | a new entry has its kind and text, is not bright and has no source |
| Entries.NewError | src/lib.rs:1009-1011 | an error entry |
| Entries.NewWarning | src/lib.rs:1036-1038 | a warning entry |
| Entries.NewNote | src/lib.rs:1063-1065 | a note entry |
| Entries.NewHelp | src/lib.rs:1090-1092 | a help entry |
| Entries.TitleRow | src/lib.rs:967-970 | reference definition: the title row of an entry |
| Entries.EntryRows | src/lib.rs:966-978 | reference definition: every row an entry writes |
| Entries.TitleRowText | src/lib.rs:967-970 | the title row is label, `: `, text, whether bright or not |
| Entries.SourceRowsDefaultWidth | src/lib.rs:491-498 | a source given its own default width is written as without a width |
| Entries.EntryTrailingBlank | src/lib.rs:971-977 | without a width an entry with a source ends in one extra blank row; without a source it is its title row only |
| Entries.RenderEntry | src/lib.rs:966-978 | `Display for Entry` writes exactly the entry's rows |
| Entries.MaxAnchor | src/lib.rs:1272-1275 | the largest anchor bounds every entry's anchor (1 without a source) and is one of them; 1 for no entries |
| Entries.GroupWidth | src/lib.rs:1272-1276 | every entry's anchor fits the group width; width 1 for no entries |
| Entries.KindsOf | src/lib.rs:1657-1660 | the kinds of the entries, index by index |
| Entries.GroupKind | src/lib.rs:1657-1661 | a group is logged as its worst kind, one of its kinds; Help when empty |
| Entries.NonBlankAppend | src/lib.rs:1271-1281 | joining blocks without blank rows has no blank row |
| Entries.LineRowsNonBlank | src/lib.rs:411-448 | no row of a line is blank |
| Entries.LineRowNonBlank | src/lib.rs:411-448 | each single row a line writes is non-empty |
| Entries.AllLineRowsNonBlank | src/lib.rs:509-510 | no row of a source's lines is blank |
| Entries.AllNoteRowsNonBlank | src/lib.rs:525-527 | no note row is blank |
| Entries.SourceRowsNonBlank | src/lib.rs:488-529 | no row of a source block is blank |
| Entries.EntryRowsNonBlank | src/lib.rs:966-978 | an entry written with a width has no blank row |
| Entries.AllEntryRowsNonBlank | src/lib.rs:1277-1279 | the entries of a group leave no blank row between them |
| Entries.GroupRows | src/lib.rs:1271-1281 | reference definition: every row a group writes |
| Entries.GroupEndsWithOneBlank | src/lib.rs:1271-1281 | a group's rows end in one blank row, and no other row is blank |
| Entries.RenderGroup | src/lib.rs:1271-1281 | `Display for MultiEntry` writes each entry at the group width, then one line feed |
| Entries.AllEntryRowsPrefix | src/lib.rs:1277-1279 | the rows of the first n entries begin the rows of the group |
| Entries.EntryRowsWithSource | src/lib.rs:966-978 | an entry with a source, at width w, is its title row, the source header, the margin rows and the note rows |
| Entries.EntryMarginAligned | src/lib.rs:966-978 | entry i's rows at width w follow the earlier entries' rows, and when its line numbers fit w its margin rows have their bars at w + 1 |
| Entries.NineTenMisaligned | src/lib.rs:1272-1276 | at width 1, a source showing lines 9 and 10 has a margin row without its bar at column 2 |
| Entries.GroupMisaligned | src/lib.rs:1272-1276 | as written, an entry anchored at line 9 that shows line 10 gets width 1, and its margin rows are not aligned; the intended width 2 aligns them (Findings row 3) |
| Entries.MaxSourceWidth | src/lib.rs:489-498 | every entry's own source width is at most the result, which is one of them or 1 |
| Entries.AlignedGroupWidth | src/lib.rs:1264-1276 | the intended group width: at least the anchor width, every line number of every entry fits it, and it is the anchor width or one entry's own source width (Findings row 3) |
| Entries.AlignedWidthAgrees | src/lib.rs:1272-1276 | the intended width equals the code's exactly when every line number already fits the code's width |
| Entries.AlignedGroupMarginAligned | src/lib.rs:1264-1266 | with the intended width, every entry's margin rows sit in the group's rows with their bars in one shared column, with no condition on the line numbers |
| Entries.GroupMarginAligned | src/lib.rs:1264-1281 | entry i's rows follow the earlier entries' rows in the group, and when its line numbers fit the group width its margin rows have their bars in the one column shared by the group |
| Entries.MultiEntry.constructor | src/lib.rs:1283-1294 | a new group is empty |
| Entries.MultiEntry.AddEntry | src/lib.rs:1351-1354 | one entry is appended |
| Entries.MultiEntry.Display | src/lib.rs:1271-1281 | the group's text is the rows of its entries |
| Entries.TaskRow | src/lib.rs:1469-1473 | reference definition: the task row |
| Entries.TaskAligned | src/lib.rs:1469-1473 | the progress word is right-aligned to max(width or 12, its length), then a blank and the description |
| Building.EntrySourceBuilder.FromSource | src/lib.rs:1133-1137 | the entry is made bright, with a new anonymous source and no pending line |
| Building.EntrySourceBuilder.FromNamedSource | src/lib.rs:1178-1183 | as `FromSource`, with the file name set |
| Building.EntrySourceBuilder.Annotate | src/lib.rs:596-609 | without a pending line, AnnotationOnEmptyLine with the builder; on overlap, OverlappingAnnotation with the builder and nothing changed; otherwise the span is added to the pending line |
| Building.EntrySourceBuilder.AnnotateErr | src/lib.rs:679-681 | `Annotate` with Error |
| Building.EntrySourceBuilder.AnnotateWarn | src/lib.rs:732-734 | `Annotate` with Warning |
| Building.EntrySourceBuilder.AnnotateNote | src/lib.rs:786-788 | `Annotate` with Note |
| Building.EntrySourceBuilder.AnnotateHelp | src/lib.rs:840-842 | `Annotate` with Help |
| Building.EntrySourceBuilder.NewLine | src/lib.rs:622-628 | the new line becomes pending, the previous pending line is filed, and the lines the entry will hold grow by the new line |
| Building.EntrySourceBuilder.Note | src/lib.rs:871-874 | one note appended; nothing else changes |
| Building.EntrySourceBuilder.Help | src/lib.rs:902-905 | one help note appended; nothing else changes |
| Building.EntrySourceBuilder.Finish | src/lib.rs:919-926 | the entry carries the source with every line given, the pending one last |
| Building.EntrySourceBuilder.Discard | src/lib.rs:948-951 | the entry as held by the builder |
| Building.AnnotateAtEnd | src/lib.rs:596-609 | annotating after the last span succeeds and appends it to the pending line |
| Building.UnusedMutExample | src/lib.rs:67-81 | the introductory builder chain yields exactly the documented entry |
| Building.SimpleExample | examples/simple.rs:12-21 | the builder of the example yields four lines numbered 8 to 11 with 3, 0, 0 and 1 annotations |
| Building.OverlapExample | src/lib.rs:665-678 | after `(22, 5)`, both `(18, 5)` and `(24, 1)` are refused as overlapping and the line keeps one span |
| Building.EmptyLineExample | src/lib.rs:606-608 | annotating before any line is refused with AnnotationOnEmptyLine and the builder |
| Targets.ErrorStep | src/lib.rs:1643-1648 | logging adds one error exactly for an Error entry |
| Targets.WarningStep | src/lib.rs:1643-1648 | logging adds one warning exactly for a Warning entry |
| Targets.Target.constructor | src/lib.rs:1564-1572 | a new target has its name and zero counters |
| Targets.Target.LogEntry | src/lib.rs:1643-1654 | one error or one warning counted by kind, the entry's text written, Ok |
| Targets.Target.LogMultiEntry | src/lib.rs:1656-1671 | a group counts once, by its worst kind; its text is written |
| Targets.Target.LogInlineEntry | src/lib.rs:1673-1679 | a task row is written and nothing is counted |
| Targets.Target.WarningCount | src/lib.rs:1616-1618 | reference definition: the warning counter |
| Targets.Target.ErrorCount | src/lib.rs:1639-1641 | reference definition: the error counter |
| Targets.Target.IfWarnings | src/lib.rs:1719-1726 | the callback gets the warning count exactly when it is positive |
| Targets.Target.IfErrors | src/lib.rs:1751-1758 | the callback gets the error count exactly when it is positive |
| Targets.FindIn | src/lib.rs:1798-1804 | None exactly when no target has the name; otherwise the first target with it |
| Targets.FindInUnique | src/lib.rs:1843-1851 | with unique names, looking up a listed target's name finds that target |
| Targets.TargetList.constructor | src/lib.rs:1768-1781 | a new list is empty |
| Targets.TargetList.Find | src/lib.rs:1798-1804 | None exactly when no target has the name; otherwise a listed target with that name |
| Targets.TargetList.AddTarget | src/lib.rs:1843-1851 | a taken name fails with TargetAlreadyExists and leaves the list; a new one is appended; names stay unique |
| Targets.TargetList.CreateTarget | src/lib.rs:1822-1829 | a fresh target with zero counters is added, or TargetAlreadyExists with the list unchanged; names stay unique |
| Targets.IntroductionExample | src/lib.rs:57-95 | the example target ends with one warning and no error: the errors callback is not called, the warnings callback gets 1 |
| Targets.SimpleExample | examples/simple.rs:4-41 | the target found by name is the one created, and ends with 0 errors and 2 warnings; a second target of the same name is refused |
| Targets.GroupExample | src/lib.rs:1656-1666 | a warning grouped with a note counts one warning |
| Styles.WriteStr | src/style.rs:65-67 | the standard writer pads the text to the formatter's width |
| Styles.WriteFmt | src/style.rs:57-64 | reference definition: formatted arguments written as one string |
| Styles.WriteUsize | src/style.rs:69-72 | reference definition: a number written as its decimal digits |
| Styles.WriteChar | src/style.rs:73-76 | reference definition: a character written as a one-character string |
| Styles.StdWriterIgnoresStyle | src/style.rs:56-76 | every write of the standard writer is the same whatever the style, and the text itself without a width |
| Styles.WideEnoughUnpadded | src/style.rs:65-67 | a text at least as wide as the width is written unchanged |
| Styles.DefaultMargin | src/style.rs:102-111 | the default margin has no number, `\|`, Help styles |
| Styles.WithLineNumber | src/style.rs:138-143 | the default margin with only the number set |
| Styles.DiffAdd | src/style.rs:145-151 | `+` in the Add style |
| Styles.DiffAddWithLineNumber | src/style.rs:153-158 | `DiffAdd` with only the number set |
| Styles.DiffSub | src/style.rs:160-166 | `-` in the Sub style |
| Styles.DiffSubWithLineNumber | src/style.rs:168-173 | `DiffSub` with only the number set |
| Styles.NewDashed | src/style.rs:175-180 | the default margin with `=` |
| Styles.NewEmpty | src/style.rs:182-187 | the default margin with a blank |
| Styles.MarginText | src/style.rs:119-131 | reference definition: the margin as written, number and character each padded to the formatter width |
| Styles.MarginAlone | src/style.rs:119-131 | without a width, a margin is its number (one blank without one), a blank and the margin character |
| Styles.MarginInBlock | src/style.rs:119-131 | with width w, the number padded to w, a blank, and the margin character itself padded to w: 2w + 1 characters |
| Styles.HighlightWithStyle | src/style.rs:251-258 | one `^` at offset 0 in the given style |
| Styles.SetOffset | src/style.rs:260-263 | only the offset changes |
| Styles.SetLen | src/style.rs:265-268 | only the length changes |
| Styles.SetChar | src/style.rs:270-273 | only the character changes |
| Styles.CopiesOfChar | src/style.rs:244-246 | repeated one-character writes are a repetition of the character |
| Styles.HighlightText | src/style.rs:240-248 | reference definition: offset blanks, then len copies of the character, each one write |
| Styles.HighlightUnpadded | src/style.rs:240-248 | without a width of two or more, a highlight is offset blanks then len characters, offset + len in all |
| Styles.DrawHighlight | src/style.rs:240-248 | the two write loops write the highlight's text |
| Styles.ItemText | src/style.rs:190-299 | reference definition: what each kind of item writes |
| Styles.ItemTextPlain | src/style.rs:190-299 | without a width, texts are written as they are, a right-aligned text is padded to its own width, and the width filler is empty |
| Styles.WidthItemFills | src/style.rs:294-299 | the width filler is as many blanks as the formatter's width |
| Styles.NewRichLine | src/style.rs:305-312 | no margin and no items |
| Styles.LineWithDefaultMargin | src/style.rs:336-341 | the default margin and no items |
| Styles.LineWithMargin | src/style.rs:343-348 | the given margin and no items |
| Styles.Push | src/style.rs:350-352 | one item appended, margin kept |
| Styles.RichLineText | src/style.rs:319-330 | reference definition: the margin, a blank, then every item |
| Styles.PushAppendsText | src/style.rs:319-329 | pushing an item appends exactly its text to the line's text |
| Styles.DrawLine | src/style.rs:319-329 | the write loop writes the margin, a blank, then every item |
| Styles.MaxNumber | src/style.rs:373-376 | the largest margin number bounds every margin number and is one of them, or 0 |
| Styles.BlockWidth | src/style.rs:373-377 | every margin number fits the block width |
| Styles.BlockRowAsWritten | src/style.rs:378-382 | reference definition: a line written at the block width, as the code does (Findings row 2) |
| Styles.BlockItemText | src/style.rs:294-299 | reference definition: an item in a block as intended, the width filler as the block's blanks (Findings row 2) |
| Styles.BlockItemTextAgrees | src/style.rs:294-299 | in a block the width filler writes what the block's formatter makes it write, `w` blanks; every other item is written as without a width |
| Styles.BlockItemsPlain | src/style.rs:319-329 | a line without a width filler writes its items in a block exactly as without a width |
| Styles.BlockRow | src/style.rs:372-384 | reference definition: the corrected row, the width on the number column and the width filler (Findings row 2) |
| Styles.FillerRow | src/style.rs:294-299 | in a block of width w a line holding only the width filler writes its margin part and w blanks |
| Styles.FillerOnlyBlock | src/style.rs:294-299 | a block of one marginless line holding only the width filler is one column wide and writes one blank and a line feed |
| Styles.BlockRowsAt | src/style.rs:378-382 | row i of a block is the row of line i |
| Styles.BlockMargin | src/style.rs:119-131 | in a block, the margin is the number padded to the width, a blank, the margin character, a blank |
| Styles.BlockRowPrefix | src/style.rs:372-384 | a margin whose number fits takes w + 3 columns with the character at w + 1 |
| Styles.TextRowAt | src/style.rs:372-384 | a text line's character k is in column w + 3 + k |
| Styles.MarkRowAt | src/style.rs:240-248 | a highlight line's characters are in columns w + 3 + k for every k it covers |
| Styles.HighlightUnderText | src/style.rs:372-384 | in a block, a highlight stands exactly under the text columns it covers |
| Styles.AsWrittenTextRow | src/style.rs:378-382 | as written, a text line in a two-column block is its padded margin (six columns) then the text |
| Styles.AsWrittenMarkRow | src/style.rs:378-382 | as written, every blank of a highlight in a two-column block is two columns wide |
| Styles.TwoLineWidth | src/style.rs:373-377 | a block holding line number 10 is two columns wide |
| Styles.ExampleAsWritten | src/style.rs:378-382 | as written, column 8 of the block holds the `w` of "I writes good code" on line 10 and a blank of the highlight below it |
| Styles.ExampleCorrected | src/style.rs:372-384 | with the corrected rows, column 7 holds that `w` and a `^` under it |
| Styles.WideBlockMisplacesHighlight | src/style.rs:378-382 | as written, with line number 10 the highlight of `writes` shows a blank under `w`; the corrected row has `^` there |
| Styles.RichText.constructor | src/style.rs:386-389 | a new text has no lines |
| Styles.RichText.AddNewLine | src/style.rs:391-393 | one bare line appended |
| Styles.RichText.AddNewLineWithDefaultMargin | src/style.rs:395-397 | one line with the default margin appended |
| Styles.RichText.AddNewLineWithMargin | src/style.rs:399-401 | one line with the given margin appended |
| Styles.RichText.AddText | src/style.rs:403-408 | on an empty text, one new line holding the item; otherwise only the last line changes, by the item |
| Styles.RichText.Display | src/style.rs:372-384 | one corrected row per line, at the digit count of the largest margin number, each ended by a line feed |

## Left out

- Concurrency: `Target` and `TargetList` share their state through `Arc<Mutex<…>>`. The
  model is sequential, so `add_target`'s separate lock for the lookup and for the push
  (a race between two adders of one name) is not modelled.
- Output: what is written to the standard error stream (`eprint!`) or to an `indicatif`
  progress bar is returned as text instead. Progress bars (`with_multi_progress`,
  `add_progress_bar`, `clear_progress_bar`) are not modelled.
- The `log` facade: `PrologueLogger`, `log_record`, `init`, `log`, `log_to_target` and
  `log_to_prologue_logger` route an entry to a target by name. They are not modelled; the
  target methods they call are.
- The `SetLoggerError` and `IoError` error kinds exist only with optional features and
  carry foreign errors. They are not modelled.
- ANSI colouring: `ConsoleWriter` and the `console` crate are not modelled. Styling is the
  no-op of the default build, so a style never changes the text.
- `StyledObject::hidden`, the `Styled for Note` implementation and the `styler` field use
  style types that the crate does not define (src/lib.rs:279). They are not modelled;
  `Display for Note` is.
- Integer width: counters, positions and line numbers are unbounded naturals. A `usize`
  overflow of a counter is not modelled. The one underflow that matters (`advance` in the
  annotation drawing) is excluded by the annotation invariant; see Findings.
- Rich items: a user-defined `RichDisplay` item, negative numbers and floating-point
  numbers are not among the modelled item kinds; strings, unsigned numbers and the
  crate's own items are.
- Entries.MultiEntry.Display: keeps the code's width from the anchor lines
  (`Entries.GroupRows`), so a group whose line numbers outgrow it is written misaligned as
  the code writes it; the intended width `Entries.AlignedGroupWidth` of Findings row 3 is
  stated and proved beside it, not used for writing.
- Styles.RichText.Display: each row is the corrected `Styles.BlockRow` (Findings row 2);
  the code's row is `Styles.BlockRowAsWritten`.
- Styles.Push: `RichLine::push` changes a line in place. It is modelled on values because
  a line is owned by one `RichText` or one caller. `RichText.AddText` is in place.
- Lines.Annotate: an accepted annotation goes where the corrected order `Lines.Precedes`
  puts it (position, then length; Findings row 1). The code's position-only order is
  modelled by `Lines.InsertAsWritten`.
- Building.EntrySourceBuilder.Annotate: its pending line takes the corrected order of
  `Lines.Annotate`, not the code's position-only order (Findings row 1).
- Building.EntrySourceBuilder.Annotate: a refused annotation returns an error that holds
  a reference to the builder object. The code moves the builder into the error by value
  (src/lib.rs:596-609), so the caller cannot change it afterwards; the model does not
  prevent that aliasing.
- Targets.Target.IfWarnings: the callback's own effect and its `Result` are not modelled.
  The function states when the callback is called and with what count; `None` stands for
  the `Ok(())` of no call.
- Targets.Target.IfErrors: as `IfWarnings`.
- Building.SimpleExample: the example's three notes are not part of the stated result.
  Only the lines and annotations are checked.
- Text.Lines: `str::lines` is modelled on `\n` and `\r\n` terminators only, like the
  library function.
- The other programs under `examples/` (progress bars, threads, and APIs such as `Event`
  and `Target::with_styler` that the crate does not have) are not modelled. The
  introductory example and `examples/simple.rs` are modelled as scenarios.

## Findings

| source | as written | input that shows it | evidently intended | confidence | as-written member | corrected member |
|---|---|---|---|---|---|---|
| src/lib.rs:341-350 | annotations are ordered by position only, and the overlap check lets a zero-length span through at the start of an existing span; the stable sort puts it after that span, so drawing computes `position - offset` with the cursor already past it (a `usize` underflow) | annotate (5, 3) then (5, 0) on one line | every accepted annotation can be drawn left to right: the cursor never passes a later span's position | medium, not executed | Lines.InsertAsWritten, Lines.AsWrittenPassesCursor | Lines.Insert, Lines.InsertOrdersZeroLengthFirst, Lines.InsertKeepsValid, Lines.Annotate, Building.EntrySourceBuilder.Annotate |
| src/style.rs:378-382 | `RichText` writes each line through a formatter of the block width, and that width reaches every write of the line: the margin character and every single highlight character are padded to the width too | a `RichText` with a line numbered 10 holding "I writes good code" and a line holding `Highlight::with_style(Error).offset(2).len(6)` | the width applies to the number column and to the `Width` filler only, so a highlight stands under the text it marks | medium, not executed | Styles.BlockRowAsWritten, Styles.WideBlockMisplacesHighlight | Styles.BlockRow, Styles.BlockItemTextAgrees, Styles.HighlightUnderText, Styles.RichText.Display |
| src/lib.rs:1272-1276 | `Display for MultiEntry` takes its width from each entry's anchor line only, not from the line numbers its source shows, so a later line with more digits pushes its bar one column right; the crate promises that all code lines of a group start at the same position (src/lib.rs:1264-1266) | an entry built with `source(9, 1)` holding lines 9 and 10, alone in a group: width 1, so line 10's row is "10 \| b" with its bar at column 3 while line 9's is at column 2 | the group width covers every line number of every entry, so all bars share one column | medium, not executed | Entries.GroupWidth, Entries.GroupMisaligned | Entries.AlignedGroupWidth, Entries.AlignedWidthAgrees, Entries.AlignedGroupMarginAligned, Entries.GroupMarginAligned |
