/**
 * The source block of an entry (`Source`): a location header, the annotated lines,
 * and the closing notes (`Note`), all drawn against one margin column.
 */
module Sources {
  import opened Text
  import opened Wrappers
  import opened Internals
  import opened Lines

  datatype NoteKind = Help | Note

  /** `NoteKind::as_str`. */
  function AsStr(k: NoteKind): (r: string)
    ensures |r| == 4
  {
    match k
    case Help => "help"
    case Note => "note"
  }

  datatype Note = Note(kind: NoteKind, text: string)

  /** The first row of a note: the dash right-aligned two columns past the margin width,
      then the kind and the first line of text. */
  function FirstNoteRow(k: NoteKind, len: nat, line: string): string {
    Pad("=", ' ', Right, len + 2) + " " + AsStr(k) + ": " + line
  }

  /** A further row of a note: blanks in place of the dash and of the kind. */
  function ContinuationNoteRow(len: nat, line: string): string {
    Pad(" ", ' ', Right, len + 2) + "       " + line
  }

  /** The rows `Display for Note` writes: one per line of its text (`str::lines`), none for
      an empty text. */
  function NoteRows(n: Note, width: Option<nat>): (rows: seq<string>)
    ensures |rows| == |Text.Lines(n.text)|
  {
    var len := width.GetOr(0);
    var ls := Text.Lines(n.text);
    seq(|ls|, k requires 0 <= k < |ls| =>
      if k == 0 then FirstNoteRow(n.kind, len, ls[k]) else ContinuationNoteRow(len, ls[k]))
  }

  /** Every line of a note's text starts in the same column, `len + 9`, because both kinds
      are four letters wide; the column `len + 1` holds the dash on the first row only. */
  lemma {:induction false} NoteTextAligned(n: Note, width: Option<nat>, k: nat)
    requires k < |NoteRows(n, width)|
    ensures var len := width.GetOr(0);
            var row := NoteRows(n, width)[k];
            |row| == len + 9 + |Text.Lines(n.text)[k]| &&
            row[len + 9..] == Text.Lines(n.text)[k] &&
            row[len + 1] == (if k == 0 then '=' else ' ')
  {
    var len := width.GetOr(0);
    var line := Text.Lines(n.text)[k];
    if k == 0 {
      assert NoteRows(n, width)[k] == FirstNoteRow(n.kind, len, line);
      FirstNoteRowAligned(n.kind, len, line);
    } else {
      assert NoteRows(n, width)[k] == ContinuationNoteRow(len, line);
      ContinuationNoteRowAligned(len, line);
    }
  }

  /** The first row of a note: the dash in column `len + 1`, the text from `len + 9`. */
  lemma FirstNoteRowAligned(kind: NoteKind, len: nat, line: string)
    ensures var row := FirstNoteRow(kind, len, line);
            |row| == len + 9 + |line| && row[len + 9..] == line && row[len + 1] == '='
  {
    var dash := Pad("=", ' ', Right, len + 2);
    var front := dash + " " + AsStr(kind) + ": ";
    assert FirstNoteRow(kind, len, line) == front + line;
    PadRightAt("=", ' ', len + 2, len + 1);
    assert |front| == len + 9;
    SuffixAfter(front, line);
    Assoc3Index(dash, " " + AsStr(kind) + ": ", line, len + 1);
  }

  /** A further row of a note: a blank in column `len + 1`, the text from `len + 9`. */
  lemma ContinuationNoteRowAligned(len: nat, line: string)
    ensures var row := ContinuationNoteRow(len, line);
            |row| == len + 9 + |line| && row[len + 9..] == line && row[len + 1] == ' '
  {
    var blank := Pad(" ", ' ', Right, len + 2);
    var front := blank + "       ";
    assert ContinuationNoteRow(len, line) == front + line;
    PadRightAt(" ", ' ', len + 2, len + 1);
    SuffixAfter(front, line);
    Assoc3Index(blank, "       ", line, len + 1);
  }

  /** The rows of a note, written line by line. */
  method RenderNote(n: Note, width: Option<nat>) returns (out: string)
    ensures out == Render(NoteRows(n, width))
  {
    var len := width.GetOr(0);
    var ls := Text.Lines(n.text);
    ghost var rows := NoteRows(n, width);
    out := "";
    if |ls| == 0 {
      return;
    }
    out := FirstNoteRow(n.kind, len, ls[0]) + "\n";
    RenderOne(rows[0]);
    PrefixSnoc(rows, 0);
    var i := 1;
    while i < |ls|
      invariant 1 <= i <= |ls|
      invariant out == Render(rows[..i])
    {
      out := out + ContinuationNoteRow(len, ls[i]) + "\n";
      RenderSnoc(rows[..i], rows[i]);
      PrefixSnoc(rows, i);
      i := i + 1;
    }
    PrefixAll(rows);
  }

  /** A source location: the anchor (`line_number`, `position`), an optional file name,
      the annotated lines and the notes drawn after them. */
  datatype Source = Source(filename: Option<string>, lineNumber: nat, position: nat,
                           lines: seq<SourceLine>, notes: seq<Note>)

  /** `Source::new`: an anonymous location without lines or notes. */
  function NewSource(lineNumber: nat, position: nat): (s: Source)
    ensures s.filename == None && s.lineNumber == lineNumber && s.position == position
    ensures s.lines == [] && s.notes == []
  {
    Source(None, lineNumber, position, [], [])
  }

  /** `Source::set_filename`, on a source owned by the caller. */
  function SetFilename(s: Source, filename: string): (r: Source)
    ensures r.filename == Some(filename)
    ensures r.lineNumber == s.lineNumber && r.position == s.position && r.lines == s.lines && r.notes == s.notes
  {
    s.(filename := Some(filename))
  }

  /** `Source::add_line`, on a source owned by the caller. */
  function AddLine(s: Source, line: SourceLine): (r: Source)
    ensures r.lines == s.lines + [line]
    ensures r.filename == s.filename && r.lineNumber == s.lineNumber && r.position == s.position
    ensures r.notes == s.notes
  {
    s.(lines := s.lines + [line])
  }

  /** The largest line number. */
  function MaxLine(lines: seq<SourceLine>): (m: nat)
    requires lines != []
    ensures forall i :: 0 <= i < |lines| ==> lines[i].line <= m
    ensures exists i :: 0 <= i < |lines| && lines[i].line == m
  {
    var n := |lines|;
    if n == 1 then lines[0].line
    else
      var rest := MaxLine(lines[..n - 1]);
      assert forall i :: 0 <= i < n - 1 ==> lines[..n - 1][i] == lines[i];
      if lines[n - 1].line >= rest then lines[n - 1].line else rest
  }

  /** The margin width of a source: the formatter's width if it has one, otherwise the
      digit count of the largest line number, or of the anchor line without lines. */
  function SourceWidth(s: Source, width: Option<nat>): nat {
    match width
    case Some(w) => w
    case None => Digits(if s.lines == [] then s.lineNumber else MaxLine(s.lines))
  }

  /** Without a given width every line number fits the margin, and the margin is exactly
      as wide as one of them (or as the anchor when there are no lines). */
  lemma {:induction false} SourceWidthFits(s: Source)
    ensures forall i :: 0 <= i < |s.lines| ==> Digits(s.lines[i].line) <= SourceWidth(s, None)
    ensures s.lines == [] ==> SourceWidth(s, None) == Digits(s.lineNumber)
    ensures s.lines != [] ==> exists i :: 0 <= i < |s.lines| && SourceWidth(s, None) == Digits(s.lines[i].line)
  {
    if s.lines != [] {
      var m := MaxLine(s.lines);
      forall i | 0 <= i < |s.lines|
        ensures Digits(s.lines[i].line) <= SourceWidth(s, None)
      {
        DigitsMonotone(s.lines[i].line, m);
      }
    }
  }

  /** `filename.display()`, or the placeholder for an anonymous source. */
  function FileName(s: Source): string {
    s.filename.GetOr("<anonymous>")
  }

  /** `{: >w$}--> file:line:position`. */
  function HeaderRow(s: Source, w: nat): string {
    Spaces(w) + Arrow() + " " + FileName(s) + ":" + NatToString(s.lineNumber) + ":" + NatToString(s.position)
  }

  /** The rows of the lines, in order, each drawn with margin width `w`. */
  function AllLineRows(lines: seq<SourceLine>, w: nat): seq<string> {
    if lines == [] then [] else AllLineRows(lines[..|lines| - 1], w) + LineRows(lines[|lines| - 1], Some(w))
  }

  /** The rows of the notes, in order, each drawn with margin width `w`. */
  function AllNoteRows(notes: seq<Note>, w: nat): seq<string> {
    if notes == [] then [] else AllNoteRows(notes[..|notes| - 1], w) + NoteRows(notes[|notes| - 1], Some(w))
  }

  /** A source closes its lines with an empty margin row unless its last line has
      annotations, whose call-outs end the block already. */
  predicate ClosesWithMargin(s: Source) {
    s.lines == [] || |s.lines[|s.lines| - 1].annotations| == 0
  }

  /** The margin rows after the lines: the closing one, then one before the notes. */
  function TrailingMargins(s: Source, w: nat): seq<string> {
    (if ClosesWithMargin(s) then [Gutter(w)] else []) + (if |s.notes| > 0 then [Gutter(w)] else [])
  }

  /** Everything between the header and the notes: an empty margin row, the lines, and the
      trailing margin rows. */
  function MarginRows(s: Source, w: nat): seq<string> {
    [Gutter(w)] + AllLineRows(s.lines, w) + TrailingMargins(s, w)
  }

  /** The rows `Display for Source` writes. */
  function SourceRows(s: Source, width: Option<nat>): seq<string> {
    var w := SourceWidth(s, width);
    [HeaderRow(s, w)] + MarginRows(s, w) + AllNoteRows(s.notes, w)
  }

  // ---------------------------------------------------------------------------
  // Layout of a source block

  /** Every row carries the margin bar: a blank at column `w` and '|' at `w + 1`. */
  predicate Margined(rows: seq<string>, w: nat) {
    forall k :: 0 <= k < |rows| ==> BarAt(rows[k], w)
  }

  lemma MarginedAppend(a: seq<string>, b: seq<string>, w: nat)
    requires Margined(a, w) && Margined(b, w)
    ensures Margined(a + b, w)
  {
    forall k | 0 <= k < |a + b|
      ensures BarAt((a + b)[k], w)
    {
      if k < |a| {
        assert (a + b)[k] == a[k];
      } else {
        assert (a + b)[k] == b[k - |a|];
      }
    }
  }

  lemma {:induction false} AllLineRowsMargined(lines: seq<SourceLine>, w: nat)
    requires forall i :: 0 <= i < |lines| ==> Digits(lines[i].line) <= w
    ensures Margined(AllLineRows(lines, w), w)
    decreases |lines|
  {
    if lines != [] {
      var n := |lines|;
      assert forall i :: 0 <= i < n - 1 ==> lines[..n - 1][i] == lines[i];
      AllLineRowsMargined(lines[..n - 1], w);
      LineRowsMargined(lines[n - 1], w);
      MarginedAppend(AllLineRows(lines[..n - 1], w), LineRows(lines[n - 1], Some(w)), w);
    }
  }

  lemma LineRowsMargined(line: SourceLine, w: nat)
    requires Digits(line.line) <= w
    ensures Margined(LineRows(line, Some(w)), w)
  {
    forall k | 0 <= k < |LineRows(line, Some(w))|
      ensures BarAt(LineRows(line, Some(w))[k], w)
    {
      LineRowsBar(line, w, k);
    }
  }

  /** In a source whose line numbers fit the margin, every row from the one under the
      header to the one before the first note carries the margin bar in the same column. */
  lemma {:induction false} SourceMarginAligned(s: Source, width: Option<nat>)
    requires forall i :: 0 <= i < |s.lines| ==> Digits(s.lines[i].line) <= SourceWidth(s, width)
    ensures var w := SourceWidth(s, width);
            Margined(MarginRows(s, w), w) &&
            SourceRows(s, width) == [HeaderRow(s, w)] + MarginRows(s, w) + AllNoteRows(s.notes, w)
  {
    var w := SourceWidth(s, width);
    GutterBar(w);
    AllLineRowsMargined(s.lines, w);
    MarginedAppend([Gutter(w)], AllLineRows(s.lines, w), w);
    MarginedAppend([Gutter(w)] + AllLineRows(s.lines, w), TrailingMargins(s, w), w);
  }

  /** Without a width, the margin comes from the lines themselves and always fits. */
  lemma SourceMarginAlignedByDefault(s: Source)
    ensures var w := SourceWidth(s, None);
            Margined(MarginRows(s, w), w)
  {
    SourceWidthFits(s);
    SourceMarginAligned(s, None);
  }

  /** The trailing margin rows: one closing row if the last line has no annotations (or
      there are no lines), and one more exactly when notes follow. */
  lemma TrailingMarginCount(s: Source, w: nat)
    ensures |TrailingMargins(s, w)| == (if ClosesWithMargin(s) then 1 else 0) + (if |s.notes| > 0 then 1 else 0)
    ensures forall k :: 0 <= k < |TrailingMargins(s, w)| ==> TrailingMargins(s, w)[k] == Gutter(w)
  {
  }

  /** The block written by a source: header, empty margin, the lines, the trailing margins
      and the notes, and nothing else. */
  lemma {:induction false} SourceRowCount(s: Source, width: Option<nat>)
    ensures var w := SourceWidth(s, width);
            |SourceRows(s, width)| ==
              2 + |AllLineRows(s.lines, w)| + |TrailingMargins(s, w)| + |AllNoteRows(s.notes, w)|
    ensures var w := SourceWidth(s, width);
            SourceRows(s, width)[0] == HeaderRow(s, w) && SourceRows(s, width)[1] == Gutter(w)
  {
  }

  /** Without notes, the block ends with an empty margin row when the last line has no
      annotations, and with the last call-out row of that line otherwise. */
  lemma {:induction false} SourceLastRow(s: Source, width: Option<nat>)
    requires s.notes == []
    ensures var w := SourceWidth(s, width);
            var rows := SourceRows(s, width);
            if ClosesWithMargin(s) then rows[|rows| - 1] == Gutter(w)
            else var last := LineRows(s.lines[|s.lines| - 1], Some(w));
                 rows[|rows| - 1] == last[|last| - 1]
  {
    var w := SourceWidth(s, width);
    var rows := SourceRows(s, width);
    var margins := MarginRows(s, w);
    var lineRows := AllLineRows(s.lines, w);
    assert rows == [HeaderRow(s, w)] + margins + AllNoteRows(s.notes, w);
    AppendEmpty([HeaderRow(s, w)] + margins, AllNoteRows(s.notes, w));
    LastOfAppend([HeaderRow(s, w)], margins);
    assert rows[|rows| - 1] == margins[|margins| - 1];
    if ClosesWithMargin(s) {
      assert TrailingMargins(s, w) == [Gutter(w)] + [];
      LastOfAppend([Gutter(w)] + lineRows, TrailingMargins(s, w));
    } else {
      var last := LineRows(s.lines[|s.lines| - 1], Some(w));
      assert TrailingMargins(s, w) == [] + [];
      AppendEmpty([Gutter(w)] + lineRows, TrailingMargins(s, w));
      assert margins == [Gutter(w)] + lineRows;
      LastLineRow(s, w);
      assert |last| > 0 && lineRows[|lineRows| - 1] == last[|last| - 1];
      LastOfAppend([Gutter(w)], lineRows);
      assert margins[|margins| - 1] == last[|last| - 1];
    }
  }

  /** The rows of the lines end with the last line's last row. */
  lemma LastLineRow(s: Source, w: nat)
    requires |s.lines| > 0
    ensures var last := LineRows(s.lines[|s.lines| - 1], Some(w));
            var rows := AllLineRows(s.lines, w);
            |last| > 0 && rows[|rows| - 1] == last[|last| - 1]
  {
    var n := |s.lines|;
    LineRowCount(s.lines[n - 1], Some(w));
    LastOfAppend(AllLineRows(s.lines[..n - 1], w), LineRows(s.lines[n - 1], Some(w)));
  }

  /** The rows of the first `i` lines and then the `i`-th. */
  lemma AllLineRowsSnoc(lines: seq<SourceLine>, w: nat, i: nat)
    requires i < |lines|
    ensures AllLineRows(lines[..i + 1], w) == AllLineRows(lines[..i], w) + LineRows(lines[i], Some(w))
  {
    assert lines[..i + 1][..i] == lines[..i];
  }

  lemma AllNoteRowsSnoc(notes: seq<Note>, w: nat, i: nat)
    requires i < |notes|
    ensures AllNoteRows(notes[..i + 1], w) == AllNoteRows(notes[..i], w) + NoteRows(notes[i], Some(w))
  {
    assert notes[..i + 1][..i] == notes[..i];
  }

  /** The lines of a source, each drawn with margin width `w`. */
  method RenderLines(lines: seq<SourceLine>, w: nat) returns (out: string)
    ensures out == Render(AllLineRows(lines, w))
  {
    out := "";
    var i := 0;
    while i < |lines|
      invariant i <= |lines|
      invariant out == Render(AllLineRows(lines[..i], w))
    {
      var text := RenderLine(lines[i], Some(w));
      AllLineRowsSnoc(lines, w, i);
      RenderAppend(AllLineRows(lines[..i], w), LineRows(lines[i], Some(w)));
      out := out + text;
      i := i + 1;
    }
    PrefixAll(lines);
  }

  /** The notes of a source, each drawn with margin width `w`. */
  method RenderNotes(notes: seq<Note>, w: nat) returns (out: string)
    ensures out == Render(AllNoteRows(notes, w))
  {
    out := "";
    var i := 0;
    while i < |notes|
      invariant i <= |notes|
      invariant out == Render(AllNoteRows(notes[..i], w))
    {
      var text := RenderNote(notes[i], Some(w));
      AllNoteRowsSnoc(notes, w, i);
      RenderAppend(AllNoteRows(notes[..i], w), NoteRows(notes[i], Some(w)));
      out := out + text;
      i := i + 1;
    }
    PrefixAll(notes);
  }

  /** The text of the whole block from the texts of its parts. */
  lemma {:induction false} BlockRendered(header: string, gutter: string, lines: seq<string>, trailing: seq<string>,
                                         notes: seq<string>)
    ensures Render([header] + ([gutter] + lines + trailing) + notes)
            == header + "\n" + gutter + "\n" + Render(lines) + Render(trailing) + Render(notes)
  {
    var margin := [gutter] + lines + trailing;
    RenderAppend([header] + margin, notes);
    RenderAppend([header], margin);
    RenderAppend([gutter] + lines, trailing);
    RenderAppend([gutter], lines);
    RenderOne(header);
    RenderOne(gutter);
  }

  /** `Display for Source`: header and margin, each line, the trailing margins, each note. */
  method RenderSource(s: Source, width: Option<nat>) returns (out: string)
    ensures out == Render(SourceRows(s, width))
  {
    var w := SourceWidth(s, width);
    var header := HeaderRow(s, w);
    var gutter := Gutter(w);
    out := header + "\n" + gutter + "\n";
    var lines := RenderLines(s.lines, w);
    out := out + lines;
    var trailing := TrailingMargins(s, w);
    out := out + Render(trailing);
    var notes := RenderNotes(s.notes, w);
    out := out + notes;
    BlockRendered(header, gutter, AllLineRows(s.lines, w), trailing, AllNoteRows(s.notes, w));
  }
}
