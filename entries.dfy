/**
 * Log entries (`Entry`), groups of entries drawn against one margin (`MultiEntry`),
 * and one-line progress messages (`Task`).
 */
module Entries {
  import opened Text
  import opened Wrappers
  import opened Kinds
  import opened Internals
  import Console
  import opened Lines
  import Sources

  /** A message of some kind, optionally located in a source. `bright` is set once a source
      is attached; it only changes the colour of the text. */
  datatype Entry = Entry(kind: EntryKind, bright: bool, text: string, source: Option<Sources.Source>)

  /** `Entry::new`. */
  function NewEntry(kind: EntryKind, text: string): (e: Entry)
    ensures e.kind == kind && e.text == text
    ensures !e.bright && e.source == None
  {
    Entry(kind, false, text, None)
  }

  /** `Entry::new_error`. */
  function NewError(text: string): (e: Entry)
    ensures e.kind == Error && e.text == text && !e.bright && e.source == None
  {
    NewEntry(Error, text)
  }

  /** `Entry::new_warning`. */
  function NewWarning(text: string): (e: Entry)
    ensures e.kind == Warning && e.text == text && !e.bright && e.source == None
  {
    NewEntry(Warning, text)
  }

  /** `Entry::new_note`. */
  function NewNote(text: string): (e: Entry)
    ensures e.kind == Note && e.text == text && !e.bright && e.source == None
  {
    NewEntry(Note, text)
  }

  /** `Entry::new_help`. */
  function NewHelp(text: string): (e: Entry)
    ensures e.kind == Help && e.text == text && !e.bright && e.source == None
  {
    NewEntry(Help, text)
  }

  /** The text of an entry, made bright white once a source is attached. */
  function StyledText(e: Entry): Console.StyledObject {
    if e.bright then Console.Bright(Console.White(Console.Style(e.text))) else Console.Style(e.text)
  }

  /** The first row: kind, colon, blank, text. */
  function TitleRow(e: Entry): string {
    Label(e.kind) + Colon() + " " + Console.Display(StyledText(e), Plain)
  }

  /** The bright flag changes nothing in the written text. */
  lemma TitleRowText(e: Entry)
    ensures TitleRow(e) == Label(e.kind) + ": " + e.text
    ensures TitleRow(e.(bright := !e.bright)) == TitleRow(e)
  {
    assert Label(e.kind) + Colon() + " " + e.text == Label(e.kind) + ": " + e.text;
  }

  /** The rows of the source, if there is one. */
  function SourceBlock(e: Entry, width: Option<nat>): seq<string> {
    if e.source.Some? then Sources.SourceRows(e.source.value, width) else []
  }

  /** The rows `Display for Entry` writes: the title row, the source block with the same
      formatter width, and a blank row after a source when no width was given. */
  function EntryRows(e: Entry, width: Option<nat>): seq<string> {
    [TitleRow(e)] + SourceBlock(e, width) + (if width.None? && e.source.Some? then [""] else [])
  }

  /** A source given its own default width explicitly is drawn as without a width. */
  lemma {:induction false} SourceRowsDefaultWidth(s: Sources.Source)
    ensures Sources.SourceRows(s, None) == Sources.SourceRows(s, Some(Sources.SourceWidth(s, None)))
  {
  }

  /** An entry drawn without a width is the same entry drawn with its source's own width,
      followed by one blank row; an entry without a source is one row in every case. */
  lemma {:induction false} EntryTrailingBlank(e: Entry, width: nat)
    ensures e.source.Some? ==>
              EntryRows(e, None) == EntryRows(e, Some(Sources.SourceWidth(e.source.value, None))) + [""]
    ensures e.source.None? ==> EntryRows(e, None) == EntryRows(e, Some(width)) == [TitleRow(e)]
  {
    if e.source.Some? {
      SourceRowsDefaultWidth(e.source.value);
    }
  }

  /** `Display for Entry`. */
  method RenderEntry(e: Entry, width: Option<nat>) returns (out: string)
    ensures out == Render(EntryRows(e, width))
  {
    var title := TitleRow(e);
    out := title + "\n";
    var block := "";
    if e.source.Some? {
      block := Sources.RenderSource(e.source.value, width);
    }
    out := out + block;
    var blank: seq<string> := if width.None? && e.source.Some? then [""] else [];
    out := out + Render(blank);
    EntryRendered(title, SourceBlock(e, width), blank);
  }

  lemma {:induction false} EntryRendered(title: string, block: seq<string>, blank: seq<string>)
    ensures Render([title] + block + blank) == title + "\n" + Render(block) + Render(blank)
  {
    RenderAppend([title] + block, blank);
    RenderAppend([title], block);
    RenderOne(title);
  }

  // ---------------------------------------------------------------------------
  // Groups

  /** The anchor line of an entry's source, or 1 without a source. */
  function AnchorLine(e: Entry): nat {
    if e.source.Some? then e.source.value.lineNumber else 1
  }

  /** The largest anchor line, or 1 for an empty group. */
  function MaxAnchor(entries: seq<Entry>): (m: nat)
    ensures forall i :: 0 <= i < |entries| ==> AnchorLine(entries[i]) <= m
    ensures entries == [] ==> m == 1
    ensures entries != [] ==> exists i :: 0 <= i < |entries| && AnchorLine(entries[i]) == m
  {
    var n := |entries|;
    if n == 0 then 1
    else if n == 1 then AnchorLine(entries[0])
    else
      var rest := MaxAnchor(entries[..n - 1]);
      assert forall i :: 0 <= i < n - 1 ==> entries[..n - 1][i] == entries[i];
      if AnchorLine(entries[n - 1]) >= rest then AnchorLine(entries[n - 1]) else rest
  }

  /** The one margin width of a group: the digit count of the largest anchor line. */
  function GroupWidth(entries: seq<Entry>): (w: nat)
    ensures forall i :: 0 <= i < |entries| ==> Digits(AnchorLine(entries[i])) <= w
    ensures entries == [] ==> w == 1
  {
    var m := MaxAnchor(entries);
    assert forall i :: 0 <= i < |entries| ==> Digits(AnchorLine(entries[i])) <= Digits(m) by {
      forall i | 0 <= i < |entries| {
        DigitsMonotone(AnchorLine(entries[i]), m);
      }
    }
    Digits(m)
  }

  /** The rows of the entries, in order, each drawn with width `w`. */
  function AllEntryRows(entries: seq<Entry>, w: nat): seq<string> {
    if entries == [] then [] else AllEntryRows(entries[..|entries| - 1], w) + EntryRows(entries[|entries| - 1], Some(w))
  }

  /** The rows `Display for MultiEntry` writes: every entry with the group's width, then
      one blank row. */
  function GroupRows(entries: seq<Entry>): seq<string> {
    AllEntryRows(entries, GroupWidth(entries)) + [""]
  }

  /** The kinds of the entries, in order. */
  function KindsOf(entries: seq<Entry>): (ks: seq<EntryKind>)
    ensures |ks| == |entries|
    ensures forall i :: 0 <= i < |entries| ==> ks[i] == entries[i].kind
  {
    seq(|entries|, i requires 0 <= i < |entries| => entries[i].kind)
  }

  /** The severity a group is logged with: the worst kind in it, `Help` for an empty group. */
  function GroupKind(entries: seq<Entry>): (k: EntryKind)
    ensures forall i :: 0 <= i < |entries| ==> AtMost(entries[i].kind, k)
    ensures entries == [] ==> k == Help
    ensures entries != [] ==> exists i :: 0 <= i < |entries| && entries[i].kind == k
  {
    var ks := KindsOf(entries);
    var k := Worst(ks);
    assert entries != [] ==> exists i :: 0 <= i < |ks| && ks[i] == k;
    k
  }

  // ---------------------------------------------------------------------------
  // No blank rows inside a group

  predicate NonBlank(rows: seq<string>) {
    forall k :: 0 <= k < |rows| ==> |rows[k]| > 0
  }

  lemma NonBlankAppend(a: seq<string>, b: seq<string>)
    requires NonBlank(a) && NonBlank(b)
    ensures NonBlank(a + b)
  {
    forall k | 0 <= k < |a + b|
      ensures |(a + b)[k]| > 0
    {
      if k < |a| {
        assert (a + b)[k] == a[k];
      } else {
        assert (a + b)[k] == b[k - |a|];
      }
    }
  }

  lemma {:induction false} LineRowsNonBlank(line: SourceLine, w: nat)
    ensures NonBlank(LineRows(line, Some(w)))
  {
    forall k | 0 <= k < |LineRows(line, Some(w))|
      ensures |LineRows(line, Some(w))[k]| > 0
    {
      LineRowNonBlank(line, w, k);
    }
  }

  /** Row `k` of a line: the source row, the underline row or a call-out row, each with a
      margin. */
  lemma {:induction false} LineRowNonBlank(line: SourceLine, w: nat, k: nat)
    requires k < |LineRows(line, Some(w))|
    ensures |LineRows(line, Some(w))[k]| > 0
  {
    LineRowsFront(line, Some(w));
    if k == 0 {
      assert |SourceRow(line, w)| >= 3;
    } else if k == 1 {
      LineRowCount(line, Some(w));
      UnderlineRowBar(line.annotations, w);
    } else {
      LineRowCount(line, Some(w));
      LineRowsBack(line, w, k);
      CallOutBar(line.annotations, |line.annotations| - 1, w, k - 2);
    }
  }

  lemma {:induction false} AllLineRowsNonBlank(lines: seq<SourceLine>, w: nat)
    ensures NonBlank(Sources.AllLineRows(lines, w))
    decreases |lines|
  {
    if lines != [] {
      var n := |lines|;
      AllLineRowsNonBlank(lines[..n - 1], w);
      LineRowsNonBlank(lines[n - 1], w);
      NonBlankAppend(Sources.AllLineRows(lines[..n - 1], w), LineRows(lines[n - 1], Some(w)));
    }
  }

  lemma {:induction false} AllNoteRowsNonBlank(notes: seq<Sources.Note>, w: nat)
    ensures NonBlank(Sources.AllNoteRows(notes, w))
    decreases |notes|
  {
    if notes != [] {
      var n := |notes|;
      var last := notes[n - 1];
      AllNoteRowsNonBlank(notes[..n - 1], w);
      forall k | 0 <= k < |Sources.NoteRows(last, Some(w))|
        ensures |Sources.NoteRows(last, Some(w))[k]| > 0
      {
        Sources.NoteTextAligned(last, Some(w), k);
      }
      NonBlankAppend(Sources.AllNoteRows(notes[..n - 1], w), Sources.NoteRows(last, Some(w)));
    }
  }

  /** No row of a source block is blank. */
  lemma {:induction false} SourceRowsNonBlank(s: Sources.Source, width: Option<nat>)
    ensures NonBlank(Sources.SourceRows(s, width))
  {
    var w := Sources.SourceWidth(s, width);
    var header := Sources.HeaderRow(s, w);
    assert |header| >= 3;
    GutterBar(w);
    AllLineRowsNonBlank(s.lines, w);
    AllNoteRowsNonBlank(s.notes, w);
    Sources.TrailingMarginCount(s, w);
    NonBlankAppend([Gutter(w)], Sources.AllLineRows(s.lines, w));
    NonBlankAppend([Gutter(w)] + Sources.AllLineRows(s.lines, w), Sources.TrailingMargins(s, w));
    NonBlankAppend([header], Sources.MarginRows(s, w));
    NonBlankAppend([header] + Sources.MarginRows(s, w), Sources.AllNoteRows(s.notes, w));
  }

  /** An entry drawn with a width has no blank row. */
  lemma {:induction false} EntryRowsNonBlank(e: Entry, w: nat)
    ensures NonBlank(EntryRows(e, Some(w)))
  {
    assert |TitleRow(e)| >= 4;
    if e.source.Some? {
      SourceRowsNonBlank(e.source.value, Some(w));
    }
    NonBlankAppend([TitleRow(e)], SourceBlock(e, Some(w)));
    assert EntryRows(e, Some(w)) == [TitleRow(e)] + SourceBlock(e, Some(w)) + [];
  }

  lemma {:induction false} AllEntryRowsNonBlank(entries: seq<Entry>, w: nat)
    ensures NonBlank(AllEntryRows(entries, w))
    decreases |entries|
  {
    if entries != [] {
      var n := |entries|;
      AllEntryRowsNonBlank(entries[..n - 1], w);
      EntryRowsNonBlank(entries[n - 1], w);
      NonBlankAppend(AllEntryRows(entries[..n - 1], w), EntryRows(entries[n - 1], Some(w)));
    }
  }

  /** A group has exactly one blank row, its last: no entry leaves a gap behind it. A row
      is one written piece ended by a line feed, so a text holding a line feed of its own
      still makes a row that is not blank. */
  lemma {:induction false} GroupEndsWithOneBlank(entries: seq<Entry>)
    ensures var rows := GroupRows(entries);
            |rows| > 0 && rows[|rows| - 1] == "" &&
            forall k :: 0 <= k < |rows| - 1 ==> |rows[k]| > 0
  {
    var body := AllEntryRows(entries, GroupWidth(entries));
    AllEntryRowsNonBlank(entries, GroupWidth(entries));
    assert forall k :: 0 <= k < |body| ==> (body + [""])[k] == body[k];
  }

  lemma AllEntryRowsSnoc(entries: seq<Entry>, w: nat, i: nat)
    requires i < |entries|
    ensures AllEntryRows(entries[..i + 1], w) == AllEntryRows(entries[..i], w) + EntryRows(entries[i], Some(w))
  {
    assert entries[..i + 1][..i] == entries[..i];
  }

  /** The rows of the first `n` entries begin the rows of all of them. */
  lemma {:induction false} AllEntryRowsPrefix(entries: seq<Entry>, w: nat, n: nat)
    requires n <= |entries|
    ensures AllEntryRows(entries[..n], w) <= AllEntryRows(entries, w)
    decreases |entries|
  {
    if n < |entries| {
      var front := entries[..|entries| - 1];
      assert front[..n] == entries[..n];
      AllEntryRowsPrefix(front, w, n);
    } else {
      assert entries[..n] == entries;
    }
  }

  /** The entry rows of an entry with a source, at width `w`: its title row, the header,
      the margin rows and the note rows. */
  lemma {:induction false} EntryRowsWithSource(e: Entry, w: nat)
    requires e.source.Some?
    ensures EntryRows(e, Some(w)) ==
            [TitleRow(e), Sources.HeaderRow(e.source.value, w)] + Sources.MarginRows(e.source.value, w) +
            Sources.AllNoteRows(e.source.value.notes, w)
  {
    var s := e.source.value;
    var block := SourceBlock(e, Some(w));
    assert block == [Sources.HeaderRow(s, w)] + Sources.MarginRows(s, w) + Sources.AllNoteRows(s.notes, w) by {
      assert Sources.SourceWidth(s, Some(w)) == w;
    }
    assert EntryRows(e, Some(w)) == [TitleRow(e)] + block by {
      AppendEmpty([TitleRow(e)] + block, if Some(w).None? && e.source.Some? then [""] else []);
    }
    ConsPair(TitleRow(e), Sources.HeaderRow(s, w), Sources.MarginRows(s, w), Sources.AllNoteRows(s.notes, w));
  }

  /** Entry `i`'s rows at width `w` follow the rows of the entries before it among the rows
      of all entries at that width; they are its title row, its header, its margin rows and
      its note rows; and when its line numbers fit `w`, every margin row has its bar at
      column `w + 1`. */
  lemma {:induction false} EntryMarginAligned(entries: seq<Entry>, w: nat, i: nat)
    requires i < |entries| && entries[i].source.Some?
    requires forall j :: 0 <= j < |entries[i].source.value.lines| ==> Digits(entries[i].source.value.lines[j].line) <= w
    ensures var e := entries[i];
            var s := e.source.value;
            AllEntryRows(entries[..i], w) + EntryRows(e, Some(w)) <= AllEntryRows(entries, w) &&
            EntryRows(e, Some(w)) ==
              [TitleRow(e), Sources.HeaderRow(s, w)] + Sources.MarginRows(s, w) + Sources.AllNoteRows(s.notes, w) &&
            Sources.Margined(Sources.MarginRows(s, w), w)
  {
    var s := entries[i].source.value;
    assert Sources.SourceWidth(s, Some(w)) == w;
    Sources.SourceMarginAligned(s, Some(w));
    EntryRowsWithSource(entries[i], w);
    AllEntryRowsSnoc(entries, w, i);
    AllEntryRowsPrefix(entries, w, i + 1);
  }

  /** The group's width keeps code lines aligned where it can: for every entry whose line
      numbers fit `GroupWidth`, the margin rows sit in the group's rows with their bars in the
      one column `w + 1` shared by the group. */
  lemma {:induction false} GroupMarginAligned(entries: seq<Entry>, i: nat)
    requires i < |entries| && entries[i].source.Some?
    requires forall j :: 0 <= j < |entries[i].source.value.lines| ==>
               Digits(entries[i].source.value.lines[j].line) <= GroupWidth(entries)
    ensures var w := GroupWidth(entries);
            var e := entries[i];
            var s := e.source.value;
            AllEntryRows(entries[..i], w) + EntryRows(e, Some(w)) <= AllEntryRows(entries, w) &&
            EntryRows(e, Some(w)) ==
              [TitleRow(e), Sources.HeaderRow(s, w)] + Sources.MarginRows(s, w) + Sources.AllNoteRows(s.notes, w) &&
            Sources.Margined(Sources.MarginRows(s, w), w)
  {
    EntryMarginAligned(entries, GroupWidth(entries), i);
  }

  /** The source of the example below: anchored at line 9, showing lines 9 and 10. */
  function NineTenSource(): Sources.Source {
    Sources.Source(None, 9, 1, [NewSourceLine(9, "a"), NewSourceLine(10, "b")], [])
  }

  /** At width 1 the row of line 10 is the margin's third row, with a digit in column 1. */
  lemma {:induction false} NineTenMisaligned()
    ensures !Sources.Margined(Sources.MarginRows(NineTenSource(), 1), 1)
  {
    var s := NineTenSource();
    var l9 := NewSourceLine(9, "a");
    var l10 := NewSourceLine(10, "b");
    var lines := s.lines;
    var row := SourceRow(l10, 1);
    assert row[1] == '0' by {
      assert NatToString(10) == "10";
      assert Pad("10", ' ', Left, 1) == "10";
    }
    assert Sources.AllLineRows(lines, 1) == [SourceRow(l9, 1), row] by {
      assert LineRows(l9, Some(1)) == [SourceRow(l9, 1)];
      assert LineRows(l10, Some(1)) == [row];
      assert lines[..1] == [l9];
      assert lines[..1][..0] == [];
      assert Sources.AllLineRows([l9], 1) == [SourceRow(l9, 1)];
    }
    assert Sources.MarginRows(s, 1)[2] == row by {
      IndexInFront([Gutter(1)] + Sources.AllLineRows(lines, 1), Sources.TrailingMargins(s, 1), 2);
    }
    assert !BarAt(Sources.MarginRows(s, 1)[2], 1);
  }

  /** As written, the group's width comes from the anchor lines alone: an entry anchored at
      line 9 that also shows line 10 gets a one-column margin, and the row of line 10 puts a
      digit where the margin's blank belongs, so its bar is one column to the right. The
      intended width is 2, and aligns it. */
  lemma {:induction false} GroupMisaligned()
    ensures var s := NineTenSource();
            var entries := [Entry(Warning, true, "x", Some(s))];
            GroupWidth(entries) == 1 && !Sources.Margined(Sources.MarginRows(s, 1), 1) &&
            AlignedGroupWidth(entries) == 2 && Sources.Margined(Sources.MarginRows(s, 2), 2)
  {
    var s := NineTenSource();
    var entries := [Entry(Warning, true, "x", Some(s))];
    assert NatToString(9) == "9";
    assert NatToString(10) == "10";
    assert GroupWidth(entries) == 1 by {
      assert MaxAnchor(entries) == 9;
    }
    NineTenMisaligned();
    assert AlignedGroupWidth(entries) == 2 by {
      Sources.SourceWidthFits(s);
      assert Digits(s.lines[1].line) == 2;
      assert Digits(s.lines[0].line) == 1;
    }
    AlignedGroupMarginAligned(entries, 0);
  }

  /** The widest margin an entry's source takes when written on its own, 1 for none. */
  function MaxSourceWidth(entries: seq<Entry>): (m: nat)
    ensures forall i :: 0 <= i < |entries| && entries[i].source.Some? ==>
              Sources.SourceWidth(entries[i].source.value, None) <= m
    ensures m == 1 || (exists i :: 0 <= i < |entries| && entries[i].source.Some? &&
                        Sources.SourceWidth(entries[i].source.value, None) == m)
  {
    if entries == [] then 1
    else
      var front := entries[..|entries| - 1];
      var last := entries[|entries| - 1];
      var rest := MaxSourceWidth(front);
      assert forall i :: 0 <= i < |front| ==> front[i] == entries[i];
      if last.source.Some? && Sources.SourceWidth(last.source.value, None) > rest then
        Sources.SourceWidth(last.source.value, None)
      else rest
  }

  /** The intended width of a group: wide enough for every anchor and for every line
      number of every entry, and no wider than the widest of those. */
  function AlignedGroupWidth(entries: seq<Entry>): (w: nat)
    ensures w >= GroupWidth(entries)
    ensures forall i, j :: 0 <= i < |entries| && entries[i].source.Some? && 0 <= j < |entries[i].source.value.lines| ==>
              Digits(entries[i].source.value.lines[j].line) <= w
    ensures w == GroupWidth(entries) || (exists i :: 0 <= i < |entries| && entries[i].source.Some? &&
                                          Sources.SourceWidth(entries[i].source.value, None) == w)
  {
    var g := GroupWidth(entries);
    var m := MaxSourceWidth(entries);
    forall i, j | 0 <= i < |entries| && entries[i].source.Some? && 0 <= j < |entries[i].source.value.lines|
      ensures Digits(entries[i].source.value.lines[j].line) <= m
    {
      Sources.SourceWidthFits(entries[i].source.value);
    }
    if m > g then m else g
  }

  /** The intended width changes nothing exactly when every line number of every entry
      already fits the width the code takes from the anchors. */
  lemma {:induction false} AlignedWidthAgrees(entries: seq<Entry>)
    ensures AlignedGroupWidth(entries) == GroupWidth(entries) <==>
            forall i, j :: 0 <= i < |entries| && entries[i].source.Some? && 0 <= j < |entries[i].source.value.lines| ==>
              Digits(entries[i].source.value.lines[j].line) <= GroupWidth(entries)
  {
    var g := GroupWidth(entries);
    if forall i, j :: 0 <= i < |entries| && entries[i].source.Some? && 0 <= j < |entries[i].source.value.lines| ==>
         Digits(entries[i].source.value.lines[j].line) <= g {
      forall i | 0 <= i < |entries| && entries[i].source.Some?
        ensures Sources.SourceWidth(entries[i].source.value, None) <= g
      {
        Sources.SourceWidthFits(entries[i].source.value);
      }
    }
  }

  /** With the intended width every code line of a group starts at the same position: every
      entry's margin rows sit in the group's rows with their bars in one shared column. */
  lemma {:induction false} AlignedGroupMarginAligned(entries: seq<Entry>, i: nat)
    requires i < |entries| && entries[i].source.Some?
    ensures var w := AlignedGroupWidth(entries);
            var e := entries[i];
            var s := e.source.value;
            AllEntryRows(entries[..i], w) + EntryRows(e, Some(w)) <= AllEntryRows(entries, w) &&
            EntryRows(e, Some(w)) ==
              [TitleRow(e), Sources.HeaderRow(s, w)] + Sources.MarginRows(s, w) + Sources.AllNoteRows(s.notes, w) &&
            Sources.Margined(Sources.MarginRows(s, w), w)
  {
    EntryMarginAligned(entries, AlignedGroupWidth(entries), i);
  }

  /** `Display for MultiEntry`: each entry with the group width, then one line feed. */
  method RenderGroup(entries: seq<Entry>) returns (out: string)
    ensures out == Render(GroupRows(entries))
  {
    var w := GroupWidth(entries);
    out := "";
    var i := 0;
    while i < |entries|
      invariant i <= |entries|
      invariant out == Render(AllEntryRows(entries[..i], w))
    {
      var text := RenderEntry(entries[i], Some(w));
      AllEntryRowsSnoc(entries, w, i);
      RenderAppend(AllEntryRows(entries[..i], w), EntryRows(entries[i], Some(w)));
      out := out + text;
      i := i + 1;
    }
    PrefixAll(entries);
    RenderSnoc(AllEntryRows(entries, w), "");
    out := out + "\n";
  }

  /** `MultiEntry`: entries collected in order, drawn together. */
  class MultiEntry {
    var entries: seq<Entry>

    /** `MultiEntry::new`. */
    constructor ()
      ensures entries == []
    {
      entries := [];
    }

    /** `MultiEntry::entry`: append one entry. */
    method AddEntry(e: Entry)
      modifies this
      ensures entries == old(entries) + [e]
    {
      entries := entries + [e];
    }

    /** The text `Display for MultiEntry` writes. */
    method Display() returns (out: string)
      ensures out == Render(GroupRows(entries))
    {
      out := RenderGroup(entries);
    }
  }

  // ---------------------------------------------------------------------------
  // Tasks

  /** `Task`: a progress word and a description. */
  datatype Task = Task(task: string, description: string)

  /** The column the progress word is right-aligned to: the formatter's width, or 12. */
  function TaskWidth(width: Option<nat>): nat {
    width.GetOr(12)
  }

  /** The row `Display for Task` writes. */
  function TaskRow(t: Task, width: Option<nat>): string {
    Console.Display(Console.Bright(Console.Green(Console.Style(t.task))), Spec(' ', Right, Some(TaskWidth(width))))
    + " " + t.description
  }

  /** The progress word ends in column `max(width, |task|)`, with blanks before it, and the
      description follows after one blank. */
  lemma {:induction false} TaskAligned(t: Task, width: Option<nat>)
    ensures var m := if |t.task| < TaskWidth(width) then TaskWidth(width) else |t.task|;
            var row := TaskRow(t, width);
            |row| == m + 1 + |t.description| &&
            row[..m - |t.task|] == Spaces(m - |t.task|) &&
            row[m - |t.task|..m] == t.task &&
            row[m..] == " " + t.description
  {
    var w := TaskWidth(width);
    var blanks := Spaces(Padding(t.task, w));
    var rest := " " + t.description;
    assert TaskRow(t, width) == blanks + t.task + rest;
    ThreeSlices(blanks, t.task, rest);
  }

}
