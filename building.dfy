/**
 * The entry builder (`EntrySourceBuilder`): an entry, the source being assembled for it,
 * and the one pending line that annotations go to. Starting a new line files the
 * pending one; finishing files it too and attaches the source to the entry.
 */
module Building {
  import opened Wrappers
  import Kinds
  import opened Lines
  import Sources
  import Errors
  import opened Entries

  /** The crate's `error::Error`, with the configurations of this layer. */
  type Error = Errors.Error<Entry, EntrySourceBuilder, MultiEntry>

  class EntrySourceBuilder {
    var entry: Entry
    var source: Sources.Source
    var sourceLine: Option<SourceLine>

    /** `Entry::source`: the entry, made bright, with an anonymous source anchored at
        `lineNumber`:`position` and no pending line. */
    constructor FromSource(e: Entry, lineNumber: nat, position: nat)
      ensures entry == e.(bright := true)
      ensures source == Sources.NewSource(lineNumber, position)
      ensures sourceLine == None
    {
      entry := e.(bright := true);
      source := Sources.NewSource(lineNumber, position);
      sourceLine := None;
    }

    /** `Entry::named_source`: as `FromSource`, with a file name. */
    constructor FromNamedSource(e: Entry, filename: string, lineNumber: nat, position: nat)
      ensures entry == e.(bright := true)
      ensures source == Sources.SetFilename(Sources.NewSource(lineNumber, position), filename)
      ensures sourceLine == None
    {
      entry := e.(bright := true);
      source := Sources.SetFilename(Sources.NewSource(lineNumber, position), filename);
      sourceLine := None;
    }

    /** The lines the finished source will hold: those already filed, then the pending one. */
    function PendingLines(): seq<SourceLine>
      reads this
    {
      source.lines + (if sourceLine.Some? then [sourceLine.value] else [])
    }

    /** What `annotate` leaves behind. Without a pending line: `AnnotationOnEmptyLine`.
        With one that the span overlaps: `OverlappingAnnotation`. Both errors carry this
        very builder, unchanged. Otherwise the span is added to the pending line and the
        builder is handed back. */
    twostate predicate Annotated(kind: Kinds.EntryKind, pos: nat, len: nat, text: string,
                                 new r: Result<EntrySourceBuilder, Error>)
      reads this
    {
      var reference := AnnotationReference(pos, len);
      if old(sourceLine).None? then
        r == Failure(Errors.Error(Errors.AnnotationOnEmptyLine, Errors.EntrySourceBuilder(this))) &&
        entry == old(entry) && source == old(source) && sourceLine == old(sourceLine)
      else if !Fits(old(sourceLine).value.annotations, reference) then
        r == Failure(Errors.Error(Errors.OverlappingAnnotation, Errors.EntrySourceBuilder(this))) &&
        entry == old(entry) && source == old(source) && sourceLine == old(sourceLine)
      else
        r == Success(this) &&
        entry == old(entry) && source == old(source) &&
        sourceLine == Some(AddAnnotation(old(sourceLine).value, Annotation(kind, reference, text)))
    }

    /** `EntrySourceBuilder::annotate`. */
    method Annotate(kind: Kinds.EntryKind, pos: nat, len: nat, text: string)
      returns (r: Result<EntrySourceBuilder, Error>)
      modifies this
      ensures Annotated(kind, pos, len, text, r)
    {
      if sourceLine.None? {
        return Failure(Errors.IntoErrorWithPartialConfiguration(Errors.AnnotationOnEmptyLine,
                                                                Errors.EntrySourceBuilder(this)));
      }
      var outcome := Lines.Annotate(sourceLine.value, kind, AnnotationReference(pos, len), text);
      match outcome
      case Failure(k) =>
        var err: Error := Errors.FromKind(k);
        return Failure(Errors.SetPartialConfiguration(err, Errors.EntrySourceBuilder(this)));
      case Success(line) =>
        sourceLine := Some(line);
        return Success(this);
    }

    /** `annotate_err`. */
    method AnnotateErr(pos: nat, len: nat, text: string) returns (r: Result<EntrySourceBuilder, Error>)
      modifies this
      ensures Annotated(Kinds.Error, pos, len, text, r)
    {
      r := Annotate(Kinds.Error, pos, len, text);
    }

    /** `annotate_warn`. */
    method AnnotateWarn(pos: nat, len: nat, text: string) returns (r: Result<EntrySourceBuilder, Error>)
      modifies this
      ensures Annotated(Kinds.Warning, pos, len, text, r)
    {
      r := Annotate(Kinds.Warning, pos, len, text);
    }

    /** `annotate_note`. */
    method AnnotateNote(pos: nat, len: nat, text: string) returns (r: Result<EntrySourceBuilder, Error>)
      modifies this
      ensures Annotated(Kinds.Note, pos, len, text, r)
    {
      r := Annotate(Kinds.Note, pos, len, text);
    }

    /** `annotate_help`. */
    method AnnotateHelp(pos: nat, len: nat, text: string) returns (r: Result<EntrySourceBuilder, Error>)
      modifies this
      ensures Annotated(Kinds.Help, pos, len, text, r)
    {
      r := Annotate(Kinds.Help, pos, len, text);
    }

    /** `new_line`: the new line becomes the pending one and the previous pending line, if
        any, is filed after the others. */
    method NewLine(lineNumber: nat, contents: string)
      modifies this
      ensures sourceLine == Some(NewSourceLine(lineNumber, contents))
      ensures PendingLines() == old(PendingLines()) + [NewSourceLine(lineNumber, contents)]
      ensures source == old(source).(lines := old(PendingLines()))
      ensures entry == old(entry)
    {
      var line := NewSourceLine(lineNumber, contents);
      var previous := sourceLine;
      sourceLine := Some(line);
      if previous.Some? {
        source := Sources.AddLine(source, previous.value);
      }
    }

    /** `note`: a note after the notes given so far. */
    method Note(text: string)
      modifies this
      ensures source.notes == old(source.notes) + [Sources.Note.Note(Sources.NoteKind.Note, text)]
      ensures source.filename == old(source.filename) && source.lineNumber == old(source.lineNumber)
      ensures source.position == old(source.position) && source.lines == old(source.lines)
      ensures entry == old(entry) && sourceLine == old(sourceLine)
    {
      source := source.(notes := source.notes + [Sources.Note.Note(Sources.NoteKind.Note, text)]);
    }

    /** `help`: a help note after the notes given so far. */
    method Help(text: string)
      modifies this
      ensures source.notes == old(source.notes) + [Sources.Note.Note(Sources.NoteKind.Help, text)]
      ensures source.filename == old(source.filename) && source.lineNumber == old(source.lineNumber)
      ensures source.position == old(source.position) && source.lines == old(source.lines)
      ensures entry == old(entry) && sourceLine == old(sourceLine)
    {
      source := source.(notes := source.notes + [Sources.Note.Note(Sources.NoteKind.Help, text)]);
    }

    /** `finish`: the entry, carrying the source with every line given to the builder. */
    method Finish() returns (e: Entry)
      ensures e.kind == entry.kind && e.bright == entry.bright && e.text == entry.text
      ensures e.source == Some(source.(lines := PendingLines()))
    {
      var s := source;
      if sourceLine.Some? {
        s := Sources.AddLine(s, sourceLine.value);
      }
      assert s.lines == PendingLines();
      assert s == source.(lines := PendingLines());
      e := entry.(source := Some(s));
    }

    /** `discard`: the entry as it was handed to the builder, made bright. */
    method Discard() returns (e: Entry)
      ensures e == entry
    {
      e := entry;
    }
  }

  /** The warning of the crate's introductory example: one line, a help span and a warning
      span on it, and a note. Both spans are accepted, and in position order. */
  method UnusedMutExample() returns (e: Entry)
    ensures e.kind == Kinds.Warning && e.bright && e.text == "variable does not need to be mutable"
    ensures e.source == Some(Sources.Source(Some("src/main.rs"), 3, 9,
      [SourceLine(3, "    let mut x = 42;",
        [Annotation(Kinds.Help, AnnotationReference(9, 4), "help: remove this `mut`"),
         Annotation(Kinds.Warning, AnnotationReference(13, 1), "")])],
      [Sources.Note.Note(Sources.NoteKind.Note, "`#[warn(unused_mut)]` on by default")]))
  {
    var b := new EntrySourceBuilder.FromNamedSource(NewWarning("variable does not need to be mutable"), "src/main.rs", 3, 9);
    b.NewLine(3, "    let mut x = 42;");
    ghost var help := Annotation(Kinds.Help, AnnotationReference(9, 4), "help: remove this `mut`");
    ghost var warn := Annotation(Kinds.Warning, AnnotationReference(13, 1), "");
    AddAtEnd(b.sourceLine.value, help);
    var r := b.AnnotateHelp(9, 4, "help: remove this `mut`");
    assert b.sourceLine.value.annotations == [help];
    AddAtEnd(b.sourceLine.value, warn);
    r := b.AnnotateWarn(13, 1, "");
    assert b.sourceLine.value.annotations == [help, warn];
    b.Note("`#[warn(unused_mut)]` on by default");
    assert b.source.lines == [];
    ghost var line := SourceLine(3, "    let mut x = 42;", [help, warn]);
    assert b.sourceLine.value == line;
    assert b.PendingLines() == [line];
    e := b.Finish();
    assert e.source.value.lines == [line];
    assert e.source.value.notes == [Sources.Note.Note(Sources.NoteKind.Note, "`#[warn(unused_mut)]` on by default")];
    assert e.source.value.filename == Some("src/main.rs");
  }

  /** The builder of `examples/simple.rs`: four lines, filed in the order they were
      started, the annotations going to the line pending at the time. */
  method SimpleExample() returns (e: Entry)
    ensures e.kind == Kinds.Warning && e.bright
    ensures e.source.Some? && e.source.value.filename == Some("examples/simple.rs")
    ensures var lines := e.source.value.lines;
      |lines| == 4 &&
      lines[0].line == 8 && lines[1].line == 9 && lines[2].line == 10 && lines[3].line == 11 &&
      |lines[0].annotations| == 3 && lines[1].annotations == [] && lines[2].annotations == [] &&
      |lines[3].annotations| == 1 && lines[3].annotations[0].reference == AnnotationReference(6, 17)
  {
    var b := new EntrySourceBuilder.FromNamedSource(NewWarning("this is a warning line"), "examples/simple.rs", 8, 36);
    b.NewLine(8, "    let entry = Entry::new_warning(\"this is a warning line\")");
    var r := AnnotateAtEnd(b, Kinds.Help, 9, 5, "this is the variable");
    r := AnnotateAtEnd(b, Kinds.Help, 17, 18, "this is the invoking function");
    r := AnnotateAtEnd(b, Kinds.Note, 36, 24, "this is the text");
    ghost var first := b.sourceLine.value;
    assert |first.annotations| == 3;
    b.NewLine(9, "    .bright()");
    b.NewLine(10, "    .source(source)");
    b.NewLine(11, "    .forward_to_stderr();");
    assert b.source.lines == [first, NewSourceLine(9, "    .bright()"), NewSourceLine(10, "    .source(source)")];
    r := AnnotateAtEnd(b, Kinds.Warning, 6, 17, "this function does not increase the warning count");
    e := b.Finish();
  }

  /** Annotating a pending line at or after the end of its last span: accepted, and the
      span is appended. */
  method AnnotateAtEnd(b: EntrySourceBuilder, kind: Kinds.EntryKind, pos: nat, len: nat, text: string)
    returns (r: Result<EntrySourceBuilder, Error>)
    requires b.sourceLine.Some?
    requires Cursor(b.sourceLine.value.annotations, |b.sourceLine.value.annotations|) <= pos
    modifies b
    ensures r == Success(b)
    ensures b.entry == old(b.entry) && b.source == old(b.source)
    ensures b.sourceLine.Some? && b.sourceLine.value.line == old(b.sourceLine.value.line)
    ensures b.sourceLine.value.annotations == old(b.sourceLine.value.annotations) + [Annotation(kind, AnnotationReference(pos, len), text)]
  {
    AddAtEnd(b.sourceLine.value, Annotation(kind, AnnotationReference(pos, len), text));
    r := b.Annotate(kind, pos, len, text);
  }

  /** The `annotate_err` documentation example: the product `2 * 3` is annotated first;
      the sum `1 + 2` and the operator `*` then overlap it and are refused, each error
      handing back the builder, and the line keeps only the first span. */
  method OverlapExample() returns (sum: Result<EntrySourceBuilder, Error>, operator: Result<EntrySourceBuilder, Error>,
                                   kept: seq<Annotation>)
    ensures sum.Failure? && sum.error.kind == Errors.OverlappingAnnotation
    ensures sum.error.partialConfiguration.EntrySourceBuilder?
    ensures operator.Failure? && operator.error.kind == Errors.OverlappingAnnotation
    ensures kept == [Annotation(Kinds.Error, AnnotationReference(22, 5), "")]
  {
    var b := new EntrySourceBuilder.FromSource(NewError("some expression warning"), 44, 25);
    b.NewLine(44, "    let result = 1 + 2 * 3;");
    var product := b.AnnotateErr(22, 5, "");
    sum := b.AnnotateErr(18, 5, "");
    operator := b.AnnotateErr(24, 1, "");
    kept := b.sourceLine.value.annotations;
  }

  /** Annotating before any line was started is refused and hands back the builder. */
  method EmptyLineExample() returns (r: Result<EntrySourceBuilder, Error>)
    ensures r.Failure? && r.error.kind == Errors.AnnotationOnEmptyLine
    ensures r.error.partialConfiguration.EntrySourceBuilder?
  {
    var b := new EntrySourceBuilder.FromSource(NewError("empty"), 1, 1);
    r := b.AnnotateErr(1, 1, "");
  }
}
