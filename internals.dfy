/**
 * `internals::console` without the `console` feature: a styled obj that displays
 * exactly as the obj it wraps, and colour methods that change nothing.
 */
module Console {
  import opened Text

  /** `StyledObject<D>`, with the wrapped obj given by its displayed text. */
  datatype StyledObject = StyledObject(inner: string)

  function Style(obj: string): StyledObject {
    StyledObject(obj)
  }

  function Black(o: StyledObject): StyledObject { o }
  function Red(o: StyledObject): StyledObject { o }
  function Green(o: StyledObject): StyledObject { o }
  function Blue(o: StyledObject): StyledObject { o }
  function Cyan(o: StyledObject): StyledObject { o }
  function Magenta(o: StyledObject): StyledObject { o }
  function Yellow(o: StyledObject): StyledObject { o }
  function White(o: StyledObject): StyledObject { o }
  function Bright(o: StyledObject): StyledObject { o }

  /** `Display for StyledObject` forwards the formatter, padding included, to the wrapped obj. */
  function Display(o: StyledObject, spec: Spec): (r: string)
    ensures spec.width.None? ==> r == o.inner
  {
    Format(o.inner, spec)
  }

  /** Styling and recolouring never change what is displayed. */
  lemma StyleIsTransparent(x: string, spec: Spec)
    ensures Display(Bright(Cyan(Style(x))), spec) == Format(x, spec)
    ensures forall o: StyledObject :: Black(o) == o && Red(o) == o && Green(o) == o && Blue(o) == o
    ensures forall o: StyledObject :: Cyan(o) == o && Magenta(o) == o && Yellow(o) == o
    ensures forall o: StyledObject :: White(o) == o && Bright(o) == o
  {
  }
}

/** The fixed glyphs of the layout and the underline of an annotation. */
module Internals {
  import opened Text
  import opened Wrappers
  import Console
  import opened Kinds

  /** The margin bar (`LineStart`). */
  function LineStart(): (r: string)
    ensures r == "|"
  {
    Console.Display(Console.Bright(Console.Cyan(Console.Style("|"))), Plain)
  }

  /** The bullet in front of notes (`NoteDash`). */
  function NoteDash(): (r: string)
    ensures r == "="
  {
    Console.Display(Console.Bright(Console.Cyan(Console.Style("="))), Plain)
  }

  /** The location marker (`Arrow`). */
  function Arrow(): (r: string)
    ensures r == "-->"
  {
    Console.Display(Console.Bright(Console.Cyan(Console.Style("-->"))), Plain)
  }

  /** The separator after a kind label (`Colon`). */
  function Colon(): (r: string)
    ensures r == ":"
  {
    Console.Display(Console.Bright(Console.White(Console.Style(":"))), Plain)
  }

  /** `Title(t)`: the title text, only restyled. */
  function Title(t: string): (r: string)
    ensures r == t
  {
    Console.Display(Console.Bright(Console.White(Console.Style(t))), Plain)
  }

  /** The underline glyph of a kind: '-' for Help, '^' for the others. */
  function Glyph(kind: EntryKind): char {
    if kind == Help then '-' else '^'
  }

  /** `AnnotationUnderline(kind, n)`: `n` copies of the kind's glyph, which is what its
      `Display` writes (see `AnnotationUnderlineIsPadded`). */
  function AnnotationUnderline(kind: EntryKind, n: nat): (r: string)
    ensures |r| == n
  {
    Repeat(Glyph(kind), n)
  }

  /** `Display for AnnotationUnderline` writes the styled empty string right-aligned in `n`
      columns with the glyph as fill. */
  lemma AnnotationUnderlineIsPadded(kind: EntryKind, n: nat)
    ensures AnnotationUnderline(kind, n) == Console.Display(Styled(kind, ""), Spec(Glyph(kind), Right, Some(n)))
  {
    PadEmpty(Glyph(kind), Right, n);
  }

  /** An underline is `n` copies of the glyph: '-' for help, '^' for note, warning and error. */
  lemma UnderlineAt(kind: EntryKind, n: nat, i: nat)
    requires i < n
    ensures AnnotationUnderline(kind, n)[i] == (if kind == Help then '-' else '^')
  {
    RepeatAt(Glyph(kind), n, i);
  }
}
