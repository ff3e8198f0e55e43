/**
 * `style.rs`: the styled-writer layer and the rich-text builder. Every piece of text goes
 * through a writer that is told its `Style`; the standard writer ignores the style and
 * hands the text to the formatter, which pads it to the formatter's width. On top of it
 * sit the margin (`RichMargin`), the highlight (`Highlight`), the line of items
 * (`RichLine`) and the block of lines (`RichText`).
 */
module Styles {
  import opened Wrappers
  import opened Text

  /** `Style`: the role of a piece of text; `Normal` is the default. */
  datatype Style = Normal | Title | Warning | Error | Help | Note | Add | Sub

  // ---------------------------------------------------------------------------
  // The standard writer

  /** `StdWriter::write_str`: the text through the formatter; the style is not looked at. */
  function WriteStr(spec: Spec, style: Style, obj: string): (r: string)
    ensures |r| >= |obj|
    ensures spec.width.Some? && |obj| < spec.width.value ==> |r| == spec.width.value
  {
    Format(obj, spec)
  }

  /** `write_fmt`: the arguments are rendered first, then written as one string. */
  function WriteFmt(spec: Spec, style: Style, args: string): string {
    WriteStr(spec, style, args)
  }

  /** `write_usize`: the decimal digits, written as one string. */
  function WriteUsize(spec: Spec, style: Style, n: nat): string {
    WriteFmt(spec, style, NatToString(n))
  }

  /** `write_char`: the one-character string. */
  function WriteChar(spec: Spec, style: Style, c: char): string {
    WriteStr(spec, style, [c])
  }

  /** The standard writer writes the same text whatever the style, and without a width
      it writes the text unchanged. */
  lemma StdWriterIgnoresStyle(spec: Spec, a: Style, b: Style, obj: string, n: nat, c: char)
    ensures WriteStr(spec, a, obj) == WriteStr(spec, b, obj)
    ensures WriteFmt(spec, a, obj) == WriteFmt(spec, b, obj)
    ensures WriteUsize(spec, a, n) == WriteUsize(spec, b, n)
    ensures WriteChar(spec, a, c) == WriteChar(spec, b, c)
    ensures spec.width.None? ==> WriteStr(spec, a, obj) == obj && WriteChar(spec, a, c) == [c]
  {
  }

  /** A text at least as wide as the formatter's width is written unchanged. */
  lemma {:induction false} WideEnoughUnpadded(spec: Spec, style: Style, obj: string)
    requires spec.width.None? || spec.width.value <= |obj|
    ensures WriteStr(spec, style, obj) == obj
  {
    if spec.width.Some? {
      assert Padding(obj, spec.width.value) == 0;
      assert obj + Repeat(spec.fill, 0) == obj;
      assert Repeat(spec.fill, 0) + obj == obj;
    }
  }

  // ---------------------------------------------------------------------------
  // Margins

  /** `RichMargin`: an optional line number and the margin character, each with a style. */
  datatype RichMargin = RichMargin(number: Option<nat>, numberStyle: Style, marginChar: char, marginStyle: Style)

  /** `RichMargin::default` / `new`. */
  function DefaultMargin(): (m: RichMargin)
    ensures m.number == None && m.marginChar == '|'
    ensures m.numberStyle == Help && m.marginStyle == Help
  {
    RichMargin(None, Help, '|', Help)
  }

  /** `RichMargin::with_line_number`: the default margin with a number. */
  function WithLineNumber(n: nat): (m: RichMargin)
    ensures m.number == Some(n)
    ensures m.numberStyle == DefaultMargin().numberStyle
    ensures m.marginChar == DefaultMargin().marginChar && m.marginStyle == DefaultMargin().marginStyle
  {
    RichMargin(Some(n), Help, '|', Help)
  }

  /** `RichMargin::diff_add`: a `+` margin in the `Add` style. */
  function DiffAdd(): (m: RichMargin)
    ensures m.number == None && m.numberStyle == Help
    ensures m.marginChar == '+' && m.marginStyle == Add
  {
    RichMargin(None, Help, '+', Add)
  }

  /** `RichMargin::diff_add_with_line_number`. */
  function DiffAddWithLineNumber(n: nat): (m: RichMargin)
    ensures m.number == Some(n)
    ensures m.numberStyle == DiffAdd().numberStyle
    ensures m.marginChar == DiffAdd().marginChar && m.marginStyle == DiffAdd().marginStyle
  {
    RichMargin(Some(n), Help, '+', Add)
  }

  /** `RichMargin::diff_sub`: a `-` margin in the `Sub` style. */
  function DiffSub(): (m: RichMargin)
    ensures m.number == None && m.numberStyle == Help
    ensures m.marginChar == '-' && m.marginStyle == Sub
  {
    RichMargin(None, Help, '-', Sub)
  }

  /** `RichMargin::diff_sub_with_line_number`. */
  function DiffSubWithLineNumber(n: nat): (m: RichMargin)
    ensures m.number == Some(n)
    ensures m.numberStyle == DiffSub().numberStyle
    ensures m.marginChar == DiffSub().marginChar && m.marginStyle == DiffSub().marginStyle
  {
    RichMargin(Some(n), Help, '-', Sub)
  }

  /** `RichMargin::new_dashed`: a `=` margin. */
  function NewDashed(): (m: RichMargin)
    ensures m == DefaultMargin().(marginChar := '=')
  {
    RichMargin(None, Help, '=', Help)
  }

  /** `RichMargin::new_empty`: a blank margin. */
  function NewEmpty(): (m: RichMargin)
    ensures m == DefaultMargin().(marginChar := ' ')
  {
    RichMargin(None, Help, ' ', Help)
  }

  /** The number as written, or nothing. */
  function NumberText(m: RichMargin): string {
    if m.number.Some? then NatToString(m.number.value) else ""
  }

  /** The margin with its number column `len` wide, each of the two writes going through
      the formatter with `spec`. */
  function MarginTextIn(m: RichMargin, len: nat, spec: Spec): string {
    WriteFmt(spec, m.numberStyle, Pad(NumberText(m), ' ', Left, len) + " ")
    + WriteFmt(spec, m.marginStyle, [m.marginChar])
  }

  /** `fmt_styled for RichMargin`: the number column is the formatter's width, or else as
      wide as the number (of 0 when there is none). */
  function MarginText(m: RichMargin, spec: Spec): string {
    MarginTextIn(m, spec.width.GetOr(Digits(m.number.GetOr(0))), spec)
  }

  /** On its own, a margin is its number (one blank without a number), a blank and the
      margin character. */
  lemma {:induction false} MarginAlone(m: RichMargin)
    ensures MarginText(m, Plain) == (if m.number.Some? then NatToString(m.number.value) else " ") + " " + [m.marginChar]
  {
    var num := NumberText(m);
    var len := Digits(m.number.GetOr(0));
    if m.number.None? {
      assert NatToString(0) == "0";
      assert len == 1;
      PadEmpty(' ', Left, 1);
      assert Repeat(' ', 1) == " ";
    } else {
      assert |num| == len;
      assert num + Repeat(' ', 0) == num;
    }
  }

  /** In a block of width `w`, a margin whose number fits is its number padded to `w`, a
      blank, and the margin character, itself padded to `w`. */
  lemma {:induction false} MarginInBlock(m: RichMargin, w: nat)
    requires w >= 1
    requires m.number.None? || Digits(m.number.value) <= w
    ensures MarginText(m, LeftIn(Some(w))) == Pad(NumberText(m), ' ', Left, w) + " " + [m.marginChar] + Spaces(w - 1)
    ensures |MarginText(m, LeftIn(Some(w)))| == 2 * w + 1
  {
    var head := Pad(NumberText(m), ' ', Left, w) + " ";
    WideEnoughUnpadded(LeftIn(Some(w)), m.numberStyle, head);
    assert [m.marginChar] + Repeat(' ', w - 1) == Pad([m.marginChar], ' ', Left, w);
  }

  // ---------------------------------------------------------------------------
  // Highlights

  /** `Highlight`: `len` copies of `ch` after `offset` blanks. */
  datatype Highlight = Highlight(style: Style, ch: char, offset: nat, len: nat)

  /** `Highlight::with_style`: one `^` at offset 0. */
  function HighlightWithStyle(style: Style): (h: Highlight)
    ensures h.style == style && h.ch == '^' && h.offset == 0 && h.len == 1
  {
    Highlight(style, '^', 0, 1)
  }

  /** `Highlight::offset`: only the offset changes. */
  function SetOffset(h: Highlight, offset: nat): (r: Highlight)
    ensures r.offset == offset
    ensures r.style == h.style && r.ch == h.ch && r.len == h.len
  {
    h.(offset := offset)
  }

  /** `Highlight::len`: only the length changes. */
  function SetLen(h: Highlight, len: nat): (r: Highlight)
    ensures r.len == len
    ensures r.style == h.style && r.ch == h.ch && r.offset == h.offset
  {
    h.(len := len)
  }

  /** `Highlight::char`: only the character changes. */
  function SetChar(h: Highlight, ch: char): (r: Highlight)
    ensures r.ch == ch
    ensures r.style == h.style && r.offset == h.offset && r.len == h.len
  {
    h.(ch := ch)
  }

  /** `n` copies of the text `s`, one after the other. */
  function Copies(s: string, n: nat): (r: string)
    ensures |r| == n * |s|
  {
    if n == 0 then "" else Copies(s, n - 1) + s
  }

  /** Copies of a one-character text are a repetition of the character. */
  lemma {:induction false} CopiesOfChar(c: char, n: nat)
    ensures Copies([c], n) == Repeat(c, n)
  {
    if n > 0 {
      CopiesOfChar(c, n - 1);
    }
  }

  /** `fmt_styled for Highlight`: one write per blank, then one write per character. */
  function HighlightText(h: Highlight, spec: Spec): string {
    Copies(WriteChar(spec, h.style, ' '), h.offset) + Copies(WriteChar(spec, h.style, h.ch), h.len)
  }

  /** Without a width of two or more, a highlight is `offset` blanks and `len` characters. */
  lemma {:induction false} HighlightUnpadded(h: Highlight, spec: Spec)
    requires spec.width.None? || spec.width.value <= 1
    ensures HighlightText(h, spec) == Spaces(h.offset) + Repeat(h.ch, h.len)
    ensures |HighlightText(h, spec)| == h.offset + h.len
  {
    WideEnoughUnpadded(spec, h.style, [' ']);
    WideEnoughUnpadded(spec, h.style, [h.ch]);
    CopiesOfChar(' ', h.offset);
    CopiesOfChar(h.ch, h.len);
  }

  /** The two write loops of `fmt_styled for Highlight`. */
  method DrawHighlight(h: Highlight, spec: Spec) returns (out: string)
    ensures out == HighlightText(h, spec)
  {
    var blank := WriteChar(spec, h.style, ' ');
    var glyph := WriteChar(spec, h.style, h.ch);
    out := "";
    var i := 0;
    while i < h.offset
      invariant i <= h.offset
      invariant out == Copies(blank, i)
    {
      out := out + blank;
      i := i + 1;
    }
    var front := out;
    var j := 0;
    while j < h.len
      invariant j <= h.len
      invariant out == front + Copies(glyph, j)
    {
      out := out + glyph;
      j := j + 1;
    }
  }

  // ---------------------------------------------------------------------------
  // Lines

  /** The items a line can hold: strings and numbers, a `StyledItem`, a `Title`, a
      `Highlight`, a `RightAligned` text and a `Width` filler. */
  datatype Item =
    | StrItem(text: string)
    | NumberItem(n: nat)
    | StyledItem(style: Style, text: string)
    | TitleItem(text: string)
    | HighlightItem(h: Highlight)
    | RightAlignedItem(text: string, width: nat)
    | WidthItem

  /** What each item writes through a formatter with `spec`. */
  function ItemText(item: Item, spec: Spec): string {
    match item
    case StrItem(s) => Format(s, spec)
    case NumberItem(n) => Format(NatToString(n), spec)
    case StyledItem(style, s) => WriteFmt(spec, style, s)
    case TitleItem(s) => WriteFmt(spec, Title, s)
    case HighlightItem(h) => HighlightText(h, spec)
    case RightAlignedItem(s, n) => WriteFmt(Spec(' ', Right, Some(n)), Normal, s)
    case WidthItem => WriteFmt(spec, Normal, Pad("", ' ', Left, spec.width.GetOr(0)))
  }

  /** Without a width, text items are written as they are, a right-aligned text is padded
      to its own width, and the width filler is empty. */
  lemma {:induction false} ItemTextPlain(item: Item)
    ensures item.StrItem? || item.StyledItem? || item.TitleItem? ==> ItemText(item, Plain) == item.text
    ensures item.NumberItem? ==> ItemText(item, Plain) == NatToString(item.n)
    ensures item.RightAlignedItem? ==> ItemText(item, Plain) == Pad(item.text, ' ', Right, item.width)
    ensures item.WidthItem? ==> ItemText(item, Plain) == ""
  {
    if item.WidthItem? {
      PadEmpty(' ', Left, 0);
    }
  }

  /** The width filler is exactly as many blanks as the formatter's width. */
  lemma {:induction false} WidthItemFills(spec: Spec)
    ensures ItemText(WidthItem, spec) == Spaces(spec.width.GetOr(0))
  {
    var n := spec.width.GetOr(0);
    PadEmpty(' ', Left, n);
    WideEnoughUnpadded(spec, Normal, Spaces(n));
  }

  /** `RichLine`: an optional margin and the items written after it. */
  datatype RichLine = RichLine(margin: Option<RichMargin>, items: seq<Item>)

  /** `RichLine::new`. */
  function NewRichLine(): (l: RichLine)
    ensures l.margin == None && l.items == []
  {
    RichLine(None, [])
  }

  /** `RichLine::with_default_margin`. */
  function LineWithDefaultMargin(): (l: RichLine)
    ensures l.margin == Some(DefaultMargin()) && l.items == []
  {
    RichLine(Some(DefaultMargin()), [])
  }

  /** `RichLine::with_margin`. */
  function LineWithMargin(m: RichMargin): (l: RichLine)
    ensures l.margin == Some(m) && l.items == []
  {
    RichLine(Some(m), [])
  }

  /** `RichLine::push`, on a line owned by the caller: one more item at the end. */
  function Push(l: RichLine, item: Item): (r: RichLine)
    ensures r.margin == l.margin
    ensures r.items == l.items + [item]
  {
    l.(items := l.items + [item])
  }

  /** The items, each written with `spec`, one after the other. */
  function ItemsText(items: seq<Item>, spec: Spec): string {
    if items == [] then "" else ItemsText(items[..|items| - 1], spec) + ItemText(items[|items| - 1], spec)
  }

  /** The start of a line: its margin and one unpadded blank, or nothing. */
  function MarginPart(l: RichLine, len: nat, spec: Spec): string {
    if l.margin.Some? then MarginTextIn(l.margin.value, len, spec) + " " else ""
  }

  /** `fmt_styled for RichLine`: the margin, a blank, then every item, all through the
      same formatter. */
  function RichLineText(l: RichLine, spec: Spec): string {
    var len := if l.margin.Some? then spec.width.GetOr(Digits(l.margin.value.number.GetOr(0))) else 0;
    MarginPart(l, len, spec) + ItemsText(l.items, spec)
  }

  /** Pushing an item appends exactly its text to the line's text. */
  lemma {:induction false} PushAppendsText(l: RichLine, item: Item, spec: Spec)
    ensures RichLineText(Push(l, item), spec) == RichLineText(l, spec) + ItemText(item, spec)
  {
    var items := l.items + [item];
    assert items[..|items| - 1] == l.items;
    assert ItemsText(items, spec) == ItemsText(l.items, spec) + ItemText(item, spec);
  }

  /** The write loop of `fmt_styled for RichLine`: the margin part, then one item at a time. */
  method DrawLine(l: RichLine, spec: Spec) returns (out: string)
    ensures out == RichLineText(l, spec)
  {
    var len := if l.margin.Some? then spec.width.GetOr(Digits(l.margin.value.number.GetOr(0))) else 0;
    var written := "";
    var i := 0;
    while i < |l.items|
      invariant i <= |l.items|
      invariant written == ItemsText(l.items[..i], spec)
    {
      var piece := ItemText(l.items[i], spec);
      ItemsTextPrefix(l.items, i, spec);
      written := written + piece;
      i := i + 1;
    }
    PrefixAll(l.items);
    out := MarginPart(l, len, spec) + written;
  }

  /** One more item of the prefix adds its text. */
  lemma {:induction false} ItemsTextPrefix(items: seq<Item>, i: nat, spec: Spec)
    requires i < |items|
    ensures ItemsText(items[..i + 1], spec) == ItemsText(items[..i], spec) + ItemText(items[i], spec)
  {
    var p := items[..i + 1];
    assert p[..|p| - 1] == items[..i];
  }

  // ---------------------------------------------------------------------------
  // Blocks

  /** The largest margin number of the lines, 0 when no line has one. */
  function MaxNumber(lines: seq<RichLine>): (m: nat)
    ensures forall i :: 0 <= i < |lines| && lines[i].margin.Some? && lines[i].margin.value.number.Some? ==>
              lines[i].margin.value.number.value <= m
    ensures m == 0 || exists i :: 0 <= i < |lines| && lines[i].margin.Some? && lines[i].margin.value.number == Some(m)
  {
    if lines == [] then 0
    else
      var front := lines[..|lines| - 1];
      var last := lines[|lines| - 1];
      var rest := MaxNumber(front);
      assert forall i :: 0 <= i < |front| ==> front[i] == lines[i];
      if last.margin.Some? && last.margin.value.number.Some? && last.margin.value.number.value > rest then
        last.margin.value.number.value
      else rest
  }

  /** The width of a block: the digit count of its largest margin number. */
  function BlockWidth(lines: seq<RichLine>): (w: nat)
    ensures w >= 1
    ensures forall i :: 0 <= i < |lines| && lines[i].margin.Some? && lines[i].margin.value.number.Some? ==>
              Digits(lines[i].margin.value.number.value) <= w
  {
    var m := MaxNumber(lines);
    forall i | 0 <= i < |lines| && lines[i].margin.Some? && lines[i].margin.value.number.Some?
      ensures Digits(lines[i].margin.value.number.value) <= Digits(m)
    {
      DigitsMonotone(lines[i].margin.value.number.value, m);
    }
    Digits(m)
  }

  /** The row of one line in a block of width `w`, as `fmt_styled for RichText` writes it:
      the width reaches every write of the line, items included. */
  function BlockRowAsWritten(l: RichLine, w: nat): string {
    RichLineText(l, LeftIn(Some(w)))
  }

  /** What an item writes in a block of width `w` as intended: the width filler is the
      block's `w` blanks, and every other item is written plainly. */
  function BlockItemText(item: Item, w: nat): string {
    if item.WidthItem? then Spaces(w) else ItemText(item, Plain)
  }

  /** The intended item text keeps the width filler's promise, `w` blanks as the block's
      formatter writes them, and writes every other item as it writes without a width. */
  lemma {:induction false} BlockItemTextAgrees(item: Item, w: nat)
    ensures item.WidthItem? ==> BlockItemText(item, w) == ItemText(item, LeftIn(Some(w)))
    ensures !item.WidthItem? ==> BlockItemText(item, w) == ItemText(item, Plain)
  {
    WidthItemFills(LeftIn(Some(w)));
  }

  /** The items of a line in a block of width `w`, each written as intended. */
  function BlockItemsText(items: seq<Item>, w: nat): string {
    if items == [] then "" else BlockItemsText(items[..|items| - 1], w) + BlockItemText(items[|items| - 1], w)
  }

  /** The row of one line in a block of width `w` as intended: the width sets the number
      column and the width filler, and everything else is written plainly. */
  function BlockRow(l: RichLine, w: nat): string {
    MarginPart(l, w, Plain) + BlockItemsText(l.items, w)
  }

  /** Without a width filler, a line's intended items are its items written plainly. */
  lemma {:induction false} BlockItemsPlain(items: seq<Item>, w: nat)
    requires forall i :: 0 <= i < |items| ==> !items[i].WidthItem?
    ensures BlockItemsText(items, w) == ItemsText(items, Plain)
  {
    if items != [] {
      var front := items[..|items| - 1];
      assert forall i :: 0 <= i < |front| ==> front[i] == items[i];
      BlockItemsPlain(front, w);
      BlockItemTextAgrees(items[|items| - 1], w);
    }
  }

  /** The rows of the lines, each in a block of width `w`. */
  function BlockRows(lines: seq<RichLine>, w: nat): (rows: seq<string>)
    ensures |rows| == |lines|
  {
    if lines == [] then [] else BlockRows(lines[..|lines| - 1], w) + [BlockRow(lines[|lines| - 1], w)]
  }

  /** The rows of the first `i + 1` lines: those of the first `i`, then line `i`'s. */
  lemma BlockRowsSnoc(lines: seq<RichLine>, w: nat, i: nat)
    requires i < |lines|
    ensures BlockRows(lines[..i + 1], w) == BlockRows(lines[..i], w) + [BlockRow(lines[i], w)]
  {
    assert lines[..i + 1][..i] == lines[..i];
  }

  /** Row `i` of a block is the row of line `i`. */
  lemma {:induction false} BlockRowsAt(lines: seq<RichLine>, w: nat, i: nat)
    requires i < |lines|
    ensures BlockRows(lines, w)[i] == BlockRow(lines[i], w)
  {
    var front := lines[..|lines| - 1];
    if i < |front| {
      BlockRowsAt(front, w, i);
      assert front[i] == lines[i];
    }
  }

  /** The intended margin in a block: the number padded to the width, a blank and the
      margin character, so margin characters line up in column `w + 1`. */
  lemma {:induction false} BlockMargin(l: RichLine, w: nat)
    requires l.margin.Some?
    ensures MarginPart(l, w, Plain) == Pad(NumberText(l.margin.value), ' ', Left, w) + " " + [l.margin.value.marginChar] + " "
  {
    var m := l.margin.value;
    var head := Pad(NumberText(m), ' ', Left, w) + " ";
    WideEnoughUnpadded(Plain, m.numberStyle, head);
    WideEnoughUnpadded(Plain, m.marginStyle, [m.marginChar]);
  }

  /** The prefix of a row before its items: for a line with a margin whose number fits,
      exactly `w + 3` characters with the margin character in column `w + 1`. */
  lemma {:induction false} BlockRowPrefix(l: RichLine, w: nat)
    requires l.margin.Some?
    requires l.margin.value.number.None? || Digits(l.margin.value.number.value) <= w
    ensures |MarginPart(l, w, Plain)| == w + 3
    ensures MarginPart(l, w, Plain)[w + 1] == l.margin.value.marginChar
    ensures MarginPart(l, w, Plain)[w] == ' ' && MarginPart(l, w, Plain)[w + 2] == ' '
  {
    BlockMargin(l, w);
    var m := l.margin.value;
    var num := Pad(NumberText(m), ' ', Left, w);
    if m.number.Some? {
      assert |NumberText(m)| == Digits(m.number.value);
    }
    assert |num| == w;
    var x := num + " " + [m.marginChar] + " ";
    assert x == num + [' ', m.marginChar, ' '];
  }

  /** A line of one item writes its margin part and that item. */
  lemma {:induction false} OneItemText(l: RichLine, item: Item, spec: Spec)
    requires l.items == [item]
    ensures ItemsText(l.items, spec) == ItemText(item, spec)
  {
    assert l.items[..0] == [];
  }

  /** In a block, a line of one item writes that item as intended. */
  lemma {:induction false} OneBlockItemText(l: RichLine, item: Item, w: nat)
    requires l.items == [item]
    ensures BlockItemsText(l.items, w) == BlockItemText(item, w)
  {
    assert l.items[..0] == [];
  }

  /** In a block, a line holding only the width filler writes, after its margin part,
      exactly `w` blanks: the filler takes the block's width. */
  lemma {:induction false} FillerRow(l: RichLine, w: nat)
    requires l.items == [WidthItem]
    ensures BlockRow(l, w) == MarginPart(l, w, Plain) + Spaces(w)
    ensures l.margin.None? ==> BlockRow(l, w) == Spaces(w)
  {
    OneBlockItemText(l, WidthItem, w);
  }

  /** The intended row of a line holding one text: column `w + 3 + k` holds the text's
      character `k`. */
  lemma {:induction false} TextRowAt(w: nat, m: RichMargin, t: string, k: nat)
    requires m.number.None? || Digits(m.number.value) <= w
    requires k < |t|
    ensures var row := BlockRow(RichLine(Some(m), [StrItem(t)]), w);
            w + 3 + k < |row| && row[w + 3 + k] == t[k]
  {
    var l := RichLine(Some(m), [StrItem(t)]);
    BlockRowPrefix(l, w);
    OneBlockItemText(l, StrItem(t), w);
    AfterPrefix(MarginPart(l, w, Plain), t, k);
  }

  /** The intended row of a line holding one highlight: column `w + 3 + k` holds the
      highlight character, for every `k` the highlight covers. */
  lemma {:induction false} MarkRowAt(w: nat, m: RichMargin, h: Highlight, k: nat)
    requires m.number.None? || Digits(m.number.value) <= w
    requires h.offset <= k < h.offset + h.len
    ensures var row := BlockRow(RichLine(Some(m), [HighlightItem(h)]), w);
            w + 3 + k < |row| && row[w + 3 + k] == h.ch
  {
    var l := RichLine(Some(m), [HighlightItem(h)]);
    var prefix := MarginPart(l, w, Plain);
    var marks := Spaces(h.offset) + Repeat(h.ch, h.len);
    assert BlockRow(l, w) == prefix + marks by {
      OneBlockItemText(l, HighlightItem(h), w);
      HighlightUnpadded(h, Plain);
    }
    assert |prefix| == w + 3 by {
      BlockRowPrefix(l, w);
    }
    assert marks[k] == h.ch by {
      RepeatAt(h.ch, h.len, k - h.offset);
      AfterPrefix(Spaces(h.offset), Repeat(h.ch, h.len), k - h.offset);
    }
    AfterPrefix(prefix, marks, k);
  }

  /** The point of a highlight: in a block, a line holding only a highlight puts its
      characters under columns `offset .. offset + len` of the text of a line holding
      only text, when both have margins whose numbers fit the width. */
  lemma {:induction false} HighlightUnderText(w: nat, m1: RichMargin, t: string, m2: RichMargin, h: Highlight, k: nat)
    requires m1.number.None? || Digits(m1.number.value) <= w
    requires m2.number.None? || Digits(m2.number.value) <= w
    requires h.offset <= k < h.offset + h.len && k < |t|
    ensures var textRow := BlockRow(RichLine(Some(m1), [StrItem(t)]), w);
            var markRow := BlockRow(RichLine(Some(m2), [HighlightItem(h)]), w);
            w + 3 + k < |textRow| && w + 3 + k < |markRow| &&
            textRow[w + 3 + k] == t[k] && markRow[w + 3 + k] == h.ch
  {
    TextRowAt(w, m1, t, k);
    MarkRowAt(w, m2, h, k);
  }

  /** A block of one line without a margin holding only the width filler: the block is
      one column wide, so the filler writes one blank before the line feed. */
  lemma {:induction false} FillerOnlyBlock()
    ensures var lines := [RichLine(None, [WidthItem])];
            BlockWidth(lines) == 1 && Render(BlockRows(lines, BlockWidth(lines))) == " \n"
  {
    var lines := [RichLine(None, [WidthItem])];
    assert MaxNumber(lines) == 0;
    assert NatToString(0) == "0";
    FillerRow(lines[0], 1);
    assert Spaces(1) == " ";
    assert BlockRows(lines, 1) == [" "] by {
      assert lines[..0] == [];
    }
    RenderOne(" ");
  }

  /** As written, a line holding one text, in a block two columns wide: the margin takes
      six columns and the text (two or more characters) is written unpadded. */
  lemma {:induction false} AsWrittenTextRow(m: RichMargin, t: string)
    requires m.number.None? || Digits(m.number.value) <= 2
    requires |t| >= 2
    ensures BlockRowAsWritten(RichLine(Some(m), [StrItem(t)]), 2) == MarginText(m, LeftIn(Some(2))) + " " + t
    ensures |MarginText(m, LeftIn(Some(2))) + " "| == 6
  {
    var l := RichLine(Some(m), [StrItem(t)]);
    var spec := LeftIn(Some(2));
    MarginInBlock(m, 2);
    OneItemText(l, StrItem(t), spec);
    WideEnoughUnpadded(spec, Normal, t);
  }

  /** As written, a line holding one highlight, in a block two columns wide: every blank
      before the highlight is written two columns wide. */
  lemma {:induction false} AsWrittenMarkRow(m: RichMargin, h: Highlight)
    requires m.number.None? || Digits(m.number.value) <= 2
    ensures BlockRowAsWritten(RichLine(Some(m), [HighlightItem(h)]), 2) ==
            MarginText(m, LeftIn(Some(2))) + " " + HighlightText(h, LeftIn(Some(2)))
    ensures |MarginText(m, LeftIn(Some(2))) + " "| == 6
    ensures WriteChar(LeftIn(Some(2)), h.style, ' ') == "  "
  {
    var l := RichLine(Some(m), [HighlightItem(h)]);
    var spec := LeftIn(Some(2));
    MarginInBlock(m, 2);
    OneItemText(l, HighlightItem(h), spec);
    assert Repeat(' ', 1) == " ";
  }

  /** A block of a line numbered 10 and a line without a number is two columns wide. */
  lemma {:induction false} TwoLineWidth(a: RichLine, b: RichLine)
    requires a.margin == Some(WithLineNumber(10)) && b.margin == Some(DefaultMargin())
    ensures BlockWidth([a, b]) == 2
  {
    assert NatToString(10) == "10";
    assert [a, b][..1] == [a];
    assert [a][..0] == [];
    assert MaxNumber([a]) == 10;
  }

  /** The text line of the example below: "I writes good code" on line 10. */
  function ExampleText(): RichLine {
    RichLine(Some(WithLineNumber(10)), [StrItem("I writes good code")])
  }

  /** The highlight line of the example below: six carets two columns in. */
  function ExampleMark(): RichLine {
    RichLine(Some(DefaultMargin()), [HighlightItem(Highlight(Error, '^', 2, 6))])
  }

  /** As written, column 8 holds the 'w' of the text and a blank of the highlight. */
  lemma {:induction false} ExampleAsWritten()
    ensures 8 < |BlockRowAsWritten(ExampleText(), 2)| && BlockRowAsWritten(ExampleText(), 2)[8] == 'w'
    ensures 8 < |BlockRowAsWritten(ExampleMark(), 2)| && BlockRowAsWritten(ExampleMark(), 2)[8] == ' '
  {
    var t := "I writes good code";
    var h := Highlight(Error, '^', 2, 6);
    var spec := LeftIn(Some(2));
    AsWrittenTextRow(WithLineNumber(10), t);
    AfterPrefix(MarginText(WithLineNumber(10), spec) + " ", t, 2);
    AsWrittenMarkRow(DefaultMargin(), h);
    var gaps := Copies(WriteChar(spec, Error, ' '), 2);
    assert gaps == "    ";
    var ht := HighlightText(h, spec);
    assert ht[2] == gaps[2];
    AfterPrefix(MarginText(DefaultMargin(), spec) + " ", ht, 2);
  }

  /** With the corrected rows, column 7 holds the 'w' of the text and a caret under it. */
  lemma {:induction false} ExampleCorrected()
    ensures 7 < |BlockRow(ExampleText(), 2)| && BlockRow(ExampleText(), 2)[7] == 'w'
    ensures 7 < |BlockRow(ExampleMark(), 2)| && BlockRow(ExampleMark(), 2)[7] == '^'
  {
    var t := "I writes good code";
    assert NatToString(10) == "10";
    assert |t| == 18 && t[2] == 'w';
    HighlightUnderText(2, WithLineNumber(10), t, DefaultMargin(), Highlight(Error, '^', 2, 6), 2);
  }

  /** As written, a block two or more columns wide pads every write of a line to the
      width: with a margin number of 10, a highlight two columns into a line still shows a
      blank under the third character of the text above it. */
  lemma {:induction false} WideBlockMisplacesHighlight()
    ensures var text := RichLine(Some(WithLineNumber(10)), [StrItem("I writes good code")]);
            var mark := RichLine(Some(DefaultMargin()), [HighlightItem(SetLen(SetOffset(HighlightWithStyle(Error), 2), 6))]);
            var w := BlockWidth([text, mark]);
            w == 2 &&
            8 < |BlockRowAsWritten(text, w)| && BlockRowAsWritten(text, w)[8] == 'w' &&
            8 < |BlockRowAsWritten(mark, w)| && BlockRowAsWritten(mark, w)[8] == ' ' &&
            7 < |BlockRow(text, w)| && BlockRow(text, w)[7] == 'w' &&
            7 < |BlockRow(mark, w)| && BlockRow(mark, w)[7] == '^'
  {
    assert SetLen(SetOffset(HighlightWithStyle(Error), 2), 6) == Highlight(Error, '^', 2, 6);
    TwoLineWidth(ExampleText(), ExampleMark());
    ExampleAsWritten();
    ExampleCorrected();
  }

  /** `RichText`: a block of lines built in place. */
  class RichText {
    var lines: seq<RichLine>

    /** `RichText::new`. */
    constructor ()
      ensures lines == []
    {
      lines := [];
    }

    /** `RichText::add_new_line`. */
    method AddNewLine()
      modifies this
      ensures lines == old(lines) + [NewRichLine()]
    {
      lines := lines + [NewRichLine()];
    }

    /** `RichText::add_new_line_with_default_margin`. */
    method AddNewLineWithDefaultMargin()
      modifies this
      ensures lines == old(lines) + [LineWithDefaultMargin()]
    {
      lines := lines + [LineWithDefaultMargin()];
    }

    /** `RichText::add_new_line_with_margin`. */
    method AddNewLineWithMargin(m: RichMargin)
      modifies this
      ensures lines == old(lines) + [LineWithMargin(m)]
    {
      lines := lines + [LineWithMargin(m)];
    }

    /** `RichText::add_text`: onto the last line, opening a line without a margin first
        when there is none; the other lines stay as they were. */
    method AddText(item: Item)
      modifies this
      ensures old(lines) == [] ==> lines == [Push(NewRichLine(), item)]
      ensures old(lines) != [] ==>
                |lines| == |old(lines)| &&
                lines[..|lines| - 1] == old(lines)[..|old(lines)| - 1] &&
                lines[|lines| - 1] == Push(old(lines)[|old(lines)| - 1], item)
    {
      if lines == [] {
        lines := lines + [NewRichLine()];
      }
      var last := |lines| - 1;
      lines := lines[last := Push(lines[last], item)];
    }

    /** `fmt_styled for RichText`: one newline-terminated row per line, all at the width of
        the largest margin number (see `BlockRow` for what a row holds). */
    method Display() returns (out: string)
      ensures out == Render(BlockRows(lines, BlockWidth(lines)))
    {
      var w := BlockWidth(lines);
      out := "";
      var i := 0;
      while i < |lines|
        invariant i <= |lines|
        invariant out == Render(BlockRows(lines[..i], w))
      {
        var row := BlockRow(lines[i], w);
        BlockRowsSnoc(lines, w, i);
        RenderSnoc(BlockRows(lines[..i], w), row);
        out := out + row + "\n";
        i := i + 1;
      }
      PrefixAll(lines);
    }
  }
}
