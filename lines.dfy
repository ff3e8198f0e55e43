/**
 * The annotation engine: spans on one source line (`AnnotationReference`),
 * annotations (`Annotation`), annotated source lines (`SourceLine`), the overlap
 * check with its early exit, the sorted insertion, and the rows a line renders to.
 */
module Lines {
  import opened Text
  import opened Wrappers
  import opened Kinds
  import opened Internals
  import Console
  import Errors

  /** A span `[position, position + len)` of a source line. */
  datatype AnnotationReference = AnnotationReference(position: nat, len: nat)

  function End(r: AnnotationReference): nat {
    r.position + r.len
  }

  /** Neither span reaches into the other; touching spans are disjoint. */
  predicate Disjoint(a: AnnotationReference, b: AnnotationReference) {
    End(a) <= b.position || End(b) <= a.position
  }

  /** The order the annotations of a line are kept in: by position, and among equal
      positions the shorter span first (see `Insert`). */
  predicate Precedes(a: AnnotationReference, b: AnnotationReference) {
    a.position < b.position || (a.position == b.position && a.len <= b.len)
  }

  datatype Annotation = Annotation(style: EntryKind, reference: AnnotationReference, text: string)

  /** The drawing cursor after the first `j` annotations of a row: the end of the `j`-th. */
  function Cursor(anns: seq<Annotation>, j: nat): nat
    requires j <= |anns|
  {
    if j == 0 then 0 else End(anns[j - 1].reference)
  }

  /** The invariant of a line: each annotation starts at or after the end of the one
      before it, so the drawing cursor never has to move back. */
  predicate Valid(anns: seq<Annotation>) {
    forall j {:trigger Cursor(anns, j)} :: 0 <= j < |anns| ==> Cursor(anns, j) <= anns[j].reference.position
  }

  /** Every annotation ends at or before the start of every later one. */
  predicate Ordered(anns: seq<Annotation>) {
    forall i, j :: 0 <= i < j < |anns| ==> End(anns[i].reference) <= anns[j].reference.position
  }

  lemma {:induction false} ValidChain(anns: seq<Annotation>, i: nat, j: nat)
    requires Valid(anns)
    requires i < j < |anns|
    ensures End(anns[i].reference) <= anns[j].reference.position
    decreases j - i
  {
    assert Cursor(anns, i + 1) <= anns[i + 1].reference.position;
    if i + 1 < j {
      ValidChain(anns, i + 1, j);
    }
  }

  /** The adjacent form of the invariant is the pairwise form. */
  lemma {:induction false} ValidIffOrdered(anns: seq<Annotation>)
    ensures Valid(anns) <==> Ordered(anns)
  {
    if Valid(anns) {
      forall i, j | 0 <= i < j < |anns|
        ensures End(anns[i].reference) <= anns[j].reference.position
      {
        ValidChain(anns, i, j);
      }
    }
    if Ordered(anns) {
      forall j | 0 <= j < |anns|
        ensures Cursor(anns, j) <= anns[j].reference.position
      {
        if j > 0 {
          assert End(anns[j - 1].reference) <= anns[j].reference.position;
        }
      }
    }
  }

  type ValidAnnotations = anns: seq<Annotation> | Valid(anns) witness []

  datatype SourceLine = SourceLine(line: nat, contents: string, annotations: ValidAnnotations)

  /** `SourceLine::new`: a line without annotations. */
  function NewSourceLine(line: nat, contents: string): (l: SourceLine)
    ensures l.line == line && l.contents == contents && l.annotations == []
  {
    SourceLine(line, contents, [])
  }

  predicate SortedByPosition(anns: seq<Annotation>) {
    forall i, j :: 0 <= i < j < |anns| ==> anns[i].reference.position <= anns[j].reference.position
  }

  predicate SortedByKey(anns: seq<Annotation>) {
    forall i, j :: 0 <= i < j < |anns| ==> Precedes(anns[i].reference, anns[j].reference)
  }

  predicate PairwiseDisjoint(anns: seq<Annotation>) {
    forall i, j :: 0 <= i < j < |anns| ==> Disjoint(anns[i].reference, anns[j].reference)
  }

  lemma {:induction false} PrecedesDisjoint(a: AnnotationReference, b: AnnotationReference)
    requires Precedes(a, b) && Disjoint(a, b)
    ensures End(a) <= b.position
  {
  }

  /** The invariant of a line is exactly: sorted (position, then length) and pairwise disjoint. */
  lemma {:induction false} ValidIffSortedAndDisjoint(anns: seq<Annotation>)
    ensures Valid(anns) <==> SortedByKey(anns) && PairwiseDisjoint(anns)
    ensures Valid(anns) ==> SortedByPosition(anns)
  {
    ValidIffOrdered(anns);
    if SortedByKey(anns) && PairwiseDisjoint(anns) {
      forall i, j | 0 <= i < j < |anns|
        ensures End(anns[i].reference) <= anns[j].reference.position
      {
        PrecedesDisjoint(anns[i].reference, anns[j].reference);
      }
    }
  }

  /** The verdict of a full scan: the new span is disjoint from every existing one. */
  predicate Fits(anns: seq<Annotation>, r: AnnotationReference) {
    forall i :: 0 <= i < |anns| ==> Disjoint(anns[i].reference, r)
  }

  /** How many leading annotations precede `a`. */
  function InsertionIndex(anns: seq<Annotation>, a: Annotation): (k: nat)
    ensures k <= |anns|
    ensures forall i :: 0 <= i < k ==> Precedes(anns[i].reference, a.reference)
    ensures k < |anns| ==> !Precedes(anns[k].reference, a.reference)
  {
    if anns == [] || !Precedes(anns[0].reference, a.reference) then 0
    else 1 + InsertionIndex(anns[1..], a)
  }

  /** `push` then stable `sort` of a sorted line: `a` goes after every annotation that
      precedes it and before the rest. */
  function Insert(anns: seq<Annotation>, a: Annotation): (r: seq<Annotation>)
    ensures |r| == |anns| + 1
    ensures multiset(r) == multiset(anns) + multiset{a}
  {
    var k := InsertionIndex(anns, a);
    assert anns == anns[..k] + anns[k..];
    anns[..k] + [a] + anns[k..]
  }

  /** In a valid line, everything from the insertion index on comes after `a`. */
  lemma {:induction false} AfterInsertionIndex(anns: seq<Annotation>, a: Annotation, m: nat)
    requires Valid(anns)
    requires InsertionIndex(anns, a) <= m < |anns|
    ensures !Precedes(anns[m].reference, a.reference)
  {
    var k := InsertionIndex(anns, a);
    if k < m {
      ValidChain(anns, k, m);
    }
  }

  /** Where each annotation of the old line ends up after an insertion at index `k`. */
  lemma {:induction false} InsertAt(anns: seq<Annotation>, a: Annotation, i: nat)
    requires i <= |anns|
    ensures var k := InsertionIndex(anns, a);
            Insert(anns, a)[i] == if i < k then anns[i] else if i == k then a else anns[i - 1]
  {
  }

  /** The adjacent form of the invariant survives an accepted insertion. */
  lemma {:induction false} InsertValid(anns: seq<Annotation>, a: Annotation)
    requires Valid(anns)
    requires Fits(anns, a.reference)
    ensures Valid(Insert(anns, a))
  {
    var k := InsertionIndex(anns, a);
    var r := Insert(anns, a);
    forall j | 0 <= j < |r|
      ensures Cursor(r, j) <= r[j].reference.position
    {
      InsertAt(anns, a, j);
      if j > 0 {
        InsertAt(anns, a, j - 1);
        if j < k {
          assert Cursor(anns, j) <= anns[j].reference.position;
        } else if j == k {
          PrecedesDisjoint(anns[j - 1].reference, a.reference);
        } else if j == k + 1 {
          AfterInsertionIndex(anns, a, k);
          assert Disjoint(anns[k].reference, a.reference);
        } else {
          assert Cursor(anns, j - 1) <= anns[j - 1].reference.position;
        }
      }
    }
  }

  /** An accepted insertion keeps the line valid: sorted, and no two spans overlap. */
  lemma {:induction false} InsertKeepsValid(anns: seq<Annotation>, a: Annotation)
    requires Valid(anns)
    requires Fits(anns, a.reference)
    ensures Valid(Insert(anns, a))
    ensures SortedByPosition(Insert(anns, a)) && PairwiseDisjoint(Insert(anns, a))
  {
    InsertValid(anns, a);
    ValidIffSortedAndDisjoint(Insert(anns, a));
  }

  /** As written, the sort compares positions only: how many leading annotations start
      at or before `a`. */
  function PositionIndex(anns: seq<Annotation>, a: Annotation): (k: nat)
    ensures k <= |anns|
    ensures forall i :: 0 <= i < k ==> anns[i].reference.position <= a.reference.position
    ensures k < |anns| ==> anns[k].reference.position > a.reference.position
  {
    if anns == [] || anns[0].reference.position > a.reference.position then 0
    else 1 + PositionIndex(anns[1..], a)
  }

  /** `push` then the stable position-only `sort` of the source. */
  function InsertAsWritten(anns: seq<Annotation>, a: Annotation): (r: seq<Annotation>)
    ensures |r| == |anns| + 1
    ensures multiset(r) == multiset(anns) + multiset{a}
  {
    var k := PositionIndex(anns, a);
    assert anns == anns[..k] + anns[k..];
    anns[..k] + [a] + anns[k..]
  }

  lemma {:induction false} InsertAsWrittenAt(anns: seq<Annotation>, a: Annotation, i: nat)
    requires i <= |anns|
    ensures var k := PositionIndex(anns, a);
            InsertAsWritten(anns, a)[i] == if i < k then anns[i] else if i == k then a else anns[i - 1]
  {
  }

  /** The position-only sort keeps what the source asserts: sorted by position, pairwise disjoint. */
  lemma {:induction false} AsWrittenKeepsSortedDisjoint(anns: seq<Annotation>, a: Annotation)
    requires SortedByPosition(anns) && PairwiseDisjoint(anns)
    requires Fits(anns, a.reference)
    ensures SortedByPosition(InsertAsWritten(anns, a)) && PairwiseDisjoint(InsertAsWritten(anns, a))
  {
    var k := PositionIndex(anns, a);
    var r := InsertAsWritten(anns, a);
    forall i, j | 0 <= i < j < |r|
      ensures r[i].reference.position <= r[j].reference.position
      ensures Disjoint(r[i].reference, r[j].reference)
    {
      InsertAsWrittenAt(anns, a, i);
      InsertAsWrittenAt(anns, a, j);
      if i == k {
        assert anns[k].reference.position <= anns[j - 1].reference.position;
      }
    }
  }

  /** A zero-length span at the start of an existing span passes the overlap check, and
      the position-only sort places it after that span: the drawing cursor (8) is then
      past the next position (5), where the source computes `5 - 8` on `usize`. */
  lemma AsWrittenPassesCursor()
    ensures var first := Annotation(Warning, AnnotationReference(5, 3), "");
            var second := Annotation(Warning, AnnotationReference(5, 0), "");
            Fits([first], second.reference) &&
            InsertAsWritten([first], second) == [first, second] &&
            End(first.reference) > second.reference.position &&
            !Valid(InsertAsWritten([first], second))
  {
    var first := Annotation(Warning, AnnotationReference(5, 3), "");
    var second := Annotation(Warning, AnnotationReference(5, 0), "");
    assert PositionIndex([first], second) == 1;
    assert [first][..1] + [second] + [first][1..] == [first, second];
    assert Cursor([first, second], 1) == 8;
  }

  /** With the length as tie-break the same two annotations come out drawable. */
  lemma InsertOrdersZeroLengthFirst()
    ensures var first := Annotation(Warning, AnnotationReference(5, 3), "");
            var second := Annotation(Warning, AnnotationReference(5, 0), "");
            Insert([first], second) == [second, first] && Valid(Insert([first], second))
  {
    var first := Annotation(Warning, AnnotationReference(5, 3), "");
    var second := Annotation(Warning, AnnotationReference(5, 0), "");
    assert InsertionIndex([first], second) == 0;
    assert [first][..0] + [second] + [first][0..] == [second, first];
  }

  /** Given the invariant, a scan may stop at the first annotation that starts at or after
      the end of the new span: every later one starts there too, so the verdict of the
      full scan is already known. */
  lemma {:induction false} EarlyExitSound(anns: seq<Annotation>, r: AnnotationReference, i: nat)
    requires Valid(anns)
    requires i < |anns|
    requires Fits(anns[..i], r)
    requires End(r) <= anns[i].reference.position
    ensures Fits(anns, r)
  {
    forall j | 0 <= j < |anns|
      ensures Disjoint(anns[j].reference, r)
    {
      if j < i {
        assert anns[..i][j] == anns[j];
      } else if i < j {
        ValidChain(anns, i, j);
      }
    }
  }

  /** The line with `a` added in its place, for a span that fits. */
  function AddAnnotation(line: SourceLine, a: Annotation): (l: SourceLine)
    requires Fits(line.annotations, a.reference)
  {
    InsertKeepsValid(line.annotations, a);
    line.(annotations := Insert(line.annotations, a))
  }

  /** A span placed at or after the end of the last one fits and goes to the end. */
  lemma {:induction false} AddAtEnd(line: SourceLine, a: Annotation)
    requires Cursor(line.annotations, |line.annotations|) <= a.reference.position
    ensures Fits(line.annotations, a.reference)
    ensures AddAnnotation(line, a).annotations == line.annotations + [a]
  {
    var anns := line.annotations;
    forall i | 0 <= i < |anns|
      ensures End(anns[i].reference) <= a.reference.position
    {
      if i + 1 < |anns| {
        ValidChain(anns, i, |anns| - 1);
      }
    }
    InsertionIndexAtEnd(anns, a);
  }

  lemma {:induction false} InsertionIndexAtEnd(anns: seq<Annotation>, a: Annotation)
    requires forall i :: 0 <= i < |anns| ==> End(anns[i].reference) <= a.reference.position
    ensures InsertionIndex(anns, a) == |anns|
    ensures Insert(anns, a) == anns + [a]
  {
    if anns != [] {
      assert Precedes(anns[0].reference, a.reference) by {
        assert End(anns[0].reference) <= a.reference.position;
      }
      assert forall i :: 0 <= i < |anns[1..]| ==> anns[1..][i] == anns[i + 1];
      InsertionIndexAtEnd(anns[1..], a);
    }
    assert anns[..|anns|] == anns;
  }

  /** `SourceLine::annotate`: scan left to right, skipping annotations that end at or before
      the new span and stopping at the first that starts at or after its end; any other
      annotation overlaps. An accepted span is inserted in the order of `Precedes`
      (position, then length), not the source's position-only order; a rejected one leaves
      the line as it was (the caller keeps `line`). */
  method Annotate(line: SourceLine, style: EntryKind, reference: AnnotationReference, text: string)
    returns (r: Result<SourceLine, Errors.ErrorKind>)
    ensures Fits(line.annotations, reference) ==>
              r == Success(AddAnnotation(line, Annotation(style, reference, text)))
    ensures !Fits(line.annotations, reference) ==> r == Failure(Errors.OverlappingAnnotation)
  {
    var anns := line.annotations;
    var i := 0;
    while i < |anns|
      invariant i <= |anns|
      invariant Fits(anns[..i], reference)
    {
      var previous := anns[i].reference;
      if End(previous) <= reference.position {
        assert anns[..i + 1] == anns[..i] + [anns[i]];
        i := i + 1;
        continue;
      }
      if End(reference) <= previous.position {
        EarlyExitSound(anns, reference, i);
        break;
      }
      assert !Disjoint(anns[i].reference, reference);
      return Failure(Errors.OverlappingAnnotation);
    }
    if i == |anns| {
      assert anns[..i] == anns;
    }
    r := Success(AddAnnotation(line, Annotation(style, reference, text)));
  }

  // ---------------------------------------------------------------------------
  // Rendering (`Display for SourceLine`)

  /** `Annotation::advance`: blanks from the cursor up to the `j`-th annotation's position. */
  function Advance(anns: seq<Annotation>, j: nat): (r: string)
    requires Valid(anns)
    requires j < |anns|
    ensures Cursor(anns, j) + |r| == anns[j].reference.position
  {
    Spaces(anns[j].reference.position - Cursor(anns, j))
  }

  /** `Annotation::draw_underline` for the `j`-th annotation. */
  function UnderlinePiece(anns: seq<Annotation>, j: nat): string
    requires Valid(anns)
    requires j < |anns|
  {
    Advance(anns, j) + AnnotationUnderline(anns[j].style, anns[j].reference.len)
  }

  /** The underlines of the first `n` annotations, left to right. */
  function Underlines(anns: seq<Annotation>, n: nat): string
    requires Valid(anns)
    requires n <= |anns|
  {
    if n == 0 then [] else Underlines(anns, n - 1) + UnderlinePiece(anns, n - 1)
  }

  /** The stem of `draw_text_arrow`: the styled bar padded to the span's length, or
      blanks if there is no label (styling leaves the text unchanged). */
  function TextArrow(a: Annotation): string {
    if |a.text| > 0 then Pad("|", ' ', Left, a.reference.len)
    else Spaces(a.reference.len)
  }

  /** `Annotation::draw_text_arrow` for the `j`-th annotation. */
  function ArrowPiece(anns: seq<Annotation>, j: nat): string
    requires Valid(anns)
    requires j < |anns|
  {
    Advance(anns, j) + TextArrow(anns[j])
  }

  /** The stems of the first `n` annotations, left to right. */
  function Arrows(anns: seq<Annotation>, n: nat): string
    requires Valid(anns)
    requires n <= |anns|
  {
    if n == 0 then [] else Arrows(anns, n - 1) + ArrowPiece(anns, n - 1)
  }

  /** The empty margin `{: >w$} |`. */
  function Gutter(w: nat): (r: string)
    ensures |r| == w + 2
  {
    Spaces(w) + " " + LineStart()
  }

  /** The numbered row holding the source text. */
  function SourceRow(line: SourceLine, w: nat): string {
    Pad(NatToString(line.line), ' ', Left, w) + " " + LineStart() + " " + line.contents
  }

  /** The underline row, with the rightmost label inline after it. */
  function UnderlineRow(anns: seq<Annotation>, w: nat): string
    requires Valid(anns)
    requires |anns| > 0
  {
    Gutter(w) + Underlines(anns, |anns|) + " " + anns[|anns| - 1].text
  }

  /** The stem row drawn for the `i`-th annotation: stems of it and of all annotations to its left. */
  function StemRow(anns: seq<Annotation>, i: nat, w: nat): string
    requires Valid(anns)
    requires i < |anns|
  {
    Gutter(w) + Arrows(anns, i + 1)
  }

  /** The label row of the `i`-th annotation: the stems to its left, then its label at its position. */
  function LabelRow(anns: seq<Annotation>, i: nat, w: nat): string
    requires Valid(anns)
    requires i < |anns|
  {
    Gutter(w) + Arrows(anns, i) + Advance(anns, i) + anns[i].text
  }

  /** The order in which call-out rows are written: annotations are popped from the right,
      each giving its stem row and then its label row. */
  function PopOrder<R>(stems: seq<R>, labels: seq<R>): (r: seq<R>)
    requires |stems| == |labels|
    ensures |r| == 2 * |stems|
    decreases |stems|
  {
    if |stems| == 0 then []
    else [stems[|stems| - 1], labels[|labels| - 1]] + PopOrder(stems[..|stems| - 1], labels[..|labels| - 1])
  }

  /** The call-out rows for the first `n` annotations. */
  function CallOuts(anns: seq<Annotation>, n: nat, w: nat): seq<string>
    requires Valid(anns)
    requires n <= |anns|
  {
    PopOrder(seq(n, i requires 0 <= i < n => StemRow(anns, i, w)), seq(n, i requires 0 <= i < n => LabelRow(anns, i, w)))
  }

  /** `f.width()`, or the digit count of the line's own number. */
  function LineWidth(line: SourceLine, width: Option<nat>): nat {
    width.GetOr(Digits(line.line))
  }

  /** The rows `Display for SourceLine` writes, each ended by a newline. */
  function LineRows(line: SourceLine, width: Option<nat>): seq<string> {
    if |line.annotations| == 0 then [SourceRow(line, LineWidth(line, width))]
    else [SourceRow(line, LineWidth(line, width))]
         + ([UnderlineRow(line.annotations, LineWidth(line, width))]
            + CallOuts(line.annotations, |line.annotations| - 1, LineWidth(line, width)))
  }

  // One-step unfoldings and index facts, used below instead of letting the solver unfold.

  lemma UnderlinesStep(anns: seq<Annotation>, n: nat)
    requires Valid(anns)
    requires 0 < n <= |anns|
    ensures Underlines(anns, n) == Underlines(anns, n - 1) + (Advance(anns, n - 1)
              + AnnotationUnderline(anns[n - 1].style, anns[n - 1].reference.len))
  {
  }

  lemma ArrowsStep(anns: seq<Annotation>, n: nat)
    requires Valid(anns)
    requires 0 < n <= |anns|
    ensures Arrows(anns, n) == Arrows(anns, n - 1) + (Advance(anns, n - 1) + TextArrow(anns[n - 1]))
  {
  }

  /** A line without annotations is one row; a line with k annotations is 2k rows. */
  lemma {:induction false} LineRowCount(line: SourceLine, width: Option<nat>)
    ensures |LineRows(line, width)| == if |line.annotations| == 0 then 1 else 2 * |line.annotations|
  {
  }

  lemma {:induction false} UnderlinesLength(anns: seq<Annotation>, n: nat)
    requires Valid(anns)
    requires n <= |anns|
    ensures |Underlines(anns, n)| == Cursor(anns, n)
  {
    if n > 0 {
      UnderlinesLength(anns, n - 1);
      UnderlinesStep(anns, n);
    }
  }

  /** The last of the first `n` underline pieces starts at the cursor of the `n - 1` before it. */
  lemma UnderlinesLast(anns: seq<Annotation>, n: nat, c: nat)
    requires Valid(anns)
    requires 0 < n <= |anns|
    requires Cursor(anns, n - 1) <= c < End(anns[n - 1].reference)
    ensures c < |Underlines(anns, n)|
    ensures Underlines(anns, n)[c] == UnderlinePiece(anns, n - 1)[c - Cursor(anns, n - 1)]
  {
    UnderlinesLength(anns, n - 1);
  }

  /** An annotation ends at or before the cursor of any later row position. */
  lemma CursorAfter(anns: seq<Annotation>, k: nat, m: nat)
    requires Valid(anns)
    requires k < m <= |anns|
    ensures End(anns[k].reference) <= Cursor(anns, m)
  {
    if k < m - 1 {
      ValidChain(anns, k, m - 1);
    }
  }

  /** The underlines of the first `n` extend those of the first `n - 1`. */
  lemma UnderlinesFront(anns: seq<Annotation>, n: nat, c: nat)
    requires Valid(anns)
    requires 0 < n <= |anns|
    requires c < Cursor(anns, n - 1)
    ensures c < |Underlines(anns, n - 1)| && c < |Underlines(anns, n)|
    ensures Underlines(anns, n)[c] == Underlines(anns, n - 1)[c]
  {
    UnderlinesLength(anns, n - 1);
  }

  /** Inside the `j`-th span the underline row holds the glyph of its kind. */
  lemma {:induction false} UnderlineGlyphAt(anns: seq<Annotation>, n: nat, j: nat, c: nat)
    requires Valid(anns)
    requires j < n <= |anns|
    requires anns[j].reference.position <= c < End(anns[j].reference)
    ensures c < |Underlines(anns, n)| && Underlines(anns, n)[c] == Glyph(anns[j].style)
  {
    if j < n - 1 {
      CursorAfter(anns, j, n - 1);
      UnderlineGlyphAt(anns, n - 1, j, c);
      UnderlinesFront(anns, n, c);
    } else {
      var adv := Advance(anns, j);
      UnderlinesLast(anns, n, c);
      IndexInSecond(adv, AnnotationUnderline(anns[j].style, anns[j].reference.len), c - Cursor(anns, j));
      UnderlineAt(anns[j].style, anns[j].reference.len, c - Cursor(anns, j) - |adv|);
    }
  }

  /** Between the end of the previous span and the start of the `j`-th, the underline row is blank. */
  lemma {:induction false} UnderlineGapAt(anns: seq<Annotation>, n: nat, j: nat, c: nat)
    requires Valid(anns)
    requires j < n <= |anns|
    requires Cursor(anns, j) <= c < anns[j].reference.position
    ensures c < |Underlines(anns, n)| && Underlines(anns, n)[c] == ' '
  {
    if j < n - 1 {
      CursorAfter(anns, j, n - 1);
      UnderlineGapAt(anns, n - 1, j, c);
      UnderlinesFront(anns, n, c);
    } else {
      var adv := Advance(anns, j);
      UnderlinesLast(anns, n, c);
      IndexInFront(adv, AnnotationUnderline(anns[j].style, anns[j].reference.len), c - Cursor(anns, j));
      RepeatAt(' ', |adv|, c - Cursor(anns, j));
    }
  }

  /** No labelled annotation has an empty span. */
  predicate LabelledSpansNonEmpty(anns: seq<Annotation>) {
    forall k :: 0 <= k < |anns| && anns[k].text != [] ==> anns[k].reference.len > 0
  }

  /** The stem of an annotation is as wide as its span, unless it is labelled and empty. */
  lemma TextArrowLength(a: Annotation)
    ensures |TextArrow(a)| == if a.text != [] && a.reference.len == 0 then 1 else a.reference.len
  {
  }

  lemma {:induction false} ArrowsLength(anns: seq<Annotation>, n: nat)
    requires Valid(anns)
    requires n <= |anns|
    requires LabelledSpansNonEmpty(anns)
    ensures |Arrows(anns, n)| == Cursor(anns, n)
  {
    if n > 0 {
      ArrowsLength(anns, n - 1);
      ArrowsStep(anns, n);
      TextArrowLength(anns[n - 1]);
    }
  }

  /** The last of the first `n` stem pieces starts at the cursor of the `n - 1` before it. */
  lemma ArrowsLast(anns: seq<Annotation>, n: nat, c: nat)
    requires Valid(anns)
    requires 0 < n <= |anns|
    requires LabelledSpansNonEmpty(anns)
    requires Cursor(anns, n - 1) <= c < End(anns[n - 1].reference)
    ensures c < |Arrows(anns, n)|
    ensures Arrows(anns, n)[c] == ArrowPiece(anns, n - 1)[c - Cursor(anns, n - 1)]
  {
    ArrowsLength(anns, n - 1);
    TextArrowLength(anns[n - 1]);
  }

  /** The stems of the first `n` extend those of the first `n - 1`. */
  lemma ArrowsFront(anns: seq<Annotation>, n: nat, c: nat)
    requires Valid(anns)
    requires 0 < n <= |anns|
    requires LabelledSpansNonEmpty(anns)
    requires c < Cursor(anns, n - 1)
    ensures c < |Arrows(anns, n - 1)| && c < |Arrows(anns, n)|
    ensures Arrows(anns, n)[c] == Arrows(anns, n - 1)[c]
  {
    ArrowsLength(anns, n - 1);
  }

  /** The stem of a labelled annotation is a '|' at its position. */
  lemma {:induction false} StemAt(anns: seq<Annotation>, n: nat, k: nat)
    requires Valid(anns)
    requires k < n <= |anns|
    requires LabelledSpansNonEmpty(anns)
    requires anns[k].text != []
    ensures anns[k].reference.position < |Arrows(anns, n)|
    ensures Arrows(anns, n)[anns[k].reference.position] == '|'
  {
    var p := anns[k].reference.position;
    if k < n - 1 {
      CursorAfter(anns, k, n - 1);
      StemAt(anns, n - 1, k);
      ArrowsFront(anns, n, p);
    } else {
      var adv := Advance(anns, k);
      ArrowsLast(anns, n, p);
      IndexInSecond(adv, TextArrow(anns[k]), p - Cursor(anns, k));
      PadLeftAt("|", ' ', anns[k].reference.len, 0);
    }
  }

  /** An unlabelled annotation leaves its span blank in the stem rows. */
  lemma {:induction false} NoStemAt(anns: seq<Annotation>, n: nat, k: nat, c: nat)
    requires Valid(anns)
    requires k < n <= |anns|
    requires LabelledSpansNonEmpty(anns)
    requires anns[k].text == []
    requires anns[k].reference.position <= c < End(anns[k].reference)
    ensures c < |Arrows(anns, n)| && Arrows(anns, n)[c] == ' '
  {
    if k < n - 1 {
      CursorAfter(anns, k, n - 1);
      NoStemAt(anns, n - 1, k, c);
      ArrowsFront(anns, n, c);
    } else {
      var adv := Advance(anns, k);
      ArrowsLast(anns, n, c);
      IndexInSecond(adv, TextArrow(anns[k]), c - Cursor(anns, k));
      RepeatAt(' ', anns[k].reference.len, c - Cursor(anns, k) - |adv|);
    }
  }

  /** The number fits the column: a row has a blank then the bar at columns `w` and `w + 1`. */
  predicate BarAt(row: string, w: nat) {
    |row| >= w + 2 && row[w] == ' ' && row[w + 1] == '|'
  }

  /** Appending to a row keeps its bar. */
  lemma BarExtends(row: string, rest: string, w: nat)
    requires BarAt(row, w)
    ensures BarAt(row + rest, w)
  {
  }

  /** The empty margin ends in its bar. */
  lemma {:induction false} GutterBar(w: nat)
    ensures BarAt(Gutter(w), w)
  {
    var blank := Spaces(w);
    assert Gutter(w) == blank + " " + LineStart();
    IndexInFront(blank + " ", LineStart(), w);
  }

  lemma {:induction false} StemRowBar(anns: seq<Annotation>, i: nat, w: nat)
    requires Valid(anns)
    requires i < |anns|
    ensures BarAt(StemRow(anns, i, w), w)
  {
    GutterBar(w);
    BarExtends(Gutter(w), Arrows(anns, i + 1), w);
  }

  lemma {:induction false} LabelRowBar(anns: seq<Annotation>, i: nat, w: nat)
    requires Valid(anns)
    requires i < |anns|
    ensures BarAt(LabelRow(anns, i, w), w)
  {
    GutterBar(w);
    BarExtends(Gutter(w), Arrows(anns, i), w);
    BarExtends(Gutter(w) + Arrows(anns, i), Advance(anns, i), w);
    BarExtends(Gutter(w) + Arrows(anns, i) + Advance(anns, i), anns[i].text, w);
  }

  /** The source row: the number left-aligned in `w` columns, then " | " and the text. */
  lemma {:induction false} SourceRowAt(line: SourceLine, w: nat, i: nat)
    requires Digits(line.line) <= w
    requires i < |SourceRow(line, w)|
    ensures |SourceRow(line, w)| == w + 3 + |line.contents|
    ensures i == w ==> SourceRow(line, w)[i] == ' '
    ensures i == w + 1 ==> SourceRow(line, w)[i] == '|'
    ensures w + 3 <= i ==> SourceRow(line, w)[i] == line.contents[i - w - 3]
  {
    var pad := Pad(NatToString(line.line), ' ', Left, w);
    var sep := " " + LineStart() + " ";
    assert SourceRow(line, w) == pad + sep + line.contents;
    assert |pad| == w;
    if i >= w + 3 {
      IndexInBack(pad, sep, line.contents, i);
      Assoc(pad, sep, line.contents);
    } else if i >= w {
      IndexInMiddle(pad, sep, line.contents, i);
      Assoc(pad, sep, line.contents);
      assert sep == [' ', '|', ' '];
    }
  }

  lemma {:induction false} SourceRowBar(line: SourceLine, w: nat)
    requires Digits(line.line) <= w
    ensures BarAt(SourceRow(line, w), w)
  {
    SourceRowAt(line, w, w);
    SourceRowAt(line, w, w + 1);
  }

  lemma {:induction false} UnderlineRowBar(anns: seq<Annotation>, w: nat)
    requires Valid(anns)
    requires |anns| > 0
    ensures BarAt(UnderlineRow(anns, w), w)
  {
    GutterBar(w);
    BarExtends(Gutter(w), Underlines(anns, |anns|), w);
    BarExtends(Gutter(w) + Underlines(anns, |anns|), " ", w);
    BarExtends(Gutter(w) + Underlines(anns, |anns|) + " ", anns[|anns| - 1].text, w);
  }

  /** The first rows of a line: the source row, then (with annotations) the underline row. */
  lemma LineRowsFront(line: SourceLine, width: Option<nat>)
    ensures |LineRows(line, width)| >= 1
    ensures LineRows(line, width)[0] == SourceRow(line, LineWidth(line, width))
    ensures |line.annotations| > 0 ==>
              (|LineRows(line, width)| >= 2 &&
               LineRows(line, width)[1] == UnderlineRow(line.annotations, LineWidth(line, width)))
  {
  }

  /** An index past two leading rows. */
  lemma TwoThenIndex<R>(a: R, b: R, rest: seq<R>, k: nat)
    requires 2 <= k < 2 + |rest|
    ensures ([a] + ([b] + rest))[k] == rest[k - 2]
  {
  }

  /** The rows after the underline row are the call-outs. */
  lemma {:induction false} LineRowsBack(line: SourceLine, w: nat, k: nat)
    requires |line.annotations| > 0
    requires 2 <= k < 2 * |line.annotations|
    ensures |LineRows(line, Some(w))| == 2 * |line.annotations|
    ensures LineRows(line, Some(w))[k] == CallOuts(line.annotations, |line.annotations| - 1, w)[k - 2]
  {
    var anns := line.annotations;
    var callOuts := CallOuts(anns, |anns| - 1, w);
    assert LineRows(line, Some(w)) == [SourceRow(line, w)] + ([UnderlineRow(anns, w)] + callOuts);
    TwoThenIndex(SourceRow(line, w), UnderlineRow(anns, w), callOuts, k);
  }

  /** Each call-out row is a stem row or a label row, and carries the margin bar. */
  lemma {:induction false} CallOutBar(anns: seq<Annotation>, n: nat, w: nat, k: nat)
    requires Valid(anns)
    requires n <= |anns|
    requires k < 2 * n
    ensures BarAt(CallOuts(anns, n, w)[k], w)
  {
    var stems := seq(n, i requires 0 <= i < n => StemRow(anns, i, w));
    var labels := seq(n, i requires 0 <= i < n => LabelRow(anns, i, w));
    var m := n - 1 - k / 2;
    PopOrderAt(stems, labels, m, 2 * (n - 1 - m));
    if k % 2 == 0 {
      assert k == 2 * (n - 1 - m);
      StemRowBar(anns, m, w);
    } else {
      assert k == 2 * (n - 1 - m) + 1;
      LabelRowBar(anns, m, w);
    }
  }

  /** Every row a line writes carries the margin bar, once its number fits the margin. */
  lemma {:induction false} LineRowsBar(line: SourceLine, w: nat, k: nat)
    requires Digits(line.line) <= w
    requires k < |LineRows(line, Some(w))|
    ensures BarAt(LineRows(line, Some(w))[k], w)
  {
    LineRowsFront(line, Some(w));
    if k == 0 {
      SourceRowBar(line, w);
    } else if k == 1 {
      UnderlineRowBar(line.annotations, w);
    } else {
      LineRowCount(line, Some(w));
      LineRowsBack(line, w, k);
      CallOutBar(line.annotations, |line.annotations| - 1, w, k - 2);
    }
  }

  /** The underline row is the margin, then the underlines starting at column `w + 2`. */
  lemma {:induction false} UnderlineRowAt(anns: seq<Annotation>, w: nat, c: nat)
    requires Valid(anns)
    requires |anns| > 0
    requires c < |Underlines(anns, |anns|)|
    ensures w + 2 + c < |UnderlineRow(anns, w)|
    ensures UnderlineRow(anns, w)[w + 2 + c] == Underlines(anns, |anns|)[c]
  {
    var u := Underlines(anns, |anns|);
    var rest := " " + anns[|anns| - 1].text;
    Assoc(Gutter(w) + u, " ", anns[|anns| - 1].text);
    Assoc(Gutter(w), u, rest);
    IndexInMiddle(Gutter(w), u, rest, w + 2 + c);
  }

  /** Column alignment: an underline at 1-based column `c` stands under the `c`-th
      character of the source text (rows 0 and 1 of the line, see `LineRowsFront`),
      because the source row has one more separator space than the underline row. */
  lemma {:induction false} UnderlineUnderColumn(line: SourceLine, w: nat, j: nat, c: nat)
    requires Digits(line.line) <= w
    requires j < |line.annotations|
    requires line.annotations[j].reference.position <= c < End(line.annotations[j].reference)
    requires 1 <= c <= |line.contents|
    ensures w + 2 + c < |SourceRow(line, w)| && SourceRow(line, w)[w + 2 + c] == line.contents[c - 1]
    ensures w + 2 + c < |UnderlineRow(line.annotations, w)|
    ensures UnderlineRow(line.annotations, w)[w + 2 + c] == Glyph(line.annotations[j].style)
  {
    SourceRowAt(line, w, w + 2 + c);
    UnderlineGlyphAt(line.annotations, |line.annotations|, j, c);
    UnderlineRowAt(line.annotations, w, c);
  }

  /** One `draw_underline` at cursor `offset` extends the underlines by the next annotation. */
  lemma {:induction false} UnderlinesLoopStep(anns: seq<Annotation>, i: nat, offset: nat, s: string)
    requires Valid(anns)
    requires i < |anns|
    requires offset == Cursor(anns, i)
    requires s == Underlines(anns, i)
    ensures s + (Spaces(anns[i].reference.position - offset)
                 + AnnotationUnderline(anns[i].style, anns[i].reference.len)) == Underlines(anns, i + 1)
    ensures offset + (anns[i].reference.position - offset) + anns[i].reference.len == Cursor(anns, i + 1)
  {
    UnderlinesStep(anns, i + 1);
  }

  /** One `draw_text_arrow` at cursor `offset` extends the stems by the next annotation. */
  lemma {:induction false} ArrowsLoopStep(anns: seq<Annotation>, j: nat, offset: nat, s: string)
    requires Valid(anns)
    requires j < |anns|
    requires offset == Cursor(anns, j)
    requires s == Arrows(anns, j)
    ensures s + (Spaces(anns[j].reference.position - offset) + TextArrow(anns[j])) == Arrows(anns, j + 1)
    ensures offset + (anns[j].reference.position - offset) + anns[j].reference.len == Cursor(anns, j + 1)
  {
    ArrowsStep(anns, j + 1);
  }

  /** The underline loop of `Display for SourceLine` (`draw_underline` for every annotation). */
  method DrawUnderlines(anns: seq<Annotation>) returns (s: string)
    requires Valid(anns)
    ensures s == Underlines(anns, |anns|)
  {
    s := [];
    var offset := 0;
    var i := 0;
    while i < |anns|
      invariant 0 <= i <= |anns|
      invariant offset == Cursor(anns, i)
      invariant s == Underlines(anns, i)
    {
      UnderlinesLoopStep(anns, i, offset, s);
      s := s + (Spaces(anns[i].reference.position - offset)
                + AnnotationUnderline(anns[i].style, anns[i].reference.len));
      offset := offset + (anns[i].reference.position - offset) + anns[i].reference.len;
      i := i + 1;
    }
  }

  /** A loop of `draw_text_arrow` over the first `m` annotations; returns the final cursor too. */
  method DrawArrows(anns: seq<Annotation>, m: nat) returns (s: string, offset: nat)
    requires Valid(anns)
    requires m <= |anns|
    ensures s == Arrows(anns, m) && offset == Cursor(anns, m)
  {
    s := [];
    offset := 0;
    var j := 0;
    while j < m
      invariant 0 <= j <= m
      invariant offset == Cursor(anns, j)
      invariant s == Arrows(anns, j)
    {
      ArrowsLoopStep(anns, j, offset, s);
      s := s + (Spaces(anns[j].reference.position - offset) + TextArrow(anns[j]));
      offset := offset + (anns[j].reference.position - offset) + anns[j].reference.len;
      j := j + 1;
    }
  }

  /** The two rows written for a popped annotation: its stem row and its label row. */
  method DrawCallOut(anns: seq<Annotation>, m: nat, w: nat) returns (stem: string, labelRow: string)
    requires Valid(anns)
    requires m < |anns|
    ensures stem == StemRow(anns, m, w) && labelRow == LabelRow(anns, m, w)
  {
    var ann := anns[m];
    var arrows, offset := DrawArrows(anns, m);
    var advance := Spaces(ann.reference.position - offset);
    ArrowsStep(anns, m + 1);
    stem := Gutter(w) + (arrows + (advance + TextArrow(ann)));
    Assoc(Gutter(w), arrows, advance + TextArrow(ann));
    labelRow := Gutter(w) + arrows + advance + ann.text;
  }

  /** Where the two rows of the `m`-th entry sit in the pop order. */
  lemma {:induction false} PopOrderAt<R>(stems: seq<R>, labels: seq<R>, m: nat, k: nat)
    requires |stems| == |labels|
    requires m < |stems|
    requires k == 2 * (|stems| - 1 - m)
    ensures PopOrder(stems, labels)[k] == stems[m]
    ensures PopOrder(stems, labels)[k + 1] == labels[m]
    decreases |stems|
  {
    var n := |stems|;
    if m < n - 1 {
      PopOrderAt(stems[..n - 1], labels[..n - 1], m, k - 2);
    }
  }

  /** Popping the `m`-th entry writes the next two rows of the pop order. */
  lemma PopOrderStep<R>(stems: seq<R>, labels: seq<R>, m: nat, k: nat)
    requires |stems| == |labels|
    requires m < |stems|
    requires k == 2 * (|stems| - 1 - m)
    ensures PopOrder(stems, labels)[..k] + [stems[m]] + [labels[m]] == PopOrder(stems, labels)[..k + 2]
  {
    PopOrderAt(stems, labels, m, k);
  }

  /** The call-out rows of the first `n` annotations, popped from the right. */
  method DrawCallOuts(anns: seq<Annotation>, n: nat, w: nat) returns (out: string)
    requires Valid(anns)
    requires n <= |anns|
    ensures out == Render(CallOuts(anns, n, w))
  {
    ghost var stems := seq(n, i requires 0 <= i < n => StemRow(anns, i, w));
    ghost var labels := seq(n, i requires 0 <= i < n => LabelRow(anns, i, w));
    ghost var rows := PopOrder(stems, labels);
    ghost var done: seq<string> := [];
    ghost var k: nat := 0;
    out := [];
    var pending: nat := n;
    while pending > 0
      invariant pending <= n
      invariant k == 2 * (n - pending)
      invariant done == rows[..k]
      invariant out == Render(done)
      decreases pending
    {
      var stem, labelRow := DrawCallOut(anns, pending - 1, w);
      PopOrderStep(stems, labels, pending - 1, k);
      RenderSnocTwo(done, stem, labelRow);
      done := done + [stem] + [labelRow];
      out := out + stem + "\n" + labelRow + "\n";
      pending := pending - 1;
      k := k + 2;
    }
    assert done == rows;
  }

  /** A bare line renders as its source row. */
  lemma {:induction false} BareLineRendered(line: SourceLine, width: Option<nat>, w: nat)
    requires |line.annotations| == 0
    requires w == LineWidth(line, width)
    ensures SourceRow(line, w) + "\n" == Render(LineRows(line, width))
  {
    RenderOne(SourceRow(line, w));
  }

  /** An annotated line renders as its source row, its underline row, then its call-outs. */
  lemma {:induction false} AnnotatedLineRendered(line: SourceLine, width: Option<nat>, w: nat, underlines: string,
                                                 pending: nat, callOuts: string)
    requires |line.annotations| > 0
    requires w == LineWidth(line, width)
    requires underlines == Underlines(line.annotations, |line.annotations|)
    requires pending == |line.annotations| - 1
    requires callOuts == Render(CallOuts(line.annotations, pending, w))
    ensures SourceRow(line, w) + "\n"
            + (Gutter(w) + underlines + " " + line.annotations[|line.annotations| - 1].text) + "\n"
            + callOuts == Render(LineRows(line, width))
  {
    RenderTwoThen(SourceRow(line, w), UnderlineRow(line.annotations, w), CallOuts(line.annotations, pending, w));
  }

  /** `Display for SourceLine`: the source row, the underline row, then the staggered
      call-outs, written while annotations are popped from the right. */
  method RenderLine(line: SourceLine, width: Option<nat>) returns (out: string)
    ensures out == Render(LineRows(line, width))
  {
    var w := LineWidth(line, width);
    out := SourceRow(line, w) + "\n";
    if |line.annotations| == 0 {
      BareLineRendered(line, width, w);
      return;
    }
    var underlines := DrawUnderlines(line.annotations);
    out := out + (Gutter(w) + underlines + " " + line.annotations[|line.annotations| - 1].text) + "\n";
    var pending := |line.annotations| - 1;
    var callOuts := DrawCallOuts(line.annotations, pending, w);
    out := out + callOuts;
    AnnotatedLineRendered(line, width, w, underlines, pending, callOuts);
  }
}
