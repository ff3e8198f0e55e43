/** The severity of a log entry (`EntryKind`), its order, its label and its colour. */
module Kinds {
  import Console
  import Text

  /** Declared in ascending order; the derived `Ord` compares declaration order. */
  datatype EntryKind = Help | Note | Warning | Error

  function Rank(k: EntryKind): nat {
    match k
    case Help => 0
    case Note => 1
    case Warning => 2
    case Error => 3
  }

  /** The derived `<=` on `EntryKind`. */
  predicate AtMost(a: EntryKind, b: EntryKind) {
    Rank(a) <= Rank(b)
  }

  /** `AtMost` is a total order: Help < Note < Warning < Error. */
  lemma AtMostIsTotalOrder(a: EntryKind, b: EntryKind, c: EntryKind)
    ensures AtMost(a, a)
    ensures AtMost(a, b) && AtMost(b, a) ==> a == b
    ensures AtMost(a, b) && AtMost(b, c) ==> AtMost(a, c)
    ensures AtMost(a, b) || AtMost(b, a)
    ensures AtMost(Help, Note) && AtMost(Note, Warning) && AtMost(Warning, Error)
  {
  }

  /** `Iterator::max` of the kinds, or `unwrap_or(Help)` when there are none. */
  function Worst(kinds: seq<EntryKind>): (r: EntryKind)
    ensures forall i :: 0 <= i < |kinds| ==> AtMost(kinds[i], r)
    ensures kinds == [] ==> r == Help
    ensures kinds != [] ==> r in kinds
  {
    if kinds == [] then Help
    else
      var rest := Worst(kinds[1..]);
      assert forall i :: 1 <= i < |kinds| ==> kinds[i] == kinds[1..][i - 1];
      if AtMost(rest, kinds[0]) then kinds[0] else rest
  }

  /** The worst kind is Error exactly when some kind is Error, and Warning exactly when
      none is Error and some is Warning. */
  lemma WorstIsErrorOrWarning(kinds: seq<EntryKind>)
    ensures Worst(kinds) == Error <==> Error in kinds
    ensures Worst(kinds) == Warning <==> Error !in kinds && Warning in kinds
  {
    var w := Worst(kinds);
    if Error in kinds {
      var i :| 0 <= i < |kinds| && kinds[i] == Error;
      assert AtMost(kinds[i], w);
    } else if Warning in kinds {
      var i :| 0 <= i < |kinds| && kinds[i] == Warning;
      assert AtMost(kinds[i], w);
    }
  }

  /** `Display for EntryKind`, without the colour. */
  function Label(k: EntryKind): (r: string)
    ensures |r| >= 4
  {
    match k
    case Help => "help"
    case Note => "note"
    case Warning => "warning"
    case Error => "error"
  }

  /** The labels tell the kinds apart. */
  lemma LabelInjective(a: EntryKind, b: EntryKind)
    requires Label(a) == Label(b)
    ensures a == b
  {
  }

  /** `EntryKind::style`: the obj in the kind's colour, made bright. */
  function Styled(k: EntryKind, obj: string): (r: Console.StyledObject)
    ensures Console.Display(r, Text.Plain) == obj
  {
    match k
    case Help => Console.Bright(Console.Cyan(Console.Style(obj)))
    case Note => Console.Bright(Console.Green(Console.Style(obj)))
    case Warning => Console.Bright(Console.Yellow(Console.Style(obj)))
    case Error => Console.Bright(Console.Red(Console.Style(obj)))
  }
}
