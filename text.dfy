/**
 * Text primitives shared by every renderer: repetition, Rust's `Formatter::pad`
 * (minimum width, fill character, alignment, never truncating), decimal
 * formatting of `usize`, `str::lines`, and the joining of newline-terminated rows.
 */
module Text {
  import opened Wrappers

  /** `n` copies of `c`. */
  function Repeat(c: char, n: nat): (r: string)
    ensures |r| == n
  {
    if n == 0 then [] else Repeat(c, n - 1) + [c]
  }

  /** Every character of `Repeat(c, n)` is `c`. */
  lemma {:induction false} RepeatAt(c: char, n: nat, i: nat)
    requires i < n
    ensures Repeat(c, n)[i] == c
  {
    if i < n - 1 {
      RepeatAt(c, n - 1, i);
    }
  }

  /** `n` blanks: what `{: >n$}` writes for the empty string (see `PadEmpty`). */
  function Spaces(n: nat): (r: string)
    ensures |r| == n
  {
    Repeat(' ', n)
  }

  datatype Align = Left | Right

  /** A format specification as far as padding goes: `{:<fill><align><width>}`. */
  datatype Spec = Spec(fill: char, align: Align, width: Option<nat>)

  /** The specification of a plain `{}`. */
  const Plain := Spec(' ', Left, None)

  /** `{: <w$}` (or `{}` when `width` is `None`): what `Display for str` uses by default. */
  function LeftIn(width: Option<nat>): Spec {
    Spec(' ', Left, width)
  }

  /** The number of fill characters `Formatter::pad` writes to bring `s` up to `width`. */
  function Padding(s: string, width: nat): nat {
    if |s| < width then width - |s| else 0
  }

  /** `Formatter::pad`: fill up to the minimum width, after `s` for left alignment and
      before it for right alignment; a longer `s` is written whole, never truncated. */
  function Pad(s: string, fill: char, align: Align, width: nat): (r: string)
    ensures |r| == if |s| < width then width else |s|
  {
    if align == Left then s + Repeat(fill, Padding(s, width)) else Repeat(fill, Padding(s, width)) + s
  }

  /** Left alignment: `s` first, then fill. */
  lemma PadLeftAt(s: string, fill: char, width: nat, i: nat)
    requires i < |Pad(s, fill, Left, width)|
    ensures Pad(s, fill, Left, width)[i] == if i < |s| then s[i] else fill
  {
    if i >= |s| {
      RepeatAt(fill, Padding(s, width), i - |s|);
    }
  }

  /** Right alignment: fill first, then `s`. */
  lemma PadRightAt(s: string, fill: char, width: nat, i: nat)
    requires i < |Pad(s, fill, Right, width)|
    ensures var k := |Pad(s, fill, Right, width)| - |s|;
            Pad(s, fill, Right, width)[i] == if i < k then fill else s[i - k]
  {
    if i < Padding(s, width) {
      RepeatAt(fill, Padding(s, width), i);
    }
  }

  /** `{:<fill><align>n$}` of the empty string is `n` fill characters, whatever the alignment. */
  lemma PadEmpty(fill: char, align: Align, n: nat)
    ensures Pad("", fill, align, n) == Repeat(fill, n)
  {
    assert Repeat(fill, n) + "" == Repeat(fill, n);
    assert "" + Repeat(fill, n) == Repeat(fill, n);
  }

  /** Writing `s` through a formatter with specification `spec`. */
  function Format(s: string, spec: Spec): (r: string)
    ensures spec.width.None? ==> r == s
    ensures spec.width.Some? ==> r == Pad(s, spec.fill, spec.align, spec.width.value)
  {
    match spec.width
    case None => s
    case Some(w) => Pad(s, spec.fill, spec.align, w)
  }

  function DigitChar(d: nat): char
    requires d < 10
  {
    "0123456789"[d]
  }

  /** `format!("{}", n)` for an unsigned integer. */
  function NatToString(n: nat): (r: string)
    ensures |r| >= 1
    ensures forall i :: 0 <= i < |r| ==> '0' <= r[i] <= '9'
  {
    if n < 10 then [DigitChar(n)] else NatToString(n / 10) + [DigitChar(n % 10)]
  }

  /** `format!("{}", n).len()`: the number of decimal digits of `n`. */
  function Digits(n: nat): (r: nat)
    ensures r >= 1
  {
    |NatToString(n)|
  }

  /** More digits only for larger numbers: the digit count of a maximum bounds every digit count. */
  lemma {:induction false} DigitsMonotone(a: nat, b: nat)
    requires a <= b
    ensures Digits(a) <= Digits(b)
  {
    if a >= 10 {
      DigitsMonotone(a / 10, b / 10);
      assert Digits(a) == Digits(a / 10) + 1;
      assert Digits(b) == Digits(b / 10) + 1;
    }
  }

  /** The index of the first '\n' in `s`, or `|s|` if there is none. */
  function NewlineIndex(s: string): (i: nat)
    ensures i <= |s|
    ensures forall j :: 0 <= j < i ==> s[j] != '\n'
    ensures i < |s| ==> s[i] == '\n'
  {
    if s == [] || s[0] == '\n' then 0 else 1 + NewlineIndex(s[1..])
  }

  /** Drops one trailing '\r' (the first half of a "\r\n" terminator). */
  function StripCr(s: string): (r: string)
    ensures r == s || (|s| > 0 && s[|s| - 1] == '\r' && r == s[..|s| - 1])
  {
    if |s| > 0 && s[|s| - 1] == '\r' then s[..|s| - 1] else s
  }

  /** Rust's `str::lines`: pieces split at "\n" or "\r\n"; a final terminator opens no further line. */
  function Lines(s: string): (r: seq<string>)
    decreases |s|
  {
    if s == [] then []
    else
      var i := NewlineIndex(s);
      if i == |s| then [s] else [StripCr(s[..i])] + Lines(s[i + 1..])
  }

  /** No piece of `str::lines` contains a line feed, and a text without one is a single line. */
  lemma {:induction false} LinesHaveNoNewline(s: string)
    ensures forall k, j :: 0 <= k < |Lines(s)| && 0 <= j < |Lines(s)[k]| ==> Lines(s)[k][j] != '\n'
    ensures s != [] && NewlineIndex(s) == |s| ==> Lines(s) == [s]
    decreases |s|
  {
    if s != [] {
      var i := NewlineIndex(s);
      if i < |s| {
        LinesHaveNoNewline(s[i + 1..]);
        var rest := Lines(s[i + 1..]);
        assert Lines(s) == [StripCr(s[..i])] + rest;
      }
    }
  }

  // ---------------------------------------------------------------------------
  // Indexing and slicing joined sequences

  /** An index into the first of two joined pieces. */
  lemma IndexInFront<R>(x: seq<R>, y: seq<R>, c: nat)
    requires c < |x|
    ensures (x + y)[c] == x[c]
  {
  }

  /** An index into the second of two joined pieces. */
  lemma IndexInSecond<R>(x: seq<R>, y: seq<R>, c: nat)
    requires |x| <= c < |x| + |y|
    ensures (x + y)[c] == y[c - |x|]
  {
  }

  /** An index into the middle of three joined pieces. */
  lemma IndexInMiddle<R>(x: seq<R>, y: seq<R>, z: seq<R>, c: nat)
    requires |x| <= c < |x| + |y|
    ensures (x + (y + z))[c] == y[c - |x|]
  {
  }

  /** An index into the last of three joined pieces. */
  lemma IndexInBack<R>(x: seq<R>, y: seq<R>, z: seq<R>, c: nat)
    requires |x| + |y| <= c < |x| + |y| + |z|
    ensures (x + (y + z))[c] == z[c - |x| - |y|]
  {
  }

  /** An index into the first of three joined pieces, grouped to the left. */
  lemma Assoc3Index<R>(x: seq<R>, y: seq<R>, z: seq<R>, i: nat)
    requires i < |x|
    ensures (x + y + z)[i] == x[i]
  {
  }

  /** Indexing past a prefix. */
  lemma AfterPrefix<R>(p: seq<R>, s: seq<R>, i: nat)
    requires i < |s|
    ensures (p + s)[|p| + i] == s[i]
  {
  }

  /** `x` then `y`: `y` is what follows the first `|x|` elements. */
  lemma SuffixAfter<R>(x: seq<R>, y: seq<R>)
    ensures |x + y| == |x| + |y|
    ensures (x + y)[|x|..] == y
  {
  }

  /** The three pieces of a joined sequence, sliced back out. */
  lemma ThreeSlices<R>(a: seq<R>, b: seq<R>, c: seq<R>)
    ensures |a + b + c| == |a| + |b| + |c|
    ensures (a + b + c)[..|a|] == a
    ensures (a + b + c)[|a|..|a| + |b|] == b
    ensures (a + b + c)[|a| + |b|..] == c
  {
  }

  /** Regrouping three joined pieces. */
  lemma Assoc<R>(x: seq<R>, y: seq<R>, z: seq<R>)
    ensures x + y + z == x + (y + z)
  {
  }

  /** A prefix one longer is the prefix and the next element. */
  lemma PrefixSnoc<R>(s: seq<R>, i: nat)
    requires i < |s|
    ensures s[..i + 1] == s[..i] + [s[i]]
  {
  }

  /** The whole sequence as a prefix. */
  lemma PrefixAll<R>(s: seq<R>)
    ensures s[..|s|] == s
  {
  }

  /** Newline-terminated rows joined into the written text. */
  function Render(rows: seq<string>): string {
    if rows == [] then [] else Render(rows[..|rows| - 1]) + rows[|rows| - 1] + "\n"
  }

  /** Two elements put in front of two joined sequences. */
  lemma ConsPair<R>(x: R, y: R, a: seq<R>, b: seq<R>)
    ensures [x] + ([y] + a + b) == [x, y] + a + b
  {
  }

  /** Appending nothing. */
  lemma AppendEmpty<R>(a: seq<R>, b: seq<R>)
    requires b == []
    ensures a + b == a
  {
  }

  /** The last element of `a + b` is the last of `b` when `b` is not empty. */
  lemma LastOfAppend<R>(a: seq<R>, b: seq<R>)
    requires |b| > 0
    ensures (a + b)[|a + b| - 1] == b[|b| - 1]
  {
  }

  lemma RenderSnoc(rows: seq<string>, x: string)
    ensures Render(rows + [x]) == Render(rows) + x + "\n"
  {
    assert (rows + [x])[..|rows|] == rows;
  }

  lemma {:induction false} RenderAppend(a: seq<string>, b: seq<string>)
    ensures Render(a + b) == Render(a) + Render(b)
    decreases |b|
  {
    if b == [] {
      assert a + b == a;
    } else {
      var b' := b[..|b| - 1];
      assert (a + b)[..|a + b| - 1] == a + b';
      RenderAppend(a, b');
      calc {
        Render(a + b);
        Render(a + b') + b[|b| - 1] + "\n";
        Render(a) + Render(b') + b[|b| - 1] + "\n";
        Render(a) + Render(b);
      }
    }
  }
  /** Two more rows rendered after `rows`. */
  lemma {:induction false} RenderSnocTwo(rows: seq<string>, x: string, y: string)
    ensures Render(rows + [x] + [y]) == Render(rows) + x + "\n" + y + "\n"
  {
    RenderSnoc(rows, x);
    RenderSnoc(rows + [x], y);
  }

  /** Regrouping two single rows pushed in front of a tail. */
  lemma SnocTwoThen(rows: seq<string>, x: string, y: string, rest: seq<string>)
    ensures rows + [x] + [y] + rest == rows + ([x] + ([y] + rest))
  {
  }

  /** One row renders as itself and a newline. */
  lemma {:induction false} RenderOne(x: string)
    ensures Render([x]) == x + "\n"
  {
    RenderSnoc([], x);
    assert [] + [x] == [x];
    assert [] + x == x;
  }

  /** Two leading rows, then the rest. */
  lemma {:induction false} RenderTwoThen(x: string, y: string, rest: seq<string>)
    ensures Render([x] + ([y] + rest)) == x + "\n" + y + "\n" + Render(rest)
  {
    RenderOne(x);
    RenderSnoc([x], y);
    RenderAppend([x] + [y], rest);
    assert [x] + [y] + rest == [x] + ([y] + rest);
  }


  /** Concatenation of a sequence of strings. */
  function Concat(parts: seq<string>): string {
    if parts == [] then [] else Concat(parts[..|parts| - 1]) + parts[|parts| - 1]
  }

  /** Concatenation of a sequence of row blocks. */
  function Flatten(blocks: seq<seq<string>>): seq<string> {
    if blocks == [] then [] else Flatten(blocks[..|blocks| - 1]) + blocks[|blocks| - 1]
  }

  /** A row in the flattened blocks comes from one of the blocks. */
  lemma {:induction false} FlattenMember(blocks: seq<seq<string>>, i: nat)
    requires i < |Flatten(blocks)|
    ensures exists b, k :: 0 <= b < |blocks| && 0 <= k < |blocks[b]| && Flatten(blocks)[i] == blocks[b][k]
    decreases |blocks|
  {
    var n := |blocks|;
    var front := Flatten(blocks[..n - 1]);
    if i < |front| {
      FlattenMember(blocks[..n - 1], i);
      var b, k :| 0 <= b < n - 1 && 0 <= k < |blocks[..n - 1][b]| && front[i] == blocks[..n - 1][b][k];
      assert blocks[..n - 1][b] == blocks[b];
    } else {
      assert Flatten(blocks)[i] == blocks[n - 1][i - |front|];
    }
  }
}
