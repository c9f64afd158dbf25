/** The row formatter of index.js: per-column alignment policies with their
    defaults (`formatRow`), and the text a row is turned into by `reduce`
    and `slice`. */
module Layout {
  import opened Wrappers
  import opened Padding

  /** The three padders a column can name. */
  datatype Align = Left | Right | Center

  /** One entry of `opts.columns`. A field the configuration leaves out, or
      sets to a falsy value (size 0, the empty fill string), is `None`. */
  datatype ColumnSpec = ColumnSpec(size: Option<int>, align: Option<string>, fill: Option<char>)

  /** `opts.columns`: an array that may hold holes (`undefined`, `null`). */
  type Columns = seq<Option<ColumnSpec>>

  /** The only separator the code ever uses. */
  const Sep: string := " "

  /** `pad[align] || pad.left`: the named padder, or `pad.left` for a
      missing or unrecognised name. */
  function ResolveAlign(name: Option<string>): Align
  {
    if name == Some("right") then Right
    else if name == Some("center") then Center
    else Left
  }

  /** `size || 0` */
  function SizeOf(col: ColumnSpec): int
  {
    match col.size
    case Some(n) => n
    case None => 0
  }

  /** `char || ' '` */
  function FillOf(col: ColumnSpec): char
  {
    match col.fill
    case Some(c) => c
    case None => ' '
  }

  /** Calls the padder an alignment names. */
  function Pad(align: Align, val: string, len: int, c: char): string
  {
    match align
    case Left => PadLeft(val, len, c)
    case Right => PadRight(val, len, c)
    case Center => PadCenter(val, len, c)
  }

  /** Fill units an alignment puts before a text of length `n` padded to `len`. */
  function Before(align: Align, n: nat, len: int): nat
  {
    match align
    case Left => if n < len then len - n else 0
    case Right => 0
    case Center => CenterLeft(n, len)
  }

  /** Fill units an alignment puts after a text of length `n` padded to `len`. */
  function After(align: Align, n: nat, len: int): nat
  {
    match align
    case Left => 0
    case Right => if n < len then len - n else 0
    case Center => CenterRight(n, len)
  }

  /** `formatRow(val, idx)`: a cell without a column spec passes through;
      otherwise it is framed by the column's fill, on the sides its alignment
      chooses, up to the column's size and never cut. */
  function FormatCell(columns: Columns, val: string, idx: nat): (r: string)
    ensures idx >= |columns| || columns[idx].None? ==> r == val
    ensures idx < |columns| && columns[idx].Some? ==>
              var col := columns[idx].value;
              var align := ResolveAlign(col.align);
              r == Fill(FillOf(col), Before(align, |val|, SizeOf(col))) + val
                   + Fill(FillOf(col), After(align, |val|, SizeOf(col)))
    ensures idx < |columns| && columns[idx].Some? ==>
              |r| == if |val| < SizeOf(columns[idx].value) then SizeOf(columns[idx].value) else |val|
  {
    if idx >= |columns| || columns[idx].None? then
      val
    else
      var col := columns[idx].value;
      CenterSplit(|val|, SizeOf(col));
      Pad(ResolveAlign(col.align), val, SizeOf(col), FillOf(col))
  }

  /** The defaults `formatRow` applies to a column spec it finds: an unknown or
      missing alignment pads on the left, a missing size leaves the cell as it
      is, a missing fill pads with spaces. */
  lemma FormatDefaults(columns: Columns, val: string, idx: nat)
    requires idx < |columns| && columns[idx].Some?
    ensures columns[idx].value.align !in {Some("right"), Some("center")} ==>
              FormatCell(columns, val, idx) == PadLeft(val, SizeOf(columns[idx].value), FillOf(columns[idx].value))
    ensures columns[idx].value.size in {None, Some(0)} ==> FormatCell(columns, val, idx) == val
    ensures columns[idx].value.fill.None? ==>
              FormatCell(columns, val, idx) == Pad(ResolveAlign(columns[idx].value.align), val, SizeOf(columns[idx].value), ' ')
  {
  }

  /** The cells of a row after `formatRow`. */
  function FormatAll(columns: Columns, cells: seq<string>): (parts: seq<string>)
    ensures |parts| == |cells|
    ensures forall i :: 0 <= i < |cells| ==> parts[i] == FormatCell(columns, cells[i], i)
  {
    seq(|cells|, i requires 0 <= i < |cells| => FormatCell(columns, cells[i], i))
  }

  /** The `reduce` of `api.row`, from index `idx` on: every formatted cell
      followed by the separator, appended to `memo`. */
  function Accumulate(columns: Columns, cells: seq<string>, idx: nat, memo: string): string
    requires idx <= |cells|
    decreases |cells| - idx
  {
    if idx == |cells| then memo
    else Accumulate(columns, cells, idx + 1, memo + FormatCell(columns, cells[idx], idx) + Sep)
  }

  /** `s.slice(0, -1)`: everything but the last character; empty stays empty. */
  function DropLast(s: string): string
  {
    if |s| == 0 then s else s[..|s| - 1]
  }

  /** The text `api.row` prints for its cells, built as the code builds it. */
  function RowText(columns: Columns, cells: seq<string>): (line: string)
    ensures line == Join(FormatAll(columns, cells), Sep)
  {
    RowIsJoin(columns, cells);
    DropLast(Accumulate(columns, cells, 0, ""))
  }

  /** Reference definition of a row: the parts with `sep` between every two
      consecutive ones and nowhere else. */
  function Join(parts: seq<string>, sep: string): string
  {
    if |parts| == 0 then ""
    else if |parts| == 1 then parts[0]
    else parts[0] + sep + Join(parts[1..], sep)
  }

  /** Every part followed by `sep`, the separator after the last included. */
  function Terminated(parts: seq<string>, sep: string): string
  {
    if |parts| == 0 then "" else parts[0] + sep + Terminated(parts[1..], sep)
  }

  lemma {:induction false} AccumulateTerminated(columns: Columns, cells: seq<string>, idx: nat, memo: string)
    requires idx <= |cells|
    ensures Accumulate(columns, cells, idx, memo) == memo + Terminated(FormatAll(columns, cells)[idx..], Sep)
    decreases |cells| - idx
  {
    var parts := FormatAll(columns, cells);
    if idx < |cells| {
      var memo' := memo + FormatCell(columns, cells[idx], idx) + Sep;
      AccumulateTerminated(columns, cells, idx + 1, memo');
      assert parts[idx..][1..] == parts[idx + 1..];
    }
  }

  lemma {:induction false} TerminatedIsJoin(parts: seq<string>, sep: string)
    requires |parts| > 0
    ensures Terminated(parts, sep) == Join(parts, sep) + sep
    decreases |parts|
  {
    if |parts| > 1 {
      TerminatedIsJoin(parts[1..], sep);
    }
  }

  /** What `reduce` followed by `slice(0, -1)` builds is the formatted cells
      joined by exactly one space, with no separator after the last cell. */
  lemma RowIsJoin(columns: Columns, cells: seq<string>)
    ensures DropLast(Accumulate(columns, cells, 0, "")) == Join(FormatAll(columns, cells), Sep)
  {
    var parts := FormatAll(columns, cells);
    AccumulateTerminated(columns, cells, 0, "");
    assert parts[0..] == parts;
    if |parts| > 0 {
      TerminatedIsJoin(parts, Sep);
      var j := Join(parts, Sep);
      assert (j + Sep)[..|j + Sep| - 1] == j;
    }
  }
}

/** Where the cells of a row land: each formatted cell starts at an offset
    fixed by the widths of the cells before it, which is what makes rows whose
    cells fit their columns line up under each other. */
module Alignment {
  import opened Layout

  /** Position of `parts[i]` in `Join(parts, sep)`. */
  function Offset(parts: seq<string>, sep: string, i: nat): nat
    requires i <= |parts|
    decreases i
  {
    if i == 0 then 0 else |parts[0]| + |sep| + Offset(parts[1..], sep, i - 1)
  }

  lemma {:induction false} OffsetNext(parts: seq<string>, sep: string, i: nat)
    requires i < |parts|
    ensures Offset(parts, sep, i + 1) == Offset(parts, sep, i) + |parts[i]| + |sep|
    decreases i
  {
    if i > 0 {
      OffsetNext(parts[1..], sep, i - 1);
    }
  }

  lemma SliceOfSuffix(pre: string, rest: string, lo: nat, hi: nat)
    requires |pre| <= lo <= hi <= |pre| + |rest|
    ensures (pre + rest)[lo..hi] == rest[lo - |pre|..hi - |pre|]
  {
  }

  /** The joined text ends with the last part. */
  lemma {:induction false} JoinLength(parts: seq<string>, sep: string)
    requires |parts| > 0
    ensures |Join(parts, sep)| == Offset(parts, sep, |parts| - 1) + |parts[|parts| - 1]|
    decreases |parts|
  {
    if |parts| > 1 {
      JoinLength(parts[1..], sep);
    }
  }

  /** In the joined text, part `i` sits at its offset. */
  lemma {:induction false} JoinAt(parts: seq<string>, sep: string, i: nat)
    requires i < |parts|
    ensures Offset(parts, sep, i) + |parts[i]| <= |Join(parts, sep)|
    ensures Join(parts, sep)[Offset(parts, sep, i)..Offset(parts, sep, i) + |parts[i]|] == parts[i]
    decreases i
  {
    if |parts| == 1 {
      assert Join(parts, sep) == parts[0];
    } else {
      var rest := Join(parts[1..], sep);
      var pre := parts[0] + sep;
      assert Join(parts, sep) == pre + rest;
      if i == 0 {
        assert pre + rest == parts[0] + (sep + rest);
        SliceOfPrefix(parts[0], sep + rest);
      } else {
        JoinAt(parts[1..], sep, i - 1);
        assert parts[1..][i - 1] == parts[i];
        var o := Offset(parts[1..], sep, i - 1);
        assert Offset(parts, sep, i) == |pre| + o;
        SliceOfSuffix(pre, rest, |pre| + o, |pre| + o + |parts[i]|);
      }
    }
  }

  lemma SliceOfPrefix(pre: string, rest: string)
    ensures (pre + rest)[..|pre|] == pre
  {
  }

  /** In the joined text, exactly `sep` follows every part but the last. */
  lemma {:induction false} JoinSepAt(parts: seq<string>, sep: string, i: nat)
    requires i + 1 < |parts|
    ensures Offset(parts, sep, i + 1) == Offset(parts, sep, i) + |parts[i]| + |sep|
    ensures Offset(parts, sep, i + 1) <= |Join(parts, sep)|
    ensures Join(parts, sep)[Offset(parts, sep, i) + |parts[i]|..Offset(parts, sep, i + 1)] == sep
    decreases i
  {
    OffsetNext(parts, sep, i);
    var rest := Join(parts[1..], sep);
    var pre := parts[0] + sep;
    assert Join(parts, sep) == pre + rest;
    if i > 0 {
      JoinSepAt(parts[1..], sep, i - 1);
      OffsetNext(parts[1..], sep, i - 1);
      assert parts[1..][i - 1] == parts[i];
      var o := Offset(parts[1..], sep, i - 1);
      SliceOfSuffix(pre, rest, |pre| + o + |parts[i]|, |pre| + o + |parts[i]| + |sep|);
    }
  }

  lemma {:induction false} OffsetsAgree(parts1: seq<string>, parts2: seq<string>, sep: string, i: nat)
    requires i <= |parts1| && i <= |parts2|
    requires forall k :: 0 <= k < i ==> |parts1[k]| == |parts2[k]|
    ensures Offset(parts1, sep, i) == Offset(parts2, sep, i)
    decreases i
  {
    if i > 0 {
      OffsetsAgree(parts1[1..], parts2[1..], sep, i - 1);
    }
  }

  /** Every cell fits the column spec at its index. */
  predicate Fits(columns: Columns, cells: seq<string>)
  {
    |cells| <= |columns|
    && forall i :: 0 <= i < |cells| ==> columns[i].Some? && |cells[i]| <= SizeOf(columns[i].value)
  }

  /** A cell that fits its column is formatted to exactly the column's size. */
  lemma FittedWidth(columns: Columns, cells: seq<string>, i: nat)
    requires Fits(columns, cells) && i < |cells|
    ensures i < |columns| && columns[i].Some?
    ensures |FormatAll(columns, cells)[i]| == SizeOf(columns[i].value)
  {
    assert FormatAll(columns, cells)[i] == FormatCell(columns, cells[i], i);
  }

  /** Cell `i` of a printed row sits at its offset. */
  lemma RowCellAt(columns: Columns, cells: seq<string>, i: nat)
    requires i < |cells|
    ensures var parts := FormatAll(columns, cells);
            Offset(parts, Sep, i) + |parts[i]| <= |RowText(columns, cells)|
            && RowText(columns, cells)[Offset(parts, Sep, i)..Offset(parts, Sep, i) + |parts[i]|] == parts[i]
  {
    JoinAt(FormatAll(columns, cells), Sep, i);
  }

  /** Two rows whose cells fit their columns line up: cell `i` of each is
      exactly as wide as its column and starts at the same offset in both
      printed lines (where `RowCellAt` places it), even when the rows have
      different numbers of cells. */
  lemma RowsLineUp(columns: Columns, cells1: seq<string>, cells2: seq<string>, i: nat)
    requires Fits(columns, cells1) && Fits(columns, cells2)
    requires i < |cells1| && i < |cells2|
    ensures i < |columns| && columns[i].Some?
    ensures |FormatAll(columns, cells1)[i]| == |FormatAll(columns, cells2)[i]| == SizeOf(columns[i].value)
    ensures Offset(FormatAll(columns, cells1), Sep, i) == Offset(FormatAll(columns, cells2), Sep, i)
  {
    var parts1, parts2 := FormatAll(columns, cells1), FormatAll(columns, cells2);
    SameWidths(columns, cells1, cells2);
    FittedWidth(columns, cells1, i);
    FittedWidth(columns, cells2, i);
    OffsetsAgree(parts1, parts2, Sep, i);
  }

  /** Two rows whose cells fit the same columns print lines of equal length. */
  lemma RowsSameLength(columns: Columns, cells1: seq<string>, cells2: seq<string>)
    requires |cells1| == |cells2| && Fits(columns, cells1) && Fits(columns, cells2)
    ensures |RowText(columns, cells1)| == |RowText(columns, cells2)|
  {
    var parts1, parts2 := FormatAll(columns, cells1), FormatAll(columns, cells2);
    assert RowText(columns, cells1) == Join(parts1, Sep);
    assert RowText(columns, cells2) == Join(parts2, Sep);
    if |cells1| > 0 {
      var last := |cells1| - 1;
      SameWidths(columns, cells1, cells2);
      OffsetsAgree(parts1, parts2, Sep, last);
      JoinLength(parts1, Sep);
      JoinLength(parts2, Sep);
    }
  }

  lemma SameWidths(columns: Columns, cells1: seq<string>, cells2: seq<string>)
    requires Fits(columns, cells1) && Fits(columns, cells2)
    ensures forall k :: 0 <= k < |cells1| && k < |cells2| ==>
              |FormatAll(columns, cells1)[k]| == |FormatAll(columns, cells2)[k]|
  {
    forall k | 0 <= k < |cells1| && k < |cells2|
      ensures |FormatAll(columns, cells1)[k]| == |FormatAll(columns, cells2)[k]|
    {
      FittedWidth(columns, cells1, k);
      FittedWidth(columns, cells2, k);
    }
  }
}
