/** The expected outputs of the repository's tests, derived from the model.
    Most scenarios take the column list as a parameter fixed by `requires`
    rather than building it inline: that keeps each proof small, since the
    verifier otherwise unfolds every literal it meets. */
module Scenarios {
  import opened Wrappers
  import opened Padding
  import opened Layout
  import opened LiveTable

  function Column(size: int, align: Option<string>, fill: Option<char>): Option<ColumnSpec>
  {
    Some(ColumnSpec(Some(size), align, fill))
  }

  lemma SmallFills(c: char)
    ensures Fill(c, 0) == [] && Fill(c, 1) == [c] && Fill(c, 2) == [c, c]
    ensures Fill(c, 3) == [c, c, c] && Fill(c, 4) == [c, c, c, c] && Fill(c, 5) == [c, c, c, c, c]
  {
  }

  /** The three alignment names resolve to their padders. */
  lemma AlignNames()
    ensures ResolveAlign(Some("left")) == Left
    ensures ResolveAlign(Some("right")) == Right
    ensures ResolveAlign(Some("center")) == Center
  {
  }

  /** A one-column row prints its one formatted cell. */
  lemma OneCell(columns: Columns, cell: string)
    ensures RowLine(Options(Some(columns)), [cell]) == Ok(FormatCell(columns, cell, 0))
  {
    assert FormatAll(columns, [cell]) == [FormatCell(columns, cell, 0)];
  }

  /** A three-column row prints its three formatted cells with a space between
      each two. */
  lemma ThreeCells(columns: Columns, a: string, b: string, c: string, fa: string, fb: string, fc: string)
    requires FormatCell(columns, a, 0) == fa && FormatCell(columns, b, 1) == fb && FormatCell(columns, c, 2) == fc
    ensures RowLine(Options(Some(columns)), [a, b, c]) == Ok(fa + " " + fb + " " + fc)
  {
    var parts := FormatAll(columns, [a, b, c]);
    assert parts == [fa, fb, fc];
    assert parts[1..][1..] == [fc];
    assert Join(parts[1..][1..], Sep) == fc;
    assert Join(parts[1..], Sep) == fb + Sep + fc;
    assert Join(parts, Sep) == fa + Sep + (fb + Sep + fc);
    assert fa + Sep + (fb + Sep + fc) == fa + " " + fb + " " + fc;
  }

  /** "prints titles as-is". */
  lemma TitlesAsIs()
    ensures Run(Options(None), [Title("this is line 1"), Title("this is line 2"), Title("this is line 3")])
         == Transcript("this is line 1\nthis is line 2\nthis is line 3\n", None)
  {
    ThreeTitles(Options(None), "this is line 1", "this is line 2", "this is line 3");
    SpelledTitles();
  }

  /** Three titles print their texts, one per line. */
  lemma ThreeTitles(opts: Options, a: string, b: string, c: string)
    ensures Run(opts, [Title(a), Title(b), Title(c)]) == Transcript(a + "\n" + b + "\n" + c + "\n", None)
  {
    var calls := [Title(a), Title(b), Title(c)];
    assert calls[1..] == [Title(b), Title(c)];
    assert calls[1..][1..] == [Title(c)];
    assert calls[1..][1..][1..] == [];
    assert c + "\n" + "" == c + "\n";
    assert Run(opts, calls[1..][1..]) == Transcript(c + "\n", None);
    assert Run(opts, calls[1..]) == Transcript(b + "\n" + (c + "\n"), None);
    assert a + "\n" + (b + "\n" + (c + "\n")) == a + "\n" + b + "\n" + c + "\n";
  }

  /** "prints empty lines". */
  lemma TitlesAndLines()
    ensures Run(Options(None), [Title("this is line 1"), Line(["this will not print"]), Title("this is line 3")])
         == Transcript("this is line 1\n\nthis is line 3\n", None)
  {
    TitleLineTitle(Options(None), "this is line 1", ["this will not print"], "this is line 3");
    SpelledTitlesAndLines();
  }

  /** A title, a `line` call and a title print the first text, an empty line
      and the second text, whatever `line` is given. */
  lemma TitleLineTitle(opts: Options, a: string, args: seq<string>, c: string)
    ensures Run(opts, [Title(a), Line(args), Title(c)]) == Transcript(a + "\n" + "\n" + c + "\n", None)
  {
    var calls := [Title(a), Line(args), Title(c)];
    assert calls[1..] == [Line(args), Title(c)];
    assert calls[1..][1..] == [Title(c)];
    assert calls[1..][1..][1..] == [];
    assert c + "\n" + "" == c + "\n";
    assert Run(opts, calls[1..][1..]) == Transcript(c + "\n", None);
    assert Run(opts, calls[1..]) == Transcript("" + "\n" + (c + "\n"), None);
    assert a + "\n" + ("" + "\n" + (c + "\n")) == a + "\n" + "\n" + c + "\n";
  }

  /** "can left-align rows": `align: 'left'` prepends the fill. */
  lemma LeftAlignRows()
    ensures var opts := Options(Some([Column(6, Some("left"), None)]));
            RowLine(opts, ["a"]) == Ok("     a") && RowLine(opts, ["abcdef"]) == Ok("abcdef")
  {
    var columns := [Column(6, Some("left"), None)];
    SmallFills(' ');
    OneCell(columns, "a");
    OneCell(columns, "abcdef");
    assert FormatCell(columns, "a", 0) == Fill(' ', 5) + "a" + Fill(' ', 0) == "     a";
    assert FormatCell(columns, "abcdef", 0) == Fill(' ', 0) + "abcdef" + Fill(' ', 0) == "abcdef";
  }

  /** "can left-align rows", the middle values. */
  lemma LeftAlignMiddleRows(columns: Columns)
    requires |columns| == 1 && columns[0] == Column(6, Some("left"), None)
    ensures RowLine(Options(Some(columns)), ["ab"]) == Ok("    ab")
    ensures RowLine(Options(Some(columns)), ["abc"]) == Ok("   abc")
    ensures RowLine(Options(Some(columns)), ["abcd"]) == Ok("  abcd")
    ensures RowLine(Options(Some(columns)), ["abcde"]) == Ok(" abcde")
  {
    SmallFills(' ');
    OneCell(columns, "ab");
    OneCell(columns, "abc");
    OneCell(columns, "abcd");
    OneCell(columns, "abcde");
    AlignNames();
    SpacedCell(columns, "ab", 0, 4, 0);
    assert Fill(' ', 4) + "ab" + Fill(' ', 0) == "    ab";
    SpacedCell(columns, "abc", 0, 3, 0);
    assert Fill(' ', 3) + "abc" + Fill(' ', 0) == "   abc";
    SpacedCell(columns, "abcd", 0, 2, 0);
    assert Fill(' ', 2) + "abcd" + Fill(' ', 0) == "  abcd";
    SpacedCell(columns, "abcde", 0, 1, 0);
    assert Fill(' ', 1) + "abcde" + Fill(' ', 0) == " abcde";
  }

  /** "can right-align rows": `align: 'right'` appends the fill. */
  lemma RightAlignRows()
    ensures var opts := Options(Some([Column(6, Some("right"), None)]));
            RowLine(opts, ["a"]) == Ok("a     ") && RowLine(opts, ["abcdef"]) == Ok("abcdef")
  {
    var columns := [Column(6, Some("right"), None)];
    SmallFills(' ');
    OneCell(columns, "a");
    OneCell(columns, "abcdef");
    assert FormatCell(columns, "a", 0) == Fill(' ', 0) + "a" + Fill(' ', 5) == "a     ";
    assert FormatCell(columns, "abcdef", 0) == Fill(' ', 0) + "abcdef" + Fill(' ', 0) == "abcdef";
  }

  /** "can right-align rows", the middle values. */
  lemma RightAlignMiddleRows(columns: Columns)
    requires |columns| == 1 && columns[0] == Column(6, Some("right"), None)
    ensures RowLine(Options(Some(columns)), ["ab"]) == Ok("ab    ")
    ensures RowLine(Options(Some(columns)), ["abc"]) == Ok("abc   ")
    ensures RowLine(Options(Some(columns)), ["abcd"]) == Ok("abcd  ")
    ensures RowLine(Options(Some(columns)), ["abcde"]) == Ok("abcde ")
  {
    SmallFills(' ');
    OneCell(columns, "ab");
    OneCell(columns, "abc");
    OneCell(columns, "abcd");
    OneCell(columns, "abcde");
    AlignNames();
    SpacedCell(columns, "ab", 0, 0, 4);
    assert Fill(' ', 0) + "ab" + Fill(' ', 4) == "ab    ";
    SpacedCell(columns, "abc", 0, 0, 3);
    assert Fill(' ', 0) + "abc" + Fill(' ', 3) == "abc   ";
    SpacedCell(columns, "abcd", 0, 0, 2);
    assert Fill(' ', 0) + "abcd" + Fill(' ', 2) == "abcd  ";
    SpacedCell(columns, "abcde", 0, 0, 1);
    assert Fill(' ', 0) + "abcde" + Fill(' ', 1) == "abcde ";
  }

  /** Centring to an odd target puts the odd unit on the right when the start
      length is even: `"ab"` centred to 5 is `" ab  "`. */
  lemma CenterOddTarget()
    ensures PadCenter("ab", 5, ' ') == " ab  "
  {
    SmallFills(' ');
    assert PadCenter("ab", 5, ' ') == Fill(' ', 1) + "ab" + Fill(' ', 2);
  }

  /** "can center rows": centring to six columns; when the unit counts differ,
      the extra one is on the left. */
  lemma CenterRowA(columns: Columns)
    requires |columns| == 1 && columns[0] == Column(6, Some("center"), None)
    ensures RowLine(Options(Some(columns)), ["a"]) == Ok("   a  ")
  {
    OneCell(columns, "a");
    AlignNames();
    SpacedCell(columns, "a", 0, 3, 2);
    SpelledCenterCells();
  }

  lemma CenterRowAB(columns: Columns)
    requires |columns| == 1 && columns[0] == Column(6, Some("center"), None)
    ensures RowLine(Options(Some(columns)), ["ab"]) == Ok("  ab  ")
  {
    OneCell(columns, "ab");
    AlignNames();
    SpacedCell(columns, "ab", 0, 2, 2);
    SpelledCenterCells();
  }

  lemma CenterRowABC(columns: Columns)
    requires |columns| == 1 && columns[0] == Column(6, Some("center"), None)
    ensures RowLine(Options(Some(columns)), ["abc"]) == Ok("  abc ")
  {
    OneCell(columns, "abc");
    AlignNames();
    SpacedCell(columns, "abc", 0, 2, 1);
    SpelledCenterCells();
  }

  lemma CenterRowABCDE(columns: Columns)
    requires |columns| == 1 && columns[0] == Column(6, Some("center"), None)
    ensures RowLine(Options(Some(columns)), ["abcde"]) == Ok(" abcde")
  {
    OneCell(columns, "abcde");
    AlignNames();
    SpacedCell(columns, "abcde", 0, 1, 0);
    SpelledCenterCells();
  }

  lemma CenterRowABCD(columns: Columns)
    requires |columns| == 1 && columns[0] == Column(6, Some("center"), None)
    ensures RowLine(Options(Some(columns)), ["abcd"]) == Ok(" abcd ")
  {
    OneCell(columns, "abcd");
    AlignNames();
    SpacedCell(columns, "abcd", 0, 1, 1);
    SpelledCenterCells();
  }

  lemma CenterRowABCDEF(columns: Columns)
    requires |columns| == 1 && columns[0] == Column(6, Some("center"), None)
    ensures RowLine(Options(Some(columns)), ["abcdef"]) == Ok("abcdef")
  {
    OneCell(columns, "abcdef");
    AlignNames();
    SpacedCell(columns, "abcdef", 0, 0, 0);
    SpelledCenterCells();
  }

  /** "uses a single space to separate rows": `1 2 3`. */
  lemma SingleSpaceSeparator(columns: Columns)
    requires |columns| == 3 && forall i :: 0 <= i < 3 ==> columns[i] == Column(1, None, None)
    ensures RowLine(Options(Some(columns)), ["1", "2", "3"]) == Ok("1 2 3")
  {
    assert columns[0] == columns[1] == columns[2] == Column(1, None, None);
    assert FormatCell(columns, "1", 0) == "1";
    assert FormatCell(columns, "2", 1) == "2";
    assert FormatCell(columns, "3", 2) == "3";
    ThreeCells(columns, "1", "2", "3", "1", "2", "3");
    Spelled123();
  }

  /** "can pad with a custom char": `..1 ,,2 pp3`. */
  lemma CustomFill(columns: Columns)
    requires |columns| == 3
    requires columns[0] == Column(3, None, Some('.'))
    requires columns[1] == Column(3, None, Some(','))
    requires columns[2] == Column(3, None, Some('p'))
    ensures RowLine(Options(Some(columns)), ["1", "2", "3"]) == Ok("..1 ,,2 pp3")
  {
    FilledCell(columns, "1", 0, "..1");
    FilledCell(columns, "2", 1, ",,2");
    FilledCell(columns, "3", 2, "pp3");
    ThreeCells(columns, "1", "2", "3", "..1", ",,2", "pp3");
    SpelledCustomFill();
  }

  /** A one-character cell padded on the left to a three-wide column. */
  lemma FilledCell(columns: Columns, val: string, idx: nat, expected: string)
    requires idx < |columns| && columns[idx].Some? && columns[idx].value.align.None?
    requires SizeOf(columns[idx].value) == 3 && |val| == 1
    requires expected == [FillOf(columns[idx].value), FillOf(columns[idx].value)] + val
    ensures FormatCell(columns, val, idx) == expected
  {
    SmallFills(FillOf(columns[idx].value));
  }

  /** "aligns multiple rows", first table: `align: 'left'` right-justifies,
      `align: 'right'` left-justifies. */
  lemma MultipleRows(columns: Columns)
    requires |columns| == 3
    requires columns[0] == Column(5, Some("left"), None)
    requires columns[1] == Column(6, Some("center"), None)
    requires columns[2] == Column(7, Some("right"), None)
    ensures RowLine(Options(Some(columns)), ["a", "b", "c"]) == Ok("    a    b   c      ")
  {
    AlignNames();
    SpacedCell(columns, "a", 0, 4, 0);
    SpacedCell(columns, "b", 1, 3, 2);
    SpacedCell(columns, "c", 2, 0, 6);
    ThreeCells(columns, "a", "b", "c",
      Fill(' ', 4) + "a" + Fill(' ', 0),
      Fill(' ', 3) + "b" + Fill(' ', 2),
      Fill(' ', 0) + "c" + Fill(' ', 6));
    SpelledMultipleRows();
  }

  /** "aligns multiple rows", first table, second and third rows. */
  lemma MultipleRowsTable1Row2(columns: Columns)
    requires |columns| == 3
    requires columns[0] == Column(5, Some("left"), None)
    requires columns[1] == Column(6, Some("center"), None)
    requires columns[2] == Column(7, Some("right"), None)
    ensures RowLine(Options(Some(columns)), ["ab", "bc", "de"]) == Ok("   ab   bc   de     ")
  {
    MultipleRowsTable1Row2Cells(columns);
    ThreeCells(columns, "ab", "bc", "de",
      Fill(' ', 3) + "ab" + Fill(' ', 0),
      Fill(' ', 2) + "bc" + Fill(' ', 2),
      Fill(' ', 0) + "de" + Fill(' ', 5));
    SpelledTable1Row2();
  }

  lemma MultipleRowsTable1Row2Cells(columns: Columns)
    requires |columns| == 3
    requires columns[0] == Column(5, Some("left"), None)
    requires columns[1] == Column(6, Some("center"), None)
    requires columns[2] == Column(7, Some("right"), None)
    ensures FormatCell(columns, "ab", 0) == Fill(' ', 3) + "ab" + Fill(' ', 0)
    ensures FormatCell(columns, "bc", 1) == Fill(' ', 2) + "bc" + Fill(' ', 2)
    ensures FormatCell(columns, "de", 2) == Fill(' ', 0) + "de" + Fill(' ', 5)
  {
    AlignNames();
    SpacedCell(columns, "ab", 0, 3, 0);
    SpacedCell(columns, "bc", 1, 2, 2);
    SpacedCell(columns, "de", 2, 0, 5);
  }

  lemma MultipleRowsTable1Row3(columns: Columns)
    requires |columns| == 3
    requires columns[0] == Column(5, Some("left"), None)
    requires columns[1] == Column(6, Some("center"), None)
    requires columns[2] == Column(7, Some("right"), None)
    ensures RowLine(Options(Some(columns)), ["abc", "def", "ghi"]) == Ok("  abc   def  ghi    ")
  {
    MultipleRowsTable1Row3Cells(columns);
    ThreeCells(columns, "abc", "def", "ghi",
      Fill(' ', 2) + "abc" + Fill(' ', 0),
      Fill(' ', 2) + "def" + Fill(' ', 1),
      Fill(' ', 0) + "ghi" + Fill(' ', 4));
    SpelledTable1Row3();
  }

  lemma MultipleRowsTable1Row3Cells(columns: Columns)
    requires |columns| == 3
    requires columns[0] == Column(5, Some("left"), None)
    requires columns[1] == Column(6, Some("center"), None)
    requires columns[2] == Column(7, Some("right"), None)
    ensures FormatCell(columns, "abc", 0) == Fill(' ', 2) + "abc" + Fill(' ', 0)
    ensures FormatCell(columns, "def", 1) == Fill(' ', 2) + "def" + Fill(' ', 1)
    ensures FormatCell(columns, "ghi", 2) == Fill(' ', 0) + "ghi" + Fill(' ', 4)
  {
    AlignNames();
    SpacedCell(columns, "abc", 0, 2, 0);
    SpacedCell(columns, "def", 1, 2, 1);
    SpacedCell(columns, "ghi", 2, 0, 4);
  }

  /** "aligns multiple rows", second table: the same columns with `left` and
      `right` swapped. */
  lemma MultipleRowsTable2Row1(columns: Columns)
    requires |columns| == 3
    requires columns[0] == Column(5, Some("right"), None)
    requires columns[1] == Column(6, Some("center"), None)
    requires columns[2] == Column(7, Some("left"), None)
    ensures RowLine(Options(Some(columns)), ["a", "b", "c"]) == Ok("a        b         c")
  {
    MultipleRowsTable2Row1Cells(columns);
    ThreeCells(columns, "a", "b", "c",
      Fill(' ', 0) + "a" + Fill(' ', 4),
      Fill(' ', 3) + "b" + Fill(' ', 2),
      Fill(' ', 6) + "c" + Fill(' ', 0));
    SpelledTable2Row1();
  }

  lemma MultipleRowsTable2Row1Cells(columns: Columns)
    requires |columns| == 3
    requires columns[0] == Column(5, Some("right"), None)
    requires columns[1] == Column(6, Some("center"), None)
    requires columns[2] == Column(7, Some("left"), None)
    ensures FormatCell(columns, "a", 0) == Fill(' ', 0) + "a" + Fill(' ', 4)
    ensures FormatCell(columns, "b", 1) == Fill(' ', 3) + "b" + Fill(' ', 2)
    ensures FormatCell(columns, "c", 2) == Fill(' ', 6) + "c" + Fill(' ', 0)
  {
    AlignNames();
    SpacedCell(columns, "a", 0, 0, 4);
    SpacedCell(columns, "b", 1, 3, 2);
    SpacedCell(columns, "c", 2, 6, 0);
  }

  lemma MultipleRowsTable2Row2(columns: Columns)
    requires |columns| == 3
    requires columns[0] == Column(5, Some("right"), None)
    requires columns[1] == Column(6, Some("center"), None)
    requires columns[2] == Column(7, Some("left"), None)
    ensures RowLine(Options(Some(columns)), ["ab", "bc", "de"]) == Ok("ab      bc        de")
  {
    MultipleRowsTable2Row2Cells(columns);
    ThreeCells(columns, "ab", "bc", "de",
      Fill(' ', 0) + "ab" + Fill(' ', 3),
      Fill(' ', 2) + "bc" + Fill(' ', 2),
      Fill(' ', 5) + "de" + Fill(' ', 0));
    SpelledTable2Row2();
  }

  lemma MultipleRowsTable2Row2Cells(columns: Columns)
    requires |columns| == 3
    requires columns[0] == Column(5, Some("right"), None)
    requires columns[1] == Column(6, Some("center"), None)
    requires columns[2] == Column(7, Some("left"), None)
    ensures FormatCell(columns, "ab", 0) == Fill(' ', 0) + "ab" + Fill(' ', 3)
    ensures FormatCell(columns, "bc", 1) == Fill(' ', 2) + "bc" + Fill(' ', 2)
    ensures FormatCell(columns, "de", 2) == Fill(' ', 5) + "de" + Fill(' ', 0)
  {
    AlignNames();
    SpacedCell(columns, "ab", 0, 0, 3);
    SpacedCell(columns, "bc", 1, 2, 2);
    SpacedCell(columns, "de", 2, 5, 0);
  }

  lemma MultipleRowsTable2Row3(columns: Columns)
    requires |columns| == 3
    requires columns[0] == Column(5, Some("right"), None)
    requires columns[1] == Column(6, Some("center"), None)
    requires columns[2] == Column(7, Some("left"), None)
    ensures RowLine(Options(Some(columns)), ["abc", "def", "ghi"]) == Ok("abc     def      ghi")
  {
    MultipleRowsTable2Row3Cells(columns);
    ThreeCells(columns, "abc", "def", "ghi",
      Fill(' ', 0) + "abc" + Fill(' ', 2),
      Fill(' ', 2) + "def" + Fill(' ', 1),
      Fill(' ', 4) + "ghi" + Fill(' ', 0));
    SpelledTable2Row3();
  }

  lemma MultipleRowsTable2Row3Cells(columns: Columns)
    requires |columns| == 3
    requires columns[0] == Column(5, Some("right"), None)
    requires columns[1] == Column(6, Some("center"), None)
    requires columns[2] == Column(7, Some("left"), None)
    ensures FormatCell(columns, "abc", 0) == Fill(' ', 0) + "abc" + Fill(' ', 2)
    ensures FormatCell(columns, "def", 1) == Fill(' ', 2) + "def" + Fill(' ', 1)
    ensures FormatCell(columns, "ghi", 2) == Fill(' ', 4) + "ghi" + Fill(' ', 0)
  {
    AlignNames();
    SpacedCell(columns, "abc", 0, 0, 2);
    SpacedCell(columns, "def", 1, 2, 1);
    SpacedCell(columns, "ghi", 2, 4, 0);
  }

  /** A cell framed by `before` and `after` spaces. */
  lemma SpacedCell(columns: Columns, val: string, idx: nat, before: nat, after: nat)
    requires idx < |columns| && columns[idx].Some? && columns[idx].value.fill.None?
    requires Before(ResolveAlign(columns[idx].value.align), |val|, SizeOf(columns[idx].value)) == before
    requires After(ResolveAlign(columns[idx].value.align), |val|, SizeOf(columns[idx].value)) == after
    ensures FormatCell(columns, val, idx) == Fill(' ', before) + val + Fill(' ', after)
  {
  }

  // The expected lines, spelled out once the cells are known.

  lemma Spelled123()
    ensures "1" + " " + "2" + " " + "3" == "1 2 3"
  {
  }

  lemma SpelledCustomFill()
    ensures "..1" + " " + ",,2" + " " + "pp3" == "..1 ,,2 pp3"
  {
  }

  lemma SpelledMultipleRows()
    ensures (Fill(' ', 4) + "a" + Fill(' ', 0)) + " "
          + (Fill(' ', 3) + "b" + Fill(' ', 2)) + " "
          + (Fill(' ', 0) + "c" + Fill(' ', 6))
         == "    a    b   c      "
  {
    SmallFills(' ');
  }

  lemma SpelledTable1Row2()
    ensures (Fill(' ', 3) + "ab" + Fill(' ', 0)) + " "
          + (Fill(' ', 2) + "bc" + Fill(' ', 2)) + " "
          + (Fill(' ', 0) + "de" + Fill(' ', 5))
         == "   ab   bc   de     "
  {
    SmallFills(' ');
  }

  lemma SpelledTable1Row3()
    ensures (Fill(' ', 2) + "abc" + Fill(' ', 0)) + " "
          + (Fill(' ', 2) + "def" + Fill(' ', 1)) + " "
          + (Fill(' ', 0) + "ghi" + Fill(' ', 4))
         == "  abc   def  ghi    "
  {
    SmallFills(' ');
  }

  lemma SpelledTable2Row1()
    ensures (Fill(' ', 0) + "a" + Fill(' ', 4)) + " "
          + (Fill(' ', 3) + "b" + Fill(' ', 2)) + " "
          + (Fill(' ', 6) + "c" + Fill(' ', 0))
         == "a        b         c"
  {
    SmallFills(' ');
  }

  lemma SpelledTable2Row2()
    ensures (Fill(' ', 0) + "ab" + Fill(' ', 3)) + " "
          + (Fill(' ', 2) + "bc" + Fill(' ', 2)) + " "
          + (Fill(' ', 5) + "de" + Fill(' ', 0))
         == "ab      bc        de"
  {
    SmallFills(' ');
  }

  lemma SpelledTable2Row3()
    ensures (Fill(' ', 0) + "abc" + Fill(' ', 2)) + " "
          + (Fill(' ', 2) + "def" + Fill(' ', 1)) + " "
          + (Fill(' ', 4) + "ghi" + Fill(' ', 0))
         == "abc     def      ghi"
  {
    SmallFills(' ');
  }

  lemma SpelledCenterCells()
    ensures Fill(' ', 3) + "a" + Fill(' ', 2) == "   a  "
    ensures Fill(' ', 2) + "ab" + Fill(' ', 2) == "  ab  "
    ensures Fill(' ', 2) + "abc" + Fill(' ', 1) == "  abc "
    ensures Fill(' ', 1) + "abcde" + Fill(' ', 0) == " abcde"
    ensures Fill(' ', 1) + "abcd" + Fill(' ', 1) == " abcd "
    ensures Fill(' ', 0) + "abcdef" + Fill(' ', 0) == "abcdef"
  {
    SmallFills(' ');
  }

  lemma SpelledTitlesAndLines()
    ensures "this is line 1" + "\n" + "\n" + "this is line 3" + "\n" == "this is line 1\n\nthis is line 3\n"
  {
  }

  lemma SpelledTitles()
    ensures "this is line 1" + "\n" + "this is line 2" + "\n" + "this is line 3" + "\n"
         == "this is line 1\nthis is line 2\nthis is line 3\n"
  {
  }
}
