# live-text-table in Dafny

A model of `live-text-table`, a console table that prints each row the moment
it is asked to, so that table lines can interleave with any other output. All
of its logic is in `index.js`:

- `strLength` measures a string's visible length;
- `pad.left`, `pad.right` and `pad.center` widen a string one fill unit at a
  time until it reaches a target length, and never cut it;
- `formatRow` picks a column's padder, size and fill character, with defaults
  for whatever the column spec leaves out;
- `title`, `line` and `row` each print one line: a title as it is, an empty
  line, or the formatted cells joined by single spaces.

The modules follow those parts:

- `Padding` (`padding.dfy`): `StrLength`, the three padders as recursive
  functions shaped like the original, and closed forms of what they produce.
  Every padder's contract gives its result as fill + text + fill with the exact
  number of fill units on each side. For `PadCenter` that is the count of odd
  lengths (prepends) and even lengths (appends) met between the start and the
  target.
- `Layout` (`layout.dfy`): column specs, `FormatCell` (`formatRow`), and
  `RowText`, which builds the row as the code does (`reduce` appending cell +
  `' '`, then `slice(0, -1)`). `RowText` is proved equal to a reference `Join`
  with one separator between every two cells.
- `Alignment` (`layout.dfy`): where each cell lands in a printed row. It shows
  that rows whose cells fit their columns line up.
- `LiveTable` (`table.dfy`): the table's options, the calls `title`, `line` and
  `row`, and `Run`, the transcript of what a run of calls writes to standard
  output. The transcript also records the error that ends a run.
- `Scenarios` (`scenarios.dfy`): the expected outputs of the repository's test
  suite, derived from the model.
- `Wrappers` (`wrappers.dfy`): `Option` and `Result`.

Modelling choices:

- Strings are `seq<char>`, and a string's length is its number of Dafny
  characters. The original measures JavaScript string length, which counts
  UTF-16 code units, so the two agree only on text in the Basic Multilingual
  Plane (see `StrLength` under "Left out").
- A fill character is a Dafny `char`, so the model counts it as one unit. A
  fill outside the Basic Multilingual Plane is two code units in the original.
- A column spec's fields are `Option`s. `None` stands for a field that is left
  out or falsy (`size: 0`, `char: ''`); the code gives these the same default.
  `opts.columns` is a sequence of `Option<ColumnSpec>`, so holes in the array
  are `None`.
- `console.log` is modelled by returning the line to print. `Run` appends each
  line plus `"\n"` to the transcript. A `Log` call stands for any other writer's
  `console.log` between table calls. A call that throws ends the run: `Run`
  is a caller that does not catch the TypeError. The table keeps no state,
  so a caller that catches it could go on calling, and later calls would
  still print.

Points where the code is easy to misread (the model follows the code):

- Without `opts.columns`, a `row` with at least one cell throws a TypeError. It
  reads `columns[idx]` on `undefined` (index.js:36, 43). It does not behave as
  an empty column list. A `row` with no cells prints an empty line because
  `reduce` never calls `formatRow`.
- There is no separator option. The separator is always one space
  (index.js:40, 60).
- `pad.center` does not always put the odd unit on the left. It puts it on the
  left exactly when the starting length is odd. When the units differ, that is
  also exactly when the target length is even. For example, `"ab"` centred to
  5 is `" ab  "` (`Scenarios.CenterOddTarget`).
- `align: 'left'` selects `pad.left`, which prepends the fill, so the text is
  right-justified. `align: 'right'` left-justifies.

## Model

| member | source | states |
|---|---|---|
| `Padding.StrLengthAdds` | index.js:4-6 | `StrLength`, the character count that stands for `unstyle`'s visible length (see "Left out"), adds up over concatenation and is zero for the empty string |
| `Padding.PadLeft` | index.js:9-15 | the result is the fill repeated as many times as `val` falls short of `len` (zero if it does not), followed by `val`; so it is as long as the larger of `len` and `val`'s length, and a value already long enough comes back unchanged |
| `Padding.PadRight` | index.js:16-22 | the result is `val` followed by the fill repeated as many times as `val` falls short of `len`; so it is as long as the larger of `len` and `val`'s length |
| `Padding.PadCenter` | index.js:23-32 | widening one unit at a time, appending at even lengths and prepending at odd ones, gives one fill unit before `val` for every odd length from `val`'s length up to (not including) `len`, and one after it for every even length in that range |
| `Padding.CenterStep` | index.js:30-31 | one widening step (append when the length is even, prepend when odd) keeps the final fill + text + fill shape |
| `Padding.CenterCounts` | index.js:23-31 | the closed forms of the two sides equal an independent count of the odd lengths (prepends) and the even lengths (appends) from the starting length up to the target |
| `Padding.CenterSplit` | index.js:30-31 | the two sides of a centred value add up to the gap and differ by at most one; the left side is larger exactly when the gap and the starting length are both odd, which is exactly when the gap is odd and the target is even |
| `Padding.NoTruncation` | index.js:10-28 | all three padders return a value that already reaches the target unchanged; a centred result is as long as the larger of `len` and `val`'s length |
| `Layout.FormatCell` | index.js:42-49 | a cell with no column spec at its index passes through unchanged; otherwise it becomes fill + cell + fill, with the sides chosen by the resolved alignment and the column's size and fill, never cut, as wide as the larger of the column's size and the cell's length |
| `Layout.FormatDefaults` | index.js:37-48 | an unknown or missing `align` uses `pad.left`; a missing or zero `size` leaves the cell unchanged; a missing or empty `char` pads with a space |
| `Layout.RowText` | index.js:58-62 | the line `row` builds equals the formatted cells joined by exactly one space, with no trailing separator; no cells give the empty line |
| `Layout.AccumulateTerminated` | index.js:59-61 | the `reduce` appends every formatted cell followed by one space, in order, to the running text |
| `Layout.TerminatedIsJoin` | index.js:59-61 | for at least one cell, cells each followed by the separator are the joined cells plus one trailing separator, which `slice(0, -1)` removes (with no cells both the reduce and the join are empty) |
| `Layout.RowIsJoin` | index.js:58-62 | `reduce` followed by `slice(0, -1)` yields the single-space join of the formatted cells |
| `Alignment.JoinLength` | index.js:59-61 | a row ends with its last cell: its length is the last cell's offset plus that cell's width |
| `Alignment.JoinAt` | index.js:59-61 | every formatted cell appears in the row at its offset (the widths of the earlier cells plus one space per earlier cell) |
| `Alignment.JoinSepAt` | index.js:59-61 | exactly the separator stands between every cell and the next |
| `Alignment.RowCellAt` | index.js:58-62 | cell `i` of a printed row is found at its offset in the printed line |
| `Alignment.FittedWidth` | index.js:47-48 | a cell no longer than its column's size is formatted to exactly that size |
| `Alignment.RowsLineUp` | test/index.test.js:153-188 | in two rows whose cells fit their columns, cell `i` has the column's width in both and starts at the same offset in both, even when the rows have different numbers of cells |
| `Alignment.RowsSameLength` | test/index.test.js:153-188 | two rows with the same number of cells, whose cells fit the same columns, print lines of equal length |
| `LiveTable.RowLine` | index.js:35-62 | `row` throws exactly when `columns` is missing and there is at least one cell; otherwise it prints the single-space join of the formatted cells |
| `LiveTable.SingleCall` | index.js:52-61 | `title` writes its text as one line, `line` writes an empty line whatever it is given, `row` writes its joined cells or throws |
| `LiveTable.RunAppend` | index.js:51-63 | output is live: two batches of calls write the first batch's output and then, unless the first threw, the second's, so other writers' lines land between the table lines around them |
| `LiveTable.ColumnsGivenNeverThrows` | index.js:42-49 | with `columns` given, no call raises the missing-columns TypeError; the whole transcript is written (the call-stack limit is not modelled) |
| `LiveTable.RowWithoutColumnsThrows` | index.js:36-44 | without `columns`, the run stops at the first row with a cell, after everything before it has been written |
| `Scenarios.ThreeTitles` | index.js:52-54 | three `title` calls print their three texts, one per line, in order |
| `Scenarios.TitlesAsIs` | test/index.test.js:33-41 | three titles print `this is line 1`, `this is line 2` and `this is line 3` as they are |
| `Scenarios.TitleLineTitle` | index.js:52-57 | a title, a `line` call with any arguments and a title print the first text, an empty line and the second text |
| `Scenarios.TitlesAndLines` | test/index.test.js:43-51 | a title, a `line` call with an argument and a title print `this is line 1`, an empty line and `this is line 3` |
| `Scenarios.LeftAlignRows` | test/index.test.js:53-75 | `align: 'left'` at size 6 prints `     a` and leaves `abcdef` as it is |
| `Scenarios.LeftAlignMiddleRows` | test/index.test.js:67-73 | `align: 'left'` at size 6 prints `    ab`, `   abc`, `  abcd` and ` abcde` |
| `Scenarios.RightAlignRows` | test/index.test.js:105-127 | `align: 'right'` at size 6 prints `a     ` and leaves `abcdef` as it is |
| `Scenarios.RightAlignMiddleRows` | test/index.test.js:119-125 | `align: 'right'` at size 6 prints `ab    `, `abc   `, `abcd  ` and `abcde ` |
| `Scenarios.CenterOddTarget` | index.js:23-31 | centring `ab` to the odd length 5 puts the odd unit on the right: `" ab  "` |
| `Scenarios.CenterRowA` | test/index.test.js:143-144 | centring `a` to 6 prints `   a  ` |
| `Scenarios.CenterRowAB` | test/index.test.js:143-145 | centring `ab` to 6 prints `  ab  ` |
| `Scenarios.CenterRowABC` | test/index.test.js:143-146 | centring `abc` to 6 prints `  abc ` |
| `Scenarios.CenterRowABCD` | test/index.test.js:143-147 | centring `abcd` to 6 prints ` abcd ` |
| `Scenarios.CenterRowABCDE` | test/index.test.js:143-148 | centring `abcde` to 6 prints ` abcde` |
| `Scenarios.CenterRowABCDEF` | test/index.test.js:143-149 | centring `abcdef` to 6 leaves it as it is |
| `Scenarios.SingleSpaceSeparator` | test/index.test.js:77-89 | three one-wide columns print `1 2 3` |
| `Scenarios.CustomFill` | test/index.test.js:91-103 | fills `.`, `,` and `p` at size 3 print `..1 ,,2 pp3` |
| `Scenarios.MultipleRows` | test/index.test.js:153-181 | left, centre and right columns of sizes 5, 6 and 7 print `    a    b   c      ` |
| `Scenarios.MultipleRowsTable1Row2` | test/index.test.js:153-181 | the same columns print `   ab   bc   de     ` |
| `Scenarios.MultipleRowsTable1Row3` | test/index.test.js:153-181 | the same columns print `  abc   def  ghi    ` |
| `Scenarios.MultipleRowsTable2Row1` | test/index.test.js:165-187 | right, centre and left columns of sizes 5, 6 and 7 print `a        b         c` |
| `Scenarios.MultipleRowsTable2Row2` | test/index.test.js:165-187 | the same columns print `ab      bc        de` |
| `Scenarios.MultipleRowsTable2Row3` | test/index.test.js:165-187 | the same columns print `abc     def      ghi` |

## Left out

- StrLength: the escape-sequence stripping that the `unstyle` package performs is not modelled. So cells with colour codes are not modelled to pad like plain text.
- StrLength: JavaScript's `length` counts UTF-16 code units, and the model counts characters. A character outside the Basic Multilingual Plane, such as an emoji, counts 2 in the original and 1 here. The model's length is right only for text without escape sequences whose characters all lie in that plane. The same holds for a fill character outside it, which the original counts as two units per step.
- LiveTable.ColumnsGivenNeverThrows: the JavaScript call-stack limit is not modelled. The padders recurse once per fill unit, so a very large `size` (100000, say) makes the original throw a RangeError. The model pads to any size without throwing.
- A column `char`, or a fill passed to `pad.left`, `pad.right` or `pad.center` directly, other than one code unit. `formatRow` hands a column's `char` to the padder unchanged (index.js:48), so `{size: 6, char: '-='}` turns `a` into `-=-=-=a`, 7 units long: a longer fill overshoots the target. An empty fill passed directly would recurse forever; `formatRow` replaces an empty `char` with a space. The model takes the fill as one `char`, so it cannot express a longer one.
- Non-string cells, a `title` argument that is not a string or is missing, and sizes that are not integers. JavaScript would coerce a number cell to text, and `title()` with no argument prints `undefined` (index.js:53); the model's `Title` always carries a string. A fractional size pads up to the next whole length, and `NaN` counts as falsy.
- An `opts` that is itself missing, which makes the table constructor throw (index.js:36).
- Alignment names that hit JavaScript object properties, such as `align: 'toString'`, which `pad[align]` would pick up. The model treats every name other than `right` and `center` as `left`.
- Writing to standard output itself, and the failure of a write. `console.log` is modelled as appending its line to a transcript.
- The pending test about live printing interleaved with other `console.log` calls (test/index.test.js:190). Its logical content, that each call's output follows the previous one with nothing buffered, is `LiveTable.RunAppend`.
