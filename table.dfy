/** The table object `module.exports(opts)` returns: `title`, `line` and
    `row`, each printing one line as soon as it is called. Printing is
    modelled as a transcript: the text the calls write to standard output, in
    order, and the error a call threw, after which nothing more runs. */
module LiveTable {
  import opened Wrappers
  import opened Layout

  /** The options object; only `columns` is ever read (there is no separator
      option). `None` is an options object without `columns`. */
  datatype Options = Options(columns: Option<Columns>)

  /** What a call can throw: `row` with at least one cell reads
      `columns[idx]` while `columns` is undefined, a TypeError. */
  datatype TableError = ColumnsUndefined

  /** One call on the table, or `Log`: a line another writer prints with
      `console.log` between two table calls. */
  datatype Call =
    | Title(text: string)
    | Line(args: seq<string>)
    | Row(cells: seq<string>)
    | Log(text: string)

  /** The line `api.row` prints for its cells. */
  function RowLine(opts: Options, cells: seq<string>): (r: Result<string, TableError>)
    ensures r.Err? <==> opts.columns.None? && |cells| > 0
    ensures opts.columns.Some? ==> r == Ok(Join(FormatAll(opts.columns.value, cells), Sep))
    ensures opts.columns.None? && |cells| == 0 ==> r == Ok("")
  {
    match opts.columns
    case None => if |cells| == 0 then Ok("") else Err(ColumnsUndefined)
    case Some(columns) => Ok(RowText(columns, cells))
  }

  /** The line a call prints, before the line terminator `console.log` adds:
      the title as it is, the empty line whatever `line` is given, the
      formatted row. */
  function Printed(opts: Options, call: Call): Result<string, TableError>
  {
    match call
    case Title(text) => Ok(text)
    case Line(_) => Ok("")
    case Row(cells) => RowLine(opts, cells)
    case Log(text) => Ok(text)
  }

  /** What a run of calls leaves behind: the text written so far and the
      error that stopped it, if any. */
  datatype Transcript = Transcript(out: string, thrown: Option<TableError>)

  /** Runs the calls in order; each printed line is written at once, followed
      by a newline. A call that throws writes nothing and ends the run.
      This is a caller that does not catch the error; the table keeps no
      state, so a caller that catches it could go on calling and later
      calls would still print. */
  function Run(opts: Options, calls: seq<Call>): Transcript
  {
    if |calls| == 0 then Transcript("", None)
    else
      match Printed(opts, calls[0])
      case Err(e) => Transcript("", Some(e))
      case Ok(line) =>
        var rest := Run(opts, calls[1..]);
        Transcript(line + "\n" + rest.out, rest.thrown)
  }

  /** Output is live: running two batches of calls writes what the first
      writes and then, unless the first threw, what the second writes. Lines
      of other writers (`Log`) therefore land exactly between the table lines
      around them. */
  lemma {:induction false} RunAppend(opts: Options, first: seq<Call>, second: seq<Call>)
    ensures Run(opts, first + second)
         == if Run(opts, first).thrown.Some? then Run(opts, first)
            else Transcript(Run(opts, first).out + Run(opts, second).out, Run(opts, second).thrown)
    decreases |first|
  {
    if |first| == 0 {
      assert first + second == second;
    } else {
      assert (first + second)[0] == first[0];
      assert (first + second)[1..] == first[1..] + second;
      RunAppend(opts, first[1..], second);
    }
  }

  /** A single call's output: `title` writes its text as one line, `line`
      writes an empty line whatever it is given, and `row` writes its cells
      joined by single spaces, or throws when `columns` is missing. */
  lemma SingleCall(opts: Options, call: Call)
    ensures call.Title? ==> Run(opts, [call]) == Transcript(call.text + "\n", None)
    ensures call.Line? ==> Run(opts, [call]) == Transcript("\n", None)
    ensures call.Row? && opts.columns.Some? ==>
              Run(opts, [call]) == Transcript(Join(FormatAll(opts.columns.value, call.cells), Sep) + "\n", None)
    ensures call.Row? && opts.columns.None? && |call.cells| > 0 ==>
              Run(opts, [call]) == Transcript("", Some(ColumnsUndefined))
  {
    assert [call][1..] == [];
  }

  /** With `columns` given, no call throws: every call is written. The
      original's padders recurse once per fill unit, so there a huge `size`
      can still exhaust the call stack; that limit is not modelled. */
  lemma {:induction false} ColumnsGivenNeverThrows(opts: Options, calls: seq<Call>)
    requires opts.columns.Some?
    ensures Run(opts, calls).thrown == None
    decreases |calls|
  {
    if |calls| > 0 {
      ColumnsGivenNeverThrows(opts, calls[1..]);
    }
  }

  /** Without `columns`, the run stops at the first row that has a cell, and
      everything before it has already been written. */
  lemma RowWithoutColumnsThrows(opts: Options, before: seq<Call>, cells: seq<string>, after: seq<Call>)
    requires opts.columns.None? && |cells| > 0
    requires Run(opts, before).thrown == None
    ensures Run(opts, before + [Row(cells)] + after) == Transcript(Run(opts, before).out, Some(ColumnsUndefined))
  {
    RunAppend(opts, before, [Row(cells)] + after);
    assert before + [Row(cells)] + after == before + ([Row(cells)] + after);
    assert ([Row(cells)] + after)[0] == Row(cells);
  }
}
