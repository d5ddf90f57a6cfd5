/** What the bots hand back to the user: a report file named after the clock,
    in CSV, pipe-separated text or spreadsheet form, or the reason no file
    was sent. The csv/openpyxl byte formats are not modelled: a CSV file is
    its sequence of records, a spreadsheet its header and rows. */
module Export {
  import opened Results
  import opened Strings
  import opened Timestamps

  /** A report cell: the bots put strings in every cell except the identity
      batch's `sisa` count, which stays a Python int. */
  datatype Cell = Text(text: string) | Number(n: int)

  type Row = seq<Cell>

  function TextRow(cells: seq<string>): (row: Row)
    ensures |row| == |cells|
    ensures forall i :: 0 <= i < |cells| ==> row[i] == Text(cells[i])
  {
    seq(|cells|, i requires 0 <= i < |cells| => Text(cells[i]))
  }

  /** The body of a generated file. */
  datatype Content =
    | Csv(rows: seq<Row>)                       // `csv.writer.writerows`, one record per row
    | Lines(lines: seq<string>)                 // text lines written one after another
    | Sheet(columns: seq<string>, rows: seq<Row>) // one spreadsheet sheet under a header
    | Plain(text: string)                       // one string written as is

  datatype Artifact = Artifact(filename: string, content: Content)

  /** The Python exceptions that end a batch or an export. */
  datatype Failure =
    | FetchFailed(detail: string)  // `requests.get(url)` or `raise_for_status` raised
    | RowTooShort(row: nat)        // `row[0]` / `row[1]` raised IndexError on this data row
    | CellNotText(row: nat)        // `" | ".join(row)` raised TypeError on this row
    | FilenameUnbound              // no branch bound the filename (unknown format)
    | ColumnCountMismatch(width: nat) // pandas' `DataFrame` got rows this wide for its column names

  /** Why a handler ended without sending a file. */
  datatype Refusal =
    | NoPendingData        // nothing stored for this user
    | InvalidInput         // the arguments were rejected before any work
    | Raised(failure: Failure)
    | UnknownChoice        // a format nobody handles, silently ignored

  /** What one button press or command delivers: a file (and whether it is
      deleted from disk after sending), or no file. */
  datatype Delivery = Sent(artifact: Artifact, removedAfterSending: bool) | NotSent(reason: Refusal)

  function Filename(prefix: string, now: DateTime, extension: string): string {
    prefix + Stamp(now) + extension
  }

  /** Two exports with the same prefix and extension share a name only when
      they were made in the same second. */
  lemma FilenameDeterminesTime(prefix: string, extension: string, t1: DateTime, t2: DateTime)
    requires Filename(prefix, t1, extension) == Filename(prefix, t2, extension)
    ensures t1 == t2
  {
    StampRoundTrip(t1);
    StampRoundTrip(t2);
    var n1, n2 := Filename(prefix, t1, extension), Filename(prefix, t2, extension);
    assert n1[|prefix|..|prefix| + StampLength] == Stamp(t1);
    assert n2[|prefix|..|prefix| + StampLength] == Stamp(t2);
    StampInjective(t1, t2);
  }

  /** The extension each format button maps to. */
  function Extension(format: string): Option<string> {
    if format == "csv" then Some(".csv")
    else if format == "txt" then Some(".txt")
    else if format == "excel" then Some(".xlsx")
    else None
  }

  predicate AllText(row: Row) {
    forall i :: 0 <= i < |row| ==> row[i].Text?
  }

  function Texts(row: Row): (cells: seq<string>)
    requires AllText(row)
    ensures TextRow(cells) == row
  {
    seq(|row|, i requires 0 <= i < |row| => row[i].text)
  }

  const TxtSeparator := " | "

  /** The TXT branch of `save_results`: each row written as
      `" | ".join(row) + "\n"`. `join` raises on the first row that holds a
      non-string cell; the error is that row's index. */
  function TxtLines(rows: seq<Row>): (r: Result<seq<string>, nat>)
    ensures r.Ok? <==> forall i :: 0 <= i < |rows| ==> AllText(rows[i])
    ensures r.Ok? ==>
      |r.value| == |rows|
      && forall i :: 0 <= i < |rows| ==> r.value[i] == Join(TxtSeparator, Texts(rows[i])) + "\n"
    ensures r.Err? ==>
      r.error < |rows| && !AllText(rows[r.error])
      && forall i :: 0 <= i < r.error ==> AllText(rows[i])
  {
    if rows == [] then Ok([])
    else if !AllText(rows[0]) then Err(0)
    else
      match TxtLines(rows[1..])
      case Ok(rest) => Ok([Join(TxtSeparator, Texts(rows[0])) + "\n"] + rest)
      case Err(k) => Err(k + 1)
  }

  /** The length of the longest row: the width pandas pads every row to
      when it builds a `DataFrame` from a list of lists, and the width it
      compares with the number of column names. */
  function Widest<T>(rows: seq<seq<T>>): (w: nat)
    ensures forall i :: 0 <= i < |rows| ==> |rows[i]| <= w
    ensures rows != [] ==> exists i :: 0 <= i < |rows| && |rows[i]| == w
    ensures rows == [] ==> w == 0
  {
    if rows == [] then 0
    else
      var rest := Widest(rows[1..]);
      assert forall i :: 1 <= i < |rows| ==> rows[i] == rows[1..][i - 1];
      if |rows[0]| >= rest then |rows[0]| else rest
  }

  /** pandas' `DataFrame(rows, columns=columns)` accepts the rows exactly
      when there are none or the widest has one cell per column name. */
  predicate FitsColumns(columns: seq<string>, rows: seq<Row>) {
    rows == [] || Widest(rows) == |columns|
  }

  const IdentityColumns := ["NIK", "KK", "Status", "Nomor", "Message", "Sisa"]
  const ResultsPrefix := "results_"

  /** `save_results` (and its copy `ceknik_save_results`): the report named
      `results_<stamp>` with the format's extension. CSV keeps every row as
      it is; TXT needs every cell to be a string; the spreadsheet puts all
      rows, the header row included, under the six identity columns, and
      pandas raises a ValueError unless the widest row has six cells. */
  function SaveResults(results: seq<Row>, format: string, now: DateTime): (r: Result<Artifact, Failure>)
    ensures Extension(format).None? ==> r == Err(FilenameUnbound)
    ensures r.Ok? ==> Extension(format).Some?
    ensures r.Ok? && Extension(format).Some? ==> r.value.filename == Filename(ResultsPrefix, now, Extension(format).value)
    ensures format == "csv" ==> r.Ok? && r.value.content == Csv(results)
    ensures format == "excel" && FitsColumns(IdentityColumns, results) ==>
      r.Ok? && r.value.content == Sheet(IdentityColumns, results)
    ensures format == "excel" && !FitsColumns(IdentityColumns, results) ==>
      r == Err(ColumnCountMismatch(Widest(results)))
    ensures format == "txt" ==>
      (r.Ok? <==> forall i :: 0 <= i < |results| ==> AllText(results[i]))
      && (r.Ok? ==> r.value.content == Lines(TxtLines(results).value))
      && (r.Err? ==> r.error == CellNotText(TxtLines(results).error))
  {
    if format == "csv" then Ok(Artifact(Filename(ResultsPrefix, now, ".csv"), Csv(results)))
    else if format == "txt" then
      match TxtLines(results)
      case Ok(lines) => Ok(Artifact(Filename(ResultsPrefix, now, ".txt"), Lines(lines)))
      case Err(k) => Err(CellNotText(k))
    else if format == "excel" then
      if FitsColumns(IdentityColumns, results) then Ok(Artifact(Filename(ResultsPrefix, now, ".xlsx"), Sheet(IdentityColumns, results)))
      else Err(ColumnCountMismatch(Widest(results)))
    else Err(FilenameUnbound)
  }

  /** The clock only names the file: whether a save succeeds, and what the
      file holds, do not depend on it. */
  lemma SaveResultsIgnoresTime(results: seq<Row>, format: string, t1: DateTime, t2: DateTime)
    ensures SaveResults(results, format, t1).Ok? <==> SaveResults(results, format, t2).Ok?
    ensures SaveResults(results, format, t1).Ok? ==>
      SaveResults(results, format, t1).value.content == SaveResults(results, format, t2).value.content
    ensures SaveResults(results, format, t1).Err? ==>
      SaveResults(results, format, t1).error == SaveResults(results, format, t2).error
  {
  }

  /** The text of a file written line by line. */
  function Concat(lines: seq<string>): string {
    if lines == [] then "" else lines[0] + Concat(lines[1..])
  }

  /** Each body followed by a newline: how the bots write lines to a file. */
  function Terminated(bodies: seq<string>): (lines: seq<string>)
    ensures |lines| == |bodies|
    ensures forall i :: 0 <= i < |bodies| ==> lines[i] == bodies[i] + "\n"
  {
    seq(|bodies|, i requires 0 <= i < |bodies| => bodies[i] + "\n")
  }

  /** Lines that each end in a newline concatenate to their bodies joined by
      newlines, plus the final newline. */
  lemma {:induction false} ConcatTerminated(bodies: seq<string>)
    requires |bodies| >= 1
    ensures Concat(Terminated(bodies)) == Join("\n", bodies + [""])
    decreases |bodies|
  {
    var lines := Terminated(bodies);
    if |bodies| == 1 {
      assert Concat(lines) == bodies[0] + "\n" + Concat([]);
      assert (bodies + [""])[1..] == [""];
    } else {
      var rest := bodies[1..];
      ConcatTerminated(rest);
      assert lines[1..] == Terminated(rest);
      assert (bodies + [""])[1..] == rest + [""];
    }
  }

  /** A file written as newline-terminated lines reads back, split at
      newlines, as those lines followed by the empty tail after the last
      newline, as long as no line holds a newline of its own. */
  lemma LinesReadBack(bodies: seq<string>)
    requires |bodies| >= 1
    requires forall i :: 0 <= i < |bodies| ==> '\n' !in bodies[i]
    ensures Split(Concat(Terminated(bodies)), '\n') == bodies + [""]
  {
    ConcatTerminated(bodies);
    var parts := bodies + [""];
    assert forall i :: 0 <= i < |parts| ==> '\n' !in parts[i];
    SplitJoin(parts, '\n');
  }

  /** A character that occurs neither in the separator nor in any part does
      not occur in the joined string. */
  lemma {:induction false} JoinAvoids(sep: string, parts: seq<string>, c: char)
    requires c !in sep
    requires forall i :: 0 <= i < |parts| ==> c !in parts[i]
    ensures c !in Join(sep, parts)
    decreases |parts|
  {
    if |parts| > 1 {
      JoinAvoids(sep, parts[1..], c);
    }
  }

  function TextRows(table: seq<seq<string>>): (rows: seq<Row>)
    ensures |rows| == |table|
    ensures forall i :: 0 <= i < |table| ==> rows[i] == TextRow(table[i])
  {
    seq(|table|, i requires 0 <= i < |table| => TextRow(table[i]))
  }

  /** A file of a header record followed by the data rows, all text. */
  function WithHeader(header: seq<string>, rows: seq<seq<string>>): (records: seq<Row>)
    ensures |records| == |rows| + 1
    ensures records[0] == TextRow(header)
    ensures forall i :: 0 <= i < |rows| ==> records[i + 1] == TextRow(rows[i])
  {
    var all := [header] + rows;
    assert forall i :: 0 <= i < |rows| ==> all[i + 1] == rows[i];
    TextRows(all)
  }

  function PipeJoined(table: seq<seq<string>>): (bodies: seq<string>)
    ensures |bodies| == |table|
    ensures forall i :: 0 <= i < |table| ==> bodies[i] == Join(TxtSeparator, table[i])
  {
    seq(|table|, i requires 0 <= i < |table| => Join(TxtSeparator, table[i]))
  }

  lemma TxtLinesOfText(table: seq<seq<string>>)
    ensures TxtLines(TextRows(table)).Ok?
    ensures TxtLines(TextRows(table)).value == Terminated(PipeJoined(table))
  {
    var rows := TextRows(table);
    forall i | 0 <= i < |rows|
      ensures AllText(rows[i]) && Texts(rows[i]) == table[i]
    {
      assert TextRow(Texts(rows[i])) == TextRow(table[i]);
      assert |Texts(rows[i])| == |table[i]|;
      forall j | 0 <= j < |table[i]|
        ensures Texts(rows[i])[j] == table[i][j]
      {
        assert TextRow(Texts(rows[i]))[j] == Text(Texts(rows[i])[j]);
      }
    }
    var lines := TxtLines(rows).value;
    assert forall i :: 0 <= i < |table| ==> lines[i] == PipeJoined(table)[i] + "\n";
  }

  /** Reading a TXT report back: for string cells without newlines, splitting
      the file text at newlines gives one pipe-joined line per row, in row
      order, then the empty tail after the last newline. */
  lemma TxtReadsBack(table: seq<seq<string>>)
    requires |table| >= 1
    requires forall i, j :: 0 <= i < |table| && 0 <= j < |table[i]| ==> '\n' !in table[i][j]
    ensures TxtLines(TextRows(table)).Ok?
    ensures Split(Concat(TxtLines(TextRows(table)).value), '\n') == PipeJoined(table) + [""]
  {
    var bodies := PipeJoined(table);
    TxtLinesOfText(table);
    forall i | 0 <= i < |bodies|
      ensures '\n' !in bodies[i]
    {
      JoinAvoids(TxtSeparator, table[i], '\n');
    }
    LinesReadBack(bodies);
  }

  /** A report holding any row with a number cell cannot be written as text. */
  lemma NumberCellBlocksTxt(results: seq<Row>, now: DateTime, k: nat, j: nat)
    requires k < |results| && j < |results[k]| && results[k][j].Number?
    ensures SaveResults(results, "txt", now).Err?
  {
  }
}
