/** The loop every spreadsheet batch runs: skip the header record, then read
    the key cells of each remaining record and build one report row from them.
    Indexing a record that is too short raises IndexError, which aborts the
    whole batch; there is no per-row recovery. */
module Batch {
  import opened Results
  import opened Export

  /** The records after the first, which `next(reader, None)` discards. */
  function DataRows(table: seq<seq<string>>): (rows: seq<seq<string>>)
    ensures table == [] ==> rows == []
    ensures table != [] ==> [table[0]] + rows == table
  {
    if table == [] then [] else table[1..]
  }

  /** `for row in reader: build(row[0], row[1])`: one report row per record,
      in record order, or the index of the first record with fewer than two
      cells. */
  function ForEachPair(rows: seq<seq<string>>, build: (string, string) -> Row): (r: Result<seq<Row>, Failure>)
    ensures r.Ok? <==> forall i :: 0 <= i < |rows| ==> |rows[i]| >= 2
    ensures r.Ok? ==>
      |r.value| == |rows|
      && forall i :: 0 <= i < |rows| ==> r.value[i] == build(rows[i][0], rows[i][1])
    ensures r.Err? ==>
      r.error.RowTooShort? && r.error.row < |rows| && |rows[r.error.row]| < 2
      && forall i :: 0 <= i < r.error.row ==> |rows[i]| >= 2
  {
    if rows == [] then Ok([])
    else if |rows[0]| < 2 then Err(RowTooShort(0))
    else
      match ForEachPair(rows[1..], build)
      case Ok(rest) => Ok([build(rows[0][0], rows[0][1])] + rest)
      case Err(e) => Err(RowTooShort(e.row + 1))
  }

  /** `for row in reader: build(row[0])`: one report row per record, in
      record order, or the index of the first empty record. */
  function ForEachFirst(rows: seq<seq<string>>, build: string -> Row): (r: Result<seq<Row>, Failure>)
    ensures r.Ok? <==> forall i :: 0 <= i < |rows| ==> |rows[i]| >= 1
    ensures r.Ok? ==>
      |r.value| == |rows|
      && forall i :: 0 <= i < |rows| ==> r.value[i] == build(rows[i][0])
    ensures r.Err? ==>
      r.error.RowTooShort? && r.error.row < |rows| && |rows[r.error.row]| == 0
      && forall i :: 0 <= i < r.error.row ==> |rows[i]| >= 1
  {
    if rows == [] then Ok([])
    else if |rows[0]| == 0 then Err(RowTooShort(0))
    else
      match ForEachFirst(rows[1..], build)
      case Ok(rest) => Ok([build(rows[0][0])] + rest)
      case Err(e) => Err(RowTooShort(e.row + 1))
  }

  /** Extra cells after the key cells are ignored. */
  lemma ExtraCellsIgnored(rows: seq<seq<string>>, wider: seq<seq<string>>, build: (string, string) -> Row)
    requires |rows| == |wider|
    requires forall i :: 0 <= i < |rows| ==> |rows[i]| >= 2 && rows[i] <= wider[i]
    ensures ForEachPair(rows, build) == ForEachPair(wider, build)
  {
    var a, b := ForEachPair(rows, build), ForEachPair(wider, build);
    assert forall i :: 0 <= i < |rows| ==> rows[i][0] == wider[i][0] && rows[i][1] == wider[i][1];
    assert a.value == b.value;
  }
}
