/** The identity batches: every data record of a fetched spreadsheet is
    looked up with `check_nik_kk` and becomes one report row. Two layouts
    exist: the six-column report of `process_spreadsheet_from_url` and the
    four-column report of `/urlceknik`. */
module IdentityBatch {
  import opened Results
  import opened Strings
  import opened IdentityLookup
  import opened Export
  import opened Batch
  import opened Http

  /** The identity service: the exchange a lookup of `(nik, kk)` receives. */
  type Service = (string, string) -> Exchange

  /** `check_nik_kk` as the batches call it, one key pair at a time. */
  type Checker = (string, string) -> LookupResult

  const Succeeded := "Berhasil"
  const Failed := "Gagal"
  const NumberSeparator := ", "

  /** The checker the bots use: `check_nik_kk` against the service. */
  function Checked(service: Service): (check: Checker)
    ensures forall nik, kk :: check(nik, kk) == CheckNikKk(service(nik, kk))
  {
    (nik, kk) => CheckNikKk(service(nik, kk))
  }

  /** One row of the six-column report. */
  function ReportRow(nik: string, kk: string, r: LookupResult): (row: Row)
    ensures |row| == |IdentityColumns|
  {
    match r
    case Found(_, nomor, sisa) =>
      [Text(nik), Text(kk), Text(Succeeded), Text(Join(NumberSeparator, nomor)), Text(""), Number(sisa)]
    case NotFound(message, sisa) =>
      [Text(nik), Text(kk), Text(Failed), Text(""), Text(message), Number(sisa)]
  }

  /** The cells of a report row for any lookup result. */
  lemma ReportRowCells(nik: string, kk: string, r: LookupResult)
    ensures var row := ReportRow(nik, kk, r);
      && |row| == 6
      && row[0] == Text(nik) && row[1] == Text(kk)
      && (row[2] == Text(Succeeded) <==> r.Found?)
      && (row[2] == Text(Failed) <==> r.NotFound?)
      && row[3] == Text(Join(NumberSeparator, Numbers(r)))
      && (r.Found? ==> row[4] == Text(""))
      && (r.NotFound? ==> row[4] == Text(r.message))
      && row[5] == Number(r.sisa)
  {
    assert Succeeded[0] != Failed[0];
  }

  /** A report row echoes the key, says whether the lookup succeeded, lists
      the numbers found or the failure message, and ends with the free slot
      count, which with the numbers found makes three. */
  lemma ReportRowMeaning(nik: string, kk: string, x: Exchange)
    ensures var r := CheckNikKk(x);
      var row := ReportRow(nik, kk, r);
      && |row| == 6
      && row[0] == Text(nik) && row[1] == Text(kk)
      && (row[2] == Text(Succeeded) <==> r.Found?)
      && (row[2] == Text(Failed) <==> r.NotFound?)
      && row[3] == Text(Join(NumberSeparator, Numbers(r)))
      && (r.Found? ==> row[4] == Text(""))
      && (r.NotFound? ==> row[4] == Text(r.message))
      && row[5] == Number(Slots - |Numbers(r)|)
  {
    var r := CheckNikKk(x);
    assert r.sisa == Slots - |Numbers(r)|;
    ReportRowCells(nik, kk, r);
  }

  /** `process_spreadsheet_from_url` once the sheet is fetched: the header
      row, then one row per data record in record order; a record with fewer
      than two cells aborts the batch. */
  function ProcessSpreadsheet(table: seq<seq<string>>, check: Checker): (r: Result<seq<Row>, Failure>)
    ensures r.Ok? <==> forall i :: 0 <= i < |DataRows(table)| ==> |DataRows(table)[i]| >= 2
    ensures r.Ok? ==>
      && |r.value| == |DataRows(table)| + 1
      && r.value[0] == TextRow(IdentityColumns)
      && forall i :: 0 <= i < |DataRows(table)| ==>
           r.value[i + 1] == ReportRow(DataRows(table)[i][0], DataRows(table)[i][1],
                                       check(DataRows(table)[i][0], DataRows(table)[i][1]))
    ensures r.Ok? ==> forall i :: 0 <= i < |r.value| ==> |r.value[i]| == |IdentityColumns|
    ensures r.Err? ==>
      r.error.RowTooShort? && r.error.row < |DataRows(table)| && |DataRows(table)[r.error.row]| < 2
  {
    match ForEachPair(DataRows(table), (nik, kk) => ReportRow(nik, kk, check(nik, kk)))
    case Ok(rows) => Ok([TextRow(IdentityColumns)] + rows)
    case Err(e) => Err(e)
  }

  /** With the bots' checker, report row i + 1 is read straight off the
      service's replies for record i: "Berhasil" exactly when the POST
      redirected, the GET answered 200 and the page held both parts; a
      rejected POST puts its status code in the message and leaves all three
      slots free. */
  lemma ReportRowFromService(table: seq<seq<string>>, service: Service, i: nat)
    requires ProcessSpreadsheet(table, Checked(service)).Ok?
    requires i < |DataRows(table)|
    ensures var d := DataRows(table)[i];
      var x := service(d[0], d[1]);
      var row := ProcessSpreadsheet(table, Checked(service)).value[i + 1];
      && row[0] == Text(d[0]) && row[1] == Text(d[1])
      && (row[2] == Text(Succeeded) <==>
            x.postStatus == Redirect && x.get.status == IdentityLookup.Ok
            && x.get.page.heading.Some? && x.get.page.items.Some?)
      && (x.postStatus != Redirect ==>
            row[3] == Text("") && row[4] == Text(PostFailedPrefix + NatToString(x.postStatus))
            && row[5] == Number(Slots))
  {
    var d := DataRows(table)[i];
    var x := service(d[0], d[1]);
    var rows := ProcessSpreadsheet(table, Checked(service)).value;
    assert rows[i + 1] == ReportRow(d[0], d[1], CheckNikKk(x));
    ReportRowMeaning(d[0], d[1], x);
  }

  /** `process_spreadsheet_from_url(url)` given what the download produced:
      a failed download ends the batch before any lookup. */
  function SpreadsheetReport(reply: FetchReply, check: Checker): (r: Result<seq<Row>, Failure>)
    ensures FetchRecords(reply).Err? ==> r == Err(FetchFailed(FetchRecords(reply).error))
    ensures FetchRecords(reply).Ok? ==> r == ProcessSpreadsheet(FetchRecords(reply).value, check)
    ensures r.Ok? ==> FetchRecords(reply).Ok? && r.value[0] == TextRow(IdentityColumns)
  {
    match FetchRecords(reply)
    case Err(detail) => Err(FetchFailed(detail))
    case Ok(records) => ProcessSpreadsheet(records, check)
  }

  /** The six-column report always fits the spreadsheet's six column
      names, so its spreadsheet export never meets pandas' width check. */
  lemma ReportExcelSaves(table: seq<seq<string>>, check: Checker, now: Timestamps.DateTime)
    requires ProcessSpreadsheet(table, check).Ok?
    ensures var rows := ProcessSpreadsheet(table, check).value;
      var r := SaveResults(rows, "excel", now);
      r.Ok? && r.value.content == Sheet(IdentityColumns, rows)
  {
    var rows := ProcessSpreadsheet(table, check).value;
    assert |rows[0]| == |IdentityColumns|;
  }

  /** Any data row makes the six-column report unwritable as text: its
      `sisa` cell is an int, and `" | ".join` raises on it. */
  lemma ReportTxtAlwaysRaises(table: seq<seq<string>>, check: Checker, now: Timestamps.DateTime)
    requires ProcessSpreadsheet(table, check).Ok?
    requires |DataRows(table)| >= 1
    ensures SaveResults(ProcessSpreadsheet(table, check).value, "txt", now) == Err(CellNotText(1))
  {
    var rows: seq<Row> := ProcessSpreadsheet(table, check).value;
    var d := DataRows(table);
    assert rows[1] == ReportRow(d[0][0], d[0][1], check(d[0][0], d[0][1]));
    assert !AllText(rows[1]) by {
      assert rows[1][5].Number?;
    }
    assert AllText(rows[0]);
    assert rows[1..][0] == rows[1];
    assert TxtLines(rows[1..]) == Err(0);
    assert TxtLines(rows) == Err(1);
  }

  const UrlColumns := ["NIK", "KK", "Nomor", "Sisa"]

  /** One row of the four-column `/urlceknik` report: on failure "Gagal"
      stands under Nomor and the message under Sisa. */
  function UrlRow(nik: string, kk: string, r: LookupResult): (row: Row)
    ensures |row| == |UrlColumns|
  {
    match r
    case Found(_, nomor, sisa) => [Text(nik), Text(kk), Text(Join(NumberSeparator, nomor)), Number(sisa)]
    case NotFound(message, _) => [Text(nik), Text(kk), Text(Failed), Text(message)]
  }

  /** A four-column row echoes the key; its last cell is the free slot count
      exactly when the lookup succeeded, and the failure message otherwise. */
  lemma UrlRowMeaning(nik: string, kk: string, x: Exchange)
    ensures var r := CheckNikKk(x);
      var row := UrlRow(nik, kk, r);
      && |row| == 4
      && row[0] == Text(nik) && row[1] == Text(kk)
      && (row[3].Number? <==> r.Found?)
      && (r.Found? ==> row[2] == Text(Join(NumberSeparator, r.nomor)) && row[3].n + |r.nomor| == Slots)
      && (r.NotFound? ==> row[2] == Text(Failed) && row[3] == Text(r.message))
  {
    var r := CheckNikKk(x);
    assert r.sisa == Slots - |Numbers(r)|;
    match r
    case Found(_, nomor, sisa) =>
      assert UrlRow(nik, kk, r) == [Text(nik), Text(kk), Text(Join(NumberSeparator, nomor)), Number(sisa)];
    case NotFound(message, _) =>
      assert UrlRow(nik, kk, r) == [Text(nik), Text(kk), Text(Failed), Text(message)];
  }

  /** The rows `/urlceknik` writes after its header: one per data record, in
      order; a short record aborts. */
  function UrlCekNikRows(table: seq<seq<string>>, check: Checker): (r: Result<seq<Row>, Failure>)
    ensures r.Ok? <==> forall i :: 0 <= i < |DataRows(table)| ==> |DataRows(table)[i]| >= 2
    ensures r.Ok? ==>
      && |r.value| == |DataRows(table)|
      && forall i :: 0 <= i < |DataRows(table)| ==>
           r.value[i] == UrlRow(DataRows(table)[i][0], DataRows(table)[i][1],
                                check(DataRows(table)[i][0], DataRows(table)[i][1]))
    ensures r.Err? ==>
      r.error.RowTooShort? && r.error.row < |DataRows(table)| && |DataRows(table)[r.error.row]| < 2
  {
    ForEachPair(DataRows(table), (nik, kk) => UrlRow(nik, kk, check(nik, kk)))
  }

  /** For one record, the two layouts agree on success and on the numbers. */
  lemma RowsAgree(nik: string, kk: string, r: LookupResult)
    ensures (ReportRow(nik, kk, r)[2] == Text(Succeeded)) <==> UrlRow(nik, kk, r)[3].Number?
    ensures UrlRow(nik, kk, r)[3].Number? ==> ReportRow(nik, kk, r)[3] == UrlRow(nik, kk, r)[2]
  {
    assert Succeeded != Failed by {
      assert Succeeded[0] != Failed[0];
    }
  }

  /** Both layouts agree on which records succeeded and on their numbers. */
  lemma LayoutsAgree(table: seq<seq<string>>, check: Checker)
    requires ProcessSpreadsheet(table, check).Ok?
    ensures UrlCekNikRows(table, check).Ok?
    ensures forall i :: 0 <= i < |DataRows(table)| ==>
      ((ProcessSpreadsheet(table, check).value[i + 1][2] == Text(Succeeded))
       <==> UrlCekNikRows(table, check).value[i][3].Number?)
    ensures forall i :: 0 <= i < |DataRows(table)| && UrlCekNikRows(table, check).value[i][3].Number? ==>
      ProcessSpreadsheet(table, check).value[i + 1][3] == UrlCekNikRows(table, check).value[i][2]
  {
    var d := DataRows(table);
    var six: seq<Row> := ProcessSpreadsheet(table, check).value;
    var four: seq<Row> := UrlCekNikRows(table, check).value;
    forall i | 0 <= i < |d|
      ensures (six[i + 1][2] == Text(Succeeded)) <==> four[i][3].Number?
      ensures four[i][3].Number? ==> six[i + 1][3] == four[i][2]
    {
      var r := check(d[i][0], d[i][1]);
      assert six[i + 1] == ReportRow(d[i][0], d[i][1], r);
      assert four[i] == UrlRow(d[i][0], d[i][1], r);
      RowsAgree(d[i][0], d[i][1], r);
    }
  }
}
