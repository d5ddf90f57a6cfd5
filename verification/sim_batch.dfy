/** The SIM batches: the textarea reports of `read_from_textarea_*` (one entry
    per line of the message), the `/nomor` result strings (one per command
    argument) and the `/urlcekstatus` rows (one per spreadsheet record). Each
    entry is looked up with `check_sim_status`. */
module SimBatch {
  import opened Results
  import opened Strings
  import opened Http
  import opened SimStatus
  import opened Msisdn
  import opened Export
  import opened Batch

  /** The SIM status service: the reply a lookup of one MSISDN receives. */
  type SimService = string -> SimResponse

  /** `check_sim_status` as the batches call it, one MSISDN at a time. */
  type SimChecker = string -> SimResult

  /** The checker the bots use: `check_sim_status` against the service. */
  function SimChecked(service: SimService): (check: SimChecker)
    ensures forall m :: check(m) == CheckSimStatus(service(m))
  {
    m => CheckSimStatus(service(m))
  }

  /** `text_data.strip().split("\n")`: the lines of the message, one more than
      the newlines inside its stripped text, which join back to that text. */
  function Entries(text: string): (entries: seq<string>)
    ensures |entries| == Count(Strip(text), '\n') + 1
    ensures forall i :: 0 <= i < |entries| ==> '\n' !in entries[i]
    ensures Join("\n", entries) == Strip(text)
  {
    Split(Strip(text), '\n')
  }

  /** Every entry after `msisdn.strip()` and the "08" rewrite, in line order. */
  function Msisdns(text: string): (ms: seq<string>)
    ensures |ms| == |Entries(text)|
    ensures forall i :: 0 <= i < |ms| ==> ms[i] == CleanMsisdn(Entries(text)[i])
  {
    var entries := Entries(text);
    seq(|entries|, i requires 0 <= i < |entries| => CleanMsisdn(entries[i]))
  }

  const TextareaColumns := ["MSISDN", "Card Status", "Activation Status", "Last 4 ICCID", "Message"]

  /** One CSV/spreadsheet row of the textarea report. */
  function TextareaRow(m: string, r: SimResult): (row: seq<string>)
    ensures |row| == |TextareaColumns| && row[0] == m
  {
    match r
    case Active(card, activation, last) => [m, card, activation, last, ""]
    case Failed(message) => [m, "", "", "", message]
  }

  /** A textarea row has one cell per column, starts with the MSISDN, and
      holds either the three status fields or the message, never both. */
  lemma TextareaRowMeaning(m: string, r: SimResult)
    ensures |TextareaRow(m, r)| == |TextareaColumns|
    ensures TextareaRow(m, r)[0] == m
    ensures r.Active? ==>
      TextareaRow(m, r)[1..4] == [r.cardStatus, r.activationStatus, r.lastIccid] && TextareaRow(m, r)[4] == ""
    ensures r.Failed? ==>
      TextareaRow(m, r)[1..4] == ["", "", ""] && TextareaRow(m, r)[4] == r.message
  {
  }

  /** One textarea row per cleaned MSISDN, in order. */
  function KeyedRows(ms: seq<string>, check: SimChecker): (rows: seq<seq<string>>)
    ensures |rows| == |ms|
    ensures forall i :: 0 <= i < |ms| ==> rows[i] == TextareaRow(ms[i], check(ms[i]))
  {
    seq(|ms|, i requires 0 <= i < |ms| => TextareaRow(ms[i], check(ms[i])))
  }

  /** The rows of `read_from_textarea_csv` after its header, and all rows of
      `read_from_textarea_excel`: one per entry, in entry order. */
  function TextareaRows(text: string, check: SimChecker): (rows: seq<seq<string>>)
    ensures |rows| == |Entries(text)|
    ensures forall i :: 0 <= i < |rows| ==>
      rows[i] == TextareaRow(Msisdns(text)[i], check(Msisdns(text)[i]))
  {
    KeyedRows(Msisdns(text), check)
  }

  /** With the bots' checker, the row of entry i is read straight off the
      service's reply for that entry's cleaned MSISDN: the three fields of
      an active card, or the failure text of a request that never got a
      reply. */
  lemma TextareaRowFromService(text: string, service: SimService, i: nat)
    requires i < |Msisdns(text)|
    ensures var m := Msisdns(text)[i];
      var resp := service(m);
      var row := TextareaRows(text, SimChecked(service))[i];
      && row[0] == m
      && (resp.Response? && resp.status == 200 && resp.body.status ==>
            row[1..] == [resp.body.data.cardStatus.GetOr(Unknown), resp.body.data.activationStatus.GetOr(Unknown),
                         LastFour(resp.body.data.iccid), ""])
      && (resp.TransportError? ==> row[1..] == ["", "", "", RequestErrorPrefix + resp.detail])
  {
    var m := Msisdns(text)[i];
    assert TextareaRows(text, SimChecked(service))[i] == TextareaRow(m, CheckSimStatus(service(m)));
  }

  /** The CSV file: the header record, then one record per entry. */
  function TextareaCsv(text: string, check: SimChecker): (c: Content)
    ensures c.Csv?
  {
    Csv(WithHeader(TextareaColumns, TextareaRows(text, check)))
  }

  /** The spreadsheet: one row per entry under the five column names. */
  function TextareaExcel(text: string, check: SimChecker): (c: Content)
    ensures c.Sheet?
  {
    Sheet(TextareaColumns, TextRows(TextareaRows(text, check)))
  }

  /** The CSV report has the header record, then one record per entry in
      entry order: the textarea row of that entry's cleaned MSISDN and its
      lookup, which starts with the MSISDN. */
  lemma CsvRecordPerEntry(text: string, check: SimChecker)
    ensures var c := TextareaCsv(text, check).rows;
      var ms := Msisdns(text);
      && |ms| == |Entries(text)|
      && |c| == |ms| + 1
      && c[0] == TextRow(TextareaColumns)
      && forall i :: 0 <= i < |ms| ==>
           c[i + 1] == TextRow(TextareaRow(ms[i], check(ms[i]))) && c[i + 1][0] == Text(ms[i])
  {
    var ms := Msisdns(text);
    var rows := KeyedRows(ms, check);
    var c := WithHeader(TextareaColumns, rows);
    assert TextareaCsv(text, check).rows == c;
    forall i | 0 <= i < |ms|
      ensures c[i + 1] == TextRow(TextareaRow(ms[i], check(ms[i]))) && c[i + 1][0] == Text(ms[i])
    {
      assert c[i + 1] == TextRow(rows[i]);
    }
  }

  /** The CSV and spreadsheet reports hold the same rows: the CSV's first
      record is the spreadsheet's header, and every later record is the
      spreadsheet row of the same entry. */
  lemma CsvMatchesExcel(text: string, check: SimChecker)
    ensures TextareaCsv(text, check).rows[0] == TextRow(TextareaExcel(text, check).columns)
    ensures TextareaCsv(text, check).rows[1..] == TextareaExcel(text, check).rows
  {
    var rows := TextareaRows(text, check);
    var csv := WithHeader(TextareaColumns, rows);
    assert forall i :: 0 <= i < |rows| ==> csv[1..][i] == TextRows(rows)[i];
  }

  /** The line `read_from_textarea_txt` writes for one entry, without its
      final newline. */
  function TxtBody(m: string, r: SimResult): string {
    match r
    case Active(card, activation, last) =>
      "MSISDN: " + m + " | Card Status: " + card + " | Activation Status: " + activation
      + " | Last 4 ICCID: " + last
    case Failed(message) => "MSISDN: " + m + " | Message: " + message
  }

  /** The bodies of the TXT report's lines: one per entry, in entry order. */
  function TxtBodies(text: string, check: SimChecker): (bodies: seq<string>)
    ensures |bodies| == |Entries(text)|
    ensures forall i :: 0 <= i < |bodies| ==> bodies[i] == TxtBody(Msisdns(text)[i], check(Msisdns(text)[i]))
  {
    BodiesOf(Msisdns(text), check)
  }

  /** One TXT line body per cleaned MSISDN, in order. */
  function BodiesOf(ms: seq<string>, check: SimChecker): (bodies: seq<string>)
    ensures |bodies| == |ms|
    ensures forall i :: 0 <= i < |ms| ==> bodies[i] == TxtBody(ms[i], check(ms[i]))
  {
    seq(|ms|, i requires 0 <= i < |ms| => TxtBody(ms[i], check(ms[i])))
  }

  /** The lines `read_from_textarea_txt` writes: each body with its newline. */
  function TextareaTxt(text: string, check: SimChecker): (lines: seq<string>)
    ensures |lines| == |Entries(text)|
    ensures forall i :: 0 <= i < |lines| ==> lines[i] == TxtBodies(text, check)[i] + "\n"
  {
    Terminated(TxtBodies(text, check))
  }

  /** No result field contains a newline. */
  predicate SingleLine(r: SimResult) {
    match r
    case Active(card, activation, last) => '\n' !in card && '\n' !in activation && '\n' !in last
    case Failed(message) => '\n' !in message
  }

  /** A line of the TXT report holds no newline before its last character. */
  lemma TxtBodySingleLine(m: string, r: SimResult)
    requires '\n' !in m && SingleLine(r)
    ensures '\n' !in TxtBody(m, r)
  {
    assert '\n' !in "MSISDN: ";
    match r
    case Active(card, activation, last) =>
      assert '\n' !in " | Card Status: ";
      assert '\n' !in " | Activation Status: ";
      assert '\n' !in " | Last 4 ICCID: ";
    case Failed(message) =>
      assert '\n' !in " | Message: ";
  }

  /** A cleaned entry holds no newline when the entry held none. */
  lemma CleanAvoidsNewline(e: string)
    requires '\n' !in e
    ensures '\n' !in CleanMsisdn(e)
  {
    StripAvoids(e, '\n');
    var m := Strip(e);
    if StartsWith(m, LocalPrefix) {
      assert forall i :: 0 <= i < |m[2..]| ==> m[2..][i] == m[i + 2];
    }
  }

  /** Reading the TXT report back: when the service answers without newlines,
      splitting the file text at newlines gives each entry's line, in entry
      order, then the empty tail after the last newline. */
  lemma TxtReadsBack(text: string, check: SimChecker)
    requires forall i :: 0 <= i < |Msisdns(text)| ==> SingleLine(check(Msisdns(text)[i]))
    ensures Split(Concat(TextareaTxt(text, check)), '\n') == TxtBodies(text, check) + [""]
  {
    var ms := Msisdns(text);
    var bodies := TxtBodies(text, check);
    forall i | 0 <= i < |bodies|
      ensures '\n' !in ms[i]
    {
      CleanAvoidsNewline(Entries(text)[i]);
    }
    forall i | 0 <= i < |bodies|
      ensures '\n' !in bodies[i]
    {
      TxtBodySingleLine(ms[i], check(ms[i]));
    }
    LinesReadBack(bodies);
  }

  const NomorColumns := ["Nomor", "Status Kartu", "Status Aktivasi", "ICCID Terakhir", "Pesan"]

  /** The pieces of one `/nomor` result string, between its newlines. */
  function NomorPieces(m: string, r: SimResult): seq<string> {
    match r
    case Active(card, activation, last) =>
      ["Nomor: " + m, "Status Kartu: " + card, "Status Aktivasi: " + activation, "ICCID Terakhir: " + last, ""]
    case Failed(message) => ["Nomor: " + m, "Gagal diproses: " + message, ""]
  }

  /** The result string `/nomor` keeps for one MSISDN. */
  function NomorEntry(m: string, r: SimResult): string {
    Join("\n", NomorPieces(m, r))
  }

  /** Splitting a result string at its newlines, as the spreadsheet export
      does, recovers the pieces: five cells for an active card, which fill the
      five columns, and three for a failure. */
  lemma NomorEntrySplits(m: string, r: SimResult)
    requires '\n' !in m && SingleLine(r)
    ensures Split(NomorEntry(m, r), '\n') == NomorPieces(m, r)
    ensures |Split(NomorEntry(m, r), '\n')| == (if r.Active? then |NomorColumns| else 3)
  {
    var pieces := NomorPieces(m, r);
    assert forall i :: 0 <= i < |pieces| ==> '\n' !in pieces[i];
    SplitJoin(pieces, '\n');
  }

  /** `/nomor <m1> <m2> ...`: one result string per argument, in argument
      order, each naming the cleaned MSISDN. */
  function NomorResults(args: seq<string>, check: SimChecker): (results: seq<string>)
    ensures |results| == |args|
    ensures forall i :: 0 <= i < |args| ==>
      results[i] == NomorEntry(CleanMsisdn(args[i]), check(CleanMsisdn(args[i])))
  {
    seq(|args|, i requires 0 <= i < |args| => NomorEntry(CleanMsisdn(args[i]), check(CleanMsisdn(args[i]))))
  }

  /** Every `/nomor` result starts with the cleaned MSISDN it is about. */
  lemma NomorResultNamesNumber(args: seq<string>, check: SimChecker, i: nat)
    requires i < |args|
    ensures StartsWith(NomorResults(args, check)[i], "Nomor: " + CleanMsisdn(args[i]))
  {
    var m := CleanMsisdn(args[i]);
    var pieces := NomorPieces(m, check(m));
    assert Join("\n", pieces) == pieces[0] + "\n" + Join("\n", pieces[1..]);
    SuffixAfterPrefix(pieces[0], "\n" + Join("\n", pieces[1..]));
  }

  const StatusColumns := ["MSISDN", "Card Status", "Activation Status", "Last 4 ICCID"]

  /** One `/urlcekstatus` row: the four status cells, or the MSISDN, "Gagal"
      and the message. */
  function StatusRow(m: string, r: SimResult): seq<string> {
    match r
    case Active(card, activation, last) => [m, card, activation, last]
    case Failed(message) => [m, "Gagal", message]
  }

  /** The `/urlcekstatus` rows after the header: one per data record, keyed
      by the record's first cell exactly as written; an empty record aborts. */
  function UrlCekStatusRows(records: seq<seq<string>>, check: SimChecker): (r: Result<seq<Row>, Failure>)
    ensures r.Ok? <==> forall i :: 0 <= i < |DataRows(records)| ==> |DataRows(records)[i]| >= 1
    ensures r.Ok? ==>
      && |r.value| == |DataRows(records)|
      && forall i :: 0 <= i < |DataRows(records)| ==>
           r.value[i] == TextRow(StatusRow(DataRows(records)[i][0], check(DataRows(records)[i][0])))
    ensures r.Err? ==>
      r.error.RowTooShort? && r.error.row < |DataRows(records)| && DataRows(records)[r.error.row] == []
  {
    ForEachFirst(DataRows(records), m => TextRow(StatusRow(m, check(m))))
  }

  /** A `/urlcekstatus` row has four cells exactly when the lookup succeeded;
      a failure row has three and leaves the activation and ICCID columns
      short. The MSISDN is not rewritten, unlike the textarea batches. */
  lemma StatusRowMeaning(m: string, r: SimResult)
    ensures StatusRow(m, r)[0] == m
    ensures |StatusRow(m, r)| == 4 <==> r.Active?
    ensures r.Failed? ==> StatusRow(m, r) == [m, "Gagal", r.message]
  {
  }
}
