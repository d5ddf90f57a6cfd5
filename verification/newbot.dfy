/** The merged bot: `/nomor` looks up each argument's SIM status and keeps
    the result strings for the user; a format button exports them. It also
    takes `/urlceknik <link>` and free text, but as registered neither of
    those ever reaches an export. */
module NewBot {
  import opened Results
  import opened Strings
  import opened Http
  import opened Export
  import opened Msisdn
  import opened SimBatch

  /** The part of `context.user_data` this bot uses. */
  datatype UserData = UserData(
    spreadsheetUrl: Option<string>,
    results: seq<string>,
    textData: Option<string>,
    waitingForMsisdn: bool)

  const Fresh := UserData(None, [], None, false)

  /** `nomor`: fewer than two arguments is a format error that stores
      nothing; otherwise one result string per argument, in argument order,
      replaces the stored results. */
  function Nomor(ud: UserData, args: seq<string>, check: SimChecker): (r: UserData)
    ensures |args| < 2 ==> r == ud
    ensures |args| >= 2 ==> r == ud.(results := NomorResults(args, check))
    ensures |args| >= 2 ==> |r.results| == |args| >= 2
  {
    if |args| < 2 then ud else ud.(results := NomorResults(args, check))
  }

  /** `ceknik_handle_url`, registered for `/urlceknik`: the same link rule as
      the URL bot. */
  function HandleUrl(ud: UserData, args: seq<string>): (r: UserData)
    ensures SpreadsheetUrl(args).Some? ==> r == ud.(spreadsheetUrl := SpreadsheetUrl(args))
    ensures SpreadsheetUrl(args).None? ==> r == ud
  {
    match SpreadsheetUrl(args)
    case Some(url) => ud.(spreadsheetUrl := Some(url))
    case None => ud
  }

  /** `handle_msisdn_input`: only while waiting for MSISDNs does a
      non-blank message get stored (stripped), which ends the wait;
      otherwise nothing changes. */
  function HandleMsisdnInput(ud: UserData, text: string): (r: UserData)
    ensures !ud.waitingForMsisdn ==> r == ud
    ensures ud.waitingForMsisdn && Strip(text) == "" ==> r == ud
    ensures ud.waitingForMsisdn && Strip(text) != "" ==>
      r == ud.(textData := Some(Strip(text)), waitingForMsisdn := false)
    ensures !r.waitingForMsisdn ==> r.results == ud.results && r.spreadsheetUrl == ud.spreadsheetUrl
  {
    if !ud.waitingForMsisdn then ud
    else
      var text := Strip(text);
      if text == "" then ud else ud.(textData := Some(text), waitingForMsisdn := false)
  }

  const OutputName := "output"

  /** The spreadsheet rows: each result string split at its newlines. */
  function SplitResults(results: seq<string>): (rows: seq<seq<string>>)
    ensures |rows| == |results|
    ensures forall i :: 0 <= i < |results| ==> rows[i] == Split(results[i], '\n')
  {
    seq(|results|, i requires 0 <= i < |results| => Split(results[i], '\n'))
  }

  /** `handle_format_selection`: with stored results, "csv" and "txt" write
      them joined by newlines to `output.csv` / `output.txt`, and "excel"
      puts each result's lines in a row of `output.xlsx`; the file is deleted
      once sent. pandas refuses the spreadsheet with a ValueError unless the
      widest row has exactly one cell per column name, and nothing catches
      it. Any other choice sends nothing. */
  function HandleFormatSelection(ud: UserData, choice: string): (d: Delivery)
    ensures ud.results == [] ==> d == NotSent(NoPendingData)
    ensures d.Sent? <==>
      && ud.results != [] && Extension(choice).Some?
      && (choice == "excel" ==> Widest(SplitResults(ud.results)) == |NomorColumns|)
    ensures ud.results != [] && Extension(choice).None? ==> d == NotSent(UnknownChoice)
    ensures ud.results != [] && choice == "excel" && Widest(SplitResults(ud.results)) != |NomorColumns| ==>
      d == NotSent(Raised(ColumnCountMismatch(Widest(SplitResults(ud.results)))))
    ensures d.Sent? ==> d.removedAfterSending && d.artifact.filename == OutputName + Extension(choice).value
    ensures d.Sent? && (choice == "csv" || choice == "txt") ==>
      d.artifact.content == Plain(Join("\n", ud.results))
    ensures d.Sent? && choice == "excel" ==>
      d.artifact.content == Sheet(NomorColumns, TextRows(SplitResults(ud.results)))
  {
    if ud.results == [] then NotSent(NoPendingData)
    else
      match Extension(choice)
      case None => NotSent(UnknownChoice)
      case Some(ext) =>
        if choice == "excel" then
          var rows := SplitResults(ud.results);
          var width := Widest(rows);
          if width != |NomorColumns| then NotSent(Raised(ColumnCountMismatch(width)))
          else Sent(Artifact(OutputName + ext, Sheet(NomorColumns, TextRows(rows))), true)
        else Sent(Artifact(OutputName + ext, Plain(Join("\n", ud.results))), true)
  }

  /** The CSV and TXT files differ only in name. */
  lemma CsvMatchesTxt(ud: UserData)
    requires ud.results != []
    ensures HandleFormatSelection(ud, "csv").artifact.content == HandleFormatSelection(ud, "txt").artifact.content
    ensures HandleFormatSelection(ud, "csv").artifact.filename != HandleFormatSelection(ud, "txt").artifact.filename
  {
    assert (OutputName + ".csv")[|OutputName| + 1] == 'c';
  }

  /** The spreadsheet rows after `/nomor`: each argument's result split back
      into its pieces, five for an active card and three for a failure, as
      long as neither the argument nor the service's fields hold a newline. */
  lemma NomorRows(args: seq<string>, check: SimChecker)
    requires forall j :: 0 <= j < |args| ==> '\n' !in args[j] && SingleLine(check(CleanMsisdn(args[j])))
    ensures var rows := SplitResults(NomorResults(args, check));
      && |rows| == |args|
      && forall j :: 0 <= j < |args| ==>
           && rows[j] == NomorPieces(CleanMsisdn(args[j]), check(CleanMsisdn(args[j])))
           && |rows[j]| == (if check(CleanMsisdn(args[j])).Active? then 5 else 3)
  {
    var rows := SplitResults(NomorResults(args, check));
    forall j | 0 <= j < |args|
      ensures rows[j] == NomorPieces(CleanMsisdn(args[j]), check(CleanMsisdn(args[j])))
      ensures |rows[j]| == (if check(CleanMsisdn(args[j])).Active? then 5 else 3)
    {
      var m := CleanMsisdn(args[j]);
      CleanAvoidsNewline(args[j]);
      NomorEntrySplits(m, check(m));
    }
  }

  /** Rows of three or five cells are five wide exactly when one of them
      has five cells, and three wide otherwise. */
  lemma WidestOfThreesAndFives(rows: seq<seq<string>>)
    requires rows != []
    requires forall j :: 0 <= j < |rows| ==> |rows[j]| == 3 || |rows[j]| == 5
    ensures Widest(rows) == 5 <==> exists j :: 0 <= j < |rows| && |rows[j]| == 5
    ensures Widest(rows) != 5 ==> Widest(rows) == 3
  {
  }

  /** After `/nomor` with newline-free arguments and service fields, the
      spreadsheet is sent exactly when at least one lookup succeeded, with
      one row per argument; when every lookup failed, pandas raises on the
      three-cell rows. */
  lemma ExcelRowPerNumber(ud: UserData, args: seq<string>, check: SimChecker, i: nat)
    requires |args| >= 2 && i < |args|
    requires forall j :: 0 <= j < |args| ==> '\n' !in args[j] && SingleLine(check(CleanMsisdn(args[j])))
    ensures var d := HandleFormatSelection(Nomor(ud, args, check), "excel");
      && (d.Sent? <==> exists j :: 0 <= j < |args| && check(CleanMsisdn(args[j])).Active?)
      && (d.Sent? ==>
            && |d.artifact.content.rows| == |args|
            && d.artifact.content.rows[i] == TextRow(NomorPieces(CleanMsisdn(args[i]), check(CleanMsisdn(args[i])))))
      && (!d.Sent? ==> d == NotSent(Raised(ColumnCountMismatch(3))))
  {
    var rows := SplitResults(NomorResults(args, check));
    NomorRows(args, check);
    WidestOfThreesAndFives(rows);
    assert (exists j :: 0 <= j < |rows| && |rows[j]| == 5) <==>
           (exists j :: 0 <= j < |args| && check(CleanMsisdn(args[j])).Active?);
  }

  /** When every `/nomor` lookup failed, the spreadsheet export raises
      instead of sending a file: each result splits into three cells, and
      pandas wants five. */
  lemma AllFailuresRaise(ud: UserData, args: seq<string>, check: SimChecker)
    requires |args| >= 2
    requires forall j :: 0 <= j < |args| ==> '\n' !in args[j] && SingleLine(check(CleanMsisdn(args[j])))
    requires forall j :: 0 <= j < |args| ==> check(CleanMsisdn(args[j])).Failed?
    ensures HandleFormatSelection(Nomor(ud, args, check), "excel") == NotSent(Raised(ColumnCountMismatch(3)))
  {
    ExcelRowPerNumber(ud, args, check, 0);
  }

  /** The events the registered handlers react to (button presses do not
      write to the user data). */
  datatype Event =
    | NomorCommand(args: seq<string>)
    | UrlCommand(args: seq<string>)
    | TextMessage(text: string)

  function Apply(ud: UserData, e: Event, check: SimChecker): UserData {
    match e
    case NomorCommand(args) => Nomor(ud, args, check)
    case UrlCommand(args) => HandleUrl(ud, args)
    case TextMessage(text) => HandleMsisdnInput(ud, text)
  }

  function Run(ud: UserData, events: seq<Event>, check: SimChecker): UserData
    decreases |events|
  {
    if events == [] then ud else Run(Apply(ud, events[0], check), events[1..], check)
  }

  /** No handler ever sets `waiting_for_msisdn`, so from a fresh session no
      text message is ever stored, whatever the user sends. */
  lemma {:induction false} NeverWaiting(ud: UserData, events: seq<Event>, check: SimChecker)
    requires !ud.waitingForMsisdn
    ensures !Run(ud, events, check).waitingForMsisdn
    ensures Run(ud, events, check).textData == ud.textData
    decreases |events|
  {
    if events != [] {
      NeverWaiting(Apply(ud, events[0], check), events[1..], check);
    }
  }

  /** The export reads only the `/nomor` results: a stored spreadsheet link
      or text never changes what a button delivers. */
  lemma ExportIgnoresLinkAndText(ud: UserData, url: Option<string>, text: Option<string>, choice: string)
    ensures HandleFormatSelection(ud.(spreadsheetUrl := url, textData := text), choice)
         == HandleFormatSelection(ud, choice)
  {
  }
}
