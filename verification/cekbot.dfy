/** The URL bot: `/url <link>` stores a spreadsheet link for the user, and a
    format button then downloads the sheet, looks up every record and sends
    the six-column report as CSV, TXT or spreadsheet. */
module CekBot {
  import opened Results
  import opened Strings
  import opened Timestamps
  import opened Http
  import opened Export
  import opened Batch
  import opened IdentityBatch

  /** The part of `context.user_data` this bot uses. */
  datatype UserData = UserData(spreadsheetUrl: Option<string>)

  const Fresh := UserData(None)

  /** What every stored link satisfies. */
  predicate Valid(ud: UserData) {
    ud.spreadsheetUrl.Some? ==>
      StartsWith(ud.spreadsheetUrl.value, UrlScheme) && IsStripped(ud.spreadsheetUrl.value)
  }

  /** `handle_url`: an accepted link replaces the stored one; a rejected
      one leaves the user's data as it was. */
  function HandleUrl(ud: UserData, args: seq<string>): (r: UserData)
    ensures SpreadsheetUrl(args).Some? ==> r.spreadsheetUrl == SpreadsheetUrl(args)
    ensures SpreadsheetUrl(args).None? ==> r == ud
    ensures Valid(ud) ==> Valid(r)
  {
    match SpreadsheetUrl(args)
    case Some(url) => UserData(Some(url))
    case None => ud
  }

  /** Every state a session reaches from a fresh one holds a valid link or
      none. */
  lemma {:induction false} StoredUrlValid(ud: UserData, commands: seq<seq<string>>)
    requires Valid(ud)
    ensures Valid(Replay(ud, commands))
    decreases |commands|
  {
    if commands != [] {
      StoredUrlValid(HandleUrl(ud, commands[0]), commands[1..]);
    }
  }

  /** The user data after a series of `/url` commands; button presses do not
      write to it. */
  function Replay(ud: UserData, commands: seq<seq<string>>): UserData
    decreases |commands|
  {
    if commands == [] then ud else Replay(HandleUrl(ud, commands[0]), commands[1..])
  }

  /** A link is waiting for a format choice (`if not spreadsheet_url`). */
  predicate Pending(ud: UserData) {
    ud.spreadsheetUrl.Some? && ud.spreadsheetUrl.value != ""
  }

  /** `handle_format_choice`: with a stored link, download it, build the
      report and save it in the chosen format; any exception on the way
      becomes the refusal. The download, the identity service and the clock
      are parameters. */
  function HandleFormatChoice(ud: UserData, format: string, fetch: string -> FetchReply,
                              check: Checker, now: DateTime): (d: Delivery)
    ensures !Pending(ud) ==> d == NotSent(NoPendingData)
    ensures Pending(ud) ==>
      var report := SpreadsheetReport(fetch(ud.spreadsheetUrl.value), check);
      && (report.Err? ==> d == NotSent(Raised(report.error)))
      && (report.Ok? ==> (d.Sent? <==> SaveResults(report.value, format, now).Ok?))
      && (d.Sent? ==> d.artifact == SaveResults(report.value, format, now).value)
    ensures d.Sent? ==> !d.removedAfterSending
    ensures d.Sent? ==>
      (Extension(format).Some? && d.artifact.filename == Filename(ResultsPrefix, now, Extension(format).value))
  {
    if !Pending(ud) then NotSent(NoPendingData)
    else
      match SpreadsheetReport(fetch(ud.spreadsheetUrl.value), check)
      case Err(e) => NotSent(Raised(e))
      case Ok(results) =>
        match SaveResults(results, format, now)
        case Err(e) => NotSent(Raised(e))
        case Ok(artifact) => Sent(artifact, false)
  }

  /** The CSV choice succeeds exactly when the download succeeds and every
      data record has both key cells; the file then holds the header and one
      report row per record. */
  lemma CsvDelivery(ud: UserData, fetch: string -> FetchReply, check: Checker, now: DateTime)
    requires Pending(ud)
    ensures var reply := fetch(ud.spreadsheetUrl.value);
      var d := HandleFormatChoice(ud, "csv", fetch, check, now);
      (d.Sent? <==>
         (FetchRecords(reply).Ok?
          && forall i :: 0 <= i < |DataRows(FetchRecords(reply).value)| ==> |DataRows(FetchRecords(reply).value)[i]| >= 2))
      && (d.Sent? ==> d.artifact.content == Csv(ProcessSpreadsheet(FetchRecords(reply).value, check).value))
  {
  }

  /** The TXT choice never delivers a sheet with data records: the int
      `sisa` cell of the first report row makes `" | ".join` raise. */
  lemma TxtFailsOnData(ud: UserData, fetch: string -> FetchReply, check: Checker, now: DateTime)
    requires Pending(ud)
    requires SpreadsheetReport(fetch(ud.spreadsheetUrl.value), check).Ok?
    requires |DataRows(FetchRecords(fetch(ud.spreadsheetUrl.value)).value)| >= 1
    ensures HandleFormatChoice(ud, "txt", fetch, check, now) == NotSent(Raised(CellNotText(1)))
  {
    var records := FetchRecords(fetch(ud.spreadsheetUrl.value)).value;
    ReportTxtAlwaysRaises(records, check, now);
  }

  /** The link is not cleared by an export: pressing a button again later
      delivers the same report again, under the later time's name. */
  lemma ChoiceRepeatable(ud: UserData, format: string, fetch: string -> FetchReply, check: Checker,
                         t1: DateTime, t2: DateTime)
    requires HandleFormatChoice(ud, format, fetch, check, t1).Sent?
    ensures HandleFormatChoice(ud, format, fetch, check, t2).Sent?
    ensures HandleFormatChoice(ud, format, fetch, check, t2).artifact.content
         == HandleFormatChoice(ud, format, fetch, check, t1).artifact.content
  {
    var report := SpreadsheetReport(fetch(ud.spreadsheetUrl.value), check);
    SaveResultsIgnoresTime(report.value, format, t1, t2);
  }

  /** A session that never sent an accepted link has nothing to export. */
  lemma NoLinkNoFile(commands: seq<seq<string>>, format: string, fetch: string -> FetchReply,
                     check: Checker, now: DateTime)
    requires forall i :: 0 <= i < |commands| ==> SpreadsheetUrl(commands[i]).None?
    ensures HandleFormatChoice(Replay(Fresh, commands), format, fetch, check, now) == NotSent(NoPendingData)
  {
    RejectedCommandsKeep(Fresh, commands);
  }

  lemma {:induction false} RejectedCommandsKeep(ud: UserData, commands: seq<seq<string>>)
    requires forall i :: 0 <= i < |commands| ==> SpreadsheetUrl(commands[i]).None?
    ensures Replay(ud, commands) == ud
    decreases |commands|
  {
    if commands != [] {
      RejectedCommandsKeep(ud, commands[1..]);
    }
  }
}
