/** The combined bot's URL commands: `/urlceknik <link>` and
    `/urlcekstatus <link>` download a spreadsheet, look up every record and
    reply with a CSV file at once, with no format choice. Its textarea flow
    is the one of the textarea bot (module StatusBot), and its
    `ceknik_save_results` is `save_results` (Export.SaveResults). As written,
    `main()` names `MessageHandler` and `filters` without importing them and
    stops with a NameError before polling starts, so these handlers never
    run; the model states what they do when called. */
module BotLengkap {
  import opened Results
  import opened Strings
  import opened Timestamps
  import opened Http
  import opened Export
  import opened Batch
  import opened IdentityBatch
  import opened SimBatch

  /** The first argument is the link, taken as written (not joined with the
      others and not stripped); it must start with "https://". */
  predicate LinkArgument(args: seq<string>) {
    args != [] && StartsWith(args[0], UrlScheme)
  }

  const CekNikPrefix := "ceknik_"
  const CekStatusPrefix := "cekstatus_"

  /** `url_cek_nik`: no file for a bad link; otherwise the download, one
      four-column row per data record, and `ceknik_<stamp>.csv` holding the
      header and those rows. Exceptions (download, short record) are not
      caught and end the command without a file. */
  function UrlCekNik(args: seq<string>, fetch: string -> FetchReply, check: Checker, now: DateTime): (d: Delivery)
    ensures !LinkArgument(args) ==> d == NotSent(InvalidInput)
    ensures LinkArgument(args) && FetchRecords(fetch(args[0])).Err? ==>
      d == NotSent(Raised(FetchFailed(FetchRecords(fetch(args[0])).error)))
    ensures d.Sent? <==>
      (LinkArgument(args) && FetchRecords(fetch(args[0])).Ok?
       && UrlCekNikRows(FetchRecords(fetch(args[0])).value, check).Ok?)
    ensures d.Sent? ==>
      && d.artifact.filename == Filename(CekNikPrefix, now, ".csv")
      && !d.removedAfterSending
      && d.artifact.content.Csv?
      && d.artifact.content.rows == [TextRow(UrlColumns)] + UrlCekNikRows(FetchRecords(fetch(args[0])).value, check).value
  {
    if !LinkArgument(args) then NotSent(InvalidInput)
    else
      match FetchRecords(fetch(args[0]))
      case Err(detail) => NotSent(Raised(FetchFailed(detail)))
      case Ok(records) =>
        match UrlCekNikRows(records, check)
        case Err(e) => NotSent(Raised(e))
        case Ok(rows) => Sent(Artifact(Filename(CekNikPrefix, now, ".csv"), Csv([TextRow(UrlColumns)] + rows)), false)
  }

  /** `url_cek_status`: as `url_cek_nik`, with one status row per record
      keyed by its first cell, under `cekstatus_<stamp>.csv`. */
  function UrlCekStatus(args: seq<string>, fetch: string -> FetchReply, check: SimChecker, now: DateTime): (d: Delivery)
    ensures !LinkArgument(args) ==> d == NotSent(InvalidInput)
    ensures LinkArgument(args) && FetchRecords(fetch(args[0])).Err? ==>
      d == NotSent(Raised(FetchFailed(FetchRecords(fetch(args[0])).error)))
    ensures d.Sent? <==>
      (LinkArgument(args) && FetchRecords(fetch(args[0])).Ok?
       && UrlCekStatusRows(FetchRecords(fetch(args[0])).value, check).Ok?)
    ensures d.Sent? ==>
      && d.artifact.filename == Filename(CekStatusPrefix, now, ".csv")
      && !d.removedAfterSending
      && d.artifact.content.Csv?
      && d.artifact.content.rows == [TextRow(StatusColumns)] + UrlCekStatusRows(FetchRecords(fetch(args[0])).value, check).value
  {
    if !LinkArgument(args) then NotSent(InvalidInput)
    else
      match FetchRecords(fetch(args[0]))
      case Err(detail) => NotSent(Raised(FetchFailed(detail)))
      case Ok(records) =>
        match UrlCekStatusRows(records, check)
        case Err(e) => NotSent(Raised(e))
        case Ok(rows) => Sent(Artifact(Filename(CekStatusPrefix, now, ".csv"), Csv([TextRow(StatusColumns)] + rows)), false)
  }

  /** Only the first argument matters: words after the link are ignored,
      where the URL bot would join them into the link. */
  lemma ExtraArgumentsIgnored(args: seq<string>, more: seq<string>, fetch: string -> FetchReply,
                              check: Checker, now: DateTime)
    requires args != []
    ensures UrlCekNik(args + more, fetch, check, now) == UrlCekNik(args, fetch, check, now)
  {
    assert (args + more)[0] == args[0];
  }

  /** A successful `/urlceknik` file has the header and then exactly one
      row per data record, in record order. */
  lemma CekNikFileShape(args: seq<string>, fetch: string -> FetchReply, check: Checker, now: DateTime)
    requires UrlCekNik(args, fetch, check, now).Sent?
    ensures var records := FetchRecords(fetch(args[0])).value;
      var rows := UrlCekNik(args, fetch, check, now).artifact.content.rows;
      && |rows| == |DataRows(records)| + 1
      && rows[0] == TextRow(UrlColumns)
      && forall i :: 0 <= i < |DataRows(records)| ==>
           rows[i + 1] == UrlRow(DataRows(records)[i][0], DataRows(records)[i][1],
                                 check(DataRows(records)[i][0], DataRows(records)[i][1]))
  {
    var records := FetchRecords(fetch(args[0])).value;
    var body := UrlCekNikRows(records, check).value;
    var rows := [TextRow(UrlColumns)] + body;
    assert forall i :: 0 <= i < |body| ==> rows[i + 1] == body[i];
  }
}
