/** The parts of `requests` whose outcome the bots depend on: which statuses
    `raise_for_status` turns into an exception, the text of that exception,
    and the spreadsheet download that precedes every URL batch. */
module Http {
  import opened Results
  import opened Strings

  /** The statuses for which `raise_for_status` raises: client errors
      (400-499) and server errors (500-599). */
  predicate RaisesForStatus(status: nat) {
    400 <= status < 600
  }

  /** The text of the `HTTPError` that `raise_for_status` raises. */
  function HttpErrorText(status: nat, reason: string, url: string): string {
    NatToString(status) + (if status < 500 then " Client Error: " else " Server Error: ")
    + reason + " for url: " + url
  }

  /** The error text starts with the status code, which reads back. */
  lemma HttpErrorTextNamesStatus(status: nat, reason: string, url: string)
    ensures StartsWith(HttpErrorText(status, reason, url), NatToString(status))
    ensures ParseDecimal(NatToString(status)) == status
  {
    SuffixAfterPrefix(NatToString(status), (if status < 500 then " Client Error: " else " Server Error: ")
      + reason + " for url: " + url);
    ParseNatToString(status);
  }

  /** What `requests.get(url)` gives for a spreadsheet link: an exception
      before any reply, or a reply whose body `csv.reader` turns into the
      records below. */
  datatype FetchReply =
    | FetchRaised(detail: string)
    | Fetched(status: nat, reason: string, url: string, records: seq<seq<string>>)

  /** `requests.get(url)` then `response.raise_for_status()`: the records, or
      the text of the exception that ends the handler. */
  function FetchRecords(reply: FetchReply): (r: Result<seq<seq<string>>, string>)
    ensures r.Ok? <==> reply.Fetched? && !RaisesForStatus(reply.status)
    ensures r.Ok? ==> r.value == reply.records
    ensures reply.FetchRaised? ==> r.error == reply.detail
    ensures reply.Fetched? && RaisesForStatus(reply.status) ==>
      StartsWith(r.error, NatToString(reply.status))
  {
    match reply
    case FetchRaised(detail) => Err(detail)
    case Fetched(status, reason, url, records) =>
      if RaisesForStatus(status) then
        HttpErrorTextNamesStatus(status, reason, url);
        Err(HttpErrorText(status, reason, url))
      else Ok(records)
  }

  const UrlScheme := "https://"

  /** The `/url` (and newbot's `/urlceknik`) argument rule:
      `" ".join(context.args).strip()`, accepted only when it starts with
      "https://". */
  function SpreadsheetUrl(args: seq<string>): (r: Option<string>)
    ensures r.Some? <==> StartsWith(Strip(Join(" ", args)), UrlScheme)
    ensures r.Some? ==> r.value == Strip(Join(" ", args))
    ensures r.Some? ==> IsStripped(r.value) && r.value != ""
  {
    var input := Strip(Join(" ", args));
    if StartsWith(input, UrlScheme) then
      Some(input)
    else None
  }
}
