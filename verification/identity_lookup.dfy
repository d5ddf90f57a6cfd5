/** The NIK/KK lookup (`check_nik_kk`): a form POST that must answer with a
    redirect, a GET of the result page in the same session, and extraction of
    the identity heading and the list of registered numbers from that page.
    The two HTTP replies and what the HTML parser finds are inputs. */
module IdentityLookup {
  import opened Results
  import opened Strings

  const Redirect: nat := 302
  const Ok: nat := 200
  /** Numbers one identity may register; `sisa` counts what is left of them. */
  const Slots: int := 3

  /** "Data not found or the response format changed." It is one string; the
      two halves are written apart only because the verifier does not read
      the characters of a literal this long. */
  const NotFoundMessage := "Data tidak ditemukan " + "atau format respons berubah."
  const PostFailedPrefix := "POST request failed with status code "
  const GetFailedPrefix := "GET request failed with status code "

  /** What the parser finds on the result page: the text of the first `h6`,
      and the texts of the `li` items of the first `ul` whose `class`
      attribute is exactly "list-unstyled margin-5-top", in document order;
      `None` when absent. */
  datatype ResultPage = ResultPage(heading: Option<string>, items: Option<seq<string>>)

  datatype GetReply = GetReply(status: nat, page: ResultPage)

  /** The replies one lookup receives: the status of the POST, and the GET
      reply the same session would see if it went on to issue the GET. */
  datatype Exchange = Exchange(postStatus: nat, get: GetReply)

  /** Why a lookup failed. */
  datatype Cause = PostRejected(status: nat) | GetFailed(status: nat) | PageMismatch

  /** The dictionary `check_nik_kk` returns: `status` True with `nik`, `nomor`
      and `sisa`, or `status` False with `message` and `sisa`. */
  datatype LookupResult =
    | Found(nik: string, nomor: seq<string>, sisa: int)
    | NotFound(message: string, sisa: int)

  /** The numbers a result reports: none for a failure. */
  function Numbers(r: LookupResult): seq<string> {
    if r.Found? then r.nomor else []
  }

  function Message(c: Cause): string {
    match c
    case PostRejected(s) => PostFailedPrefix + NatToString(s)
    case GetFailed(s) => GetFailedPrefix + NatToString(s)
    case PageMismatch => NotFoundMessage
  }

  /** Reads a failure message back into its cause. */
  function ParseMessage(m: string): Option<Cause> {
    if m == NotFoundMessage then Some(PageMismatch)
    else if StartsWith(m, PostFailedPrefix) && IsDecimal(m[|PostFailedPrefix|..]) then
      Some(PostRejected(ParseDecimal(m[|PostFailedPrefix|..])))
    else if StartsWith(m, GetFailedPrefix) && IsDecimal(m[|GetFailedPrefix|..]) then
      Some(GetFailed(ParseDecimal(m[|GetFailedPrefix|..])))
    else None
  }

  /** Every failure message names its cause, status code included. */
  lemma MessageRoundTrip(c: Cause)
    ensures ParseMessage(Message(c)) == Some(c)
  {
    match c
    case PostRejected(s) =>
      SuffixAfterPrefix(PostFailedPrefix, NatToString(s));
      ParseNatToString(s);
      assert Message(c)[0] == PostFailedPrefix[0] == 'P';
      assert NotFoundMessage[0] == 'D';
    case GetFailed(s) =>
      SuffixAfterPrefix(GetFailedPrefix, NatToString(s));
      ParseNatToString(s);
      assert Message(c)[0] == GetFailedPrefix[0] == 'G';
      assert NotFoundMessage[0] == 'D';
      assert !StartsWith(Message(c), PostFailedPrefix) by {
        assert PostFailedPrefix[0] == 'P';
      }
    case PageMismatch =>
  }

  function StripAll(items: seq<string>): (r: seq<string>)
    ensures |r| == |items|
    ensures forall i :: 0 <= i < |items| ==> r[i] == Strip(items[i])
  {
    seq(|items|, i requires 0 <= i < |items| => Strip(items[i]))
  }

  /** `check_nik_kk`: the POST must redirect, the GET must answer 200, and the
      page must hold both the heading and the number list. */
  function CheckNikKk(x: Exchange): (r: LookupResult)
    ensures r.Found? <==>
      x.postStatus == Redirect && x.get.status == Ok
      && x.get.page.heading.Some? && x.get.page.items.Some?
    ensures r.Found? ==>
      r.nik == Strip(x.get.page.heading.value)
      && |r.nomor| == |x.get.page.items.value|
      && forall i :: 0 <= i < |r.nomor| ==> r.nomor[i] == Strip(x.get.page.items.value[i])
    ensures r.sisa + |Numbers(r)| == Slots
    ensures r.NotFound? ==>
      (ParseMessage(r.message) ==
         Some(if x.postStatus != Redirect then PostRejected(x.postStatus)
              else if x.get.status != Ok then GetFailed(x.get.status)
              else PageMismatch))
    ensures r.NotFound? && x.postStatus != Redirect ==>
      r.message == PostFailedPrefix + NatToString(x.postStatus)
    ensures r.NotFound? && x.postStatus == Redirect && x.get.status != Ok ==>
      r.message == GetFailedPrefix + NatToString(x.get.status)
    ensures r.NotFound? && x.postStatus == Redirect && x.get.status == Ok ==>
      r.message == NotFoundMessage
  {
    if x.postStatus != Redirect then
      MessageRoundTrip(PostRejected(x.postStatus));
      NotFound(Message(PostRejected(x.postStatus)), Slots)
    else if x.get.status != Ok then
      MessageRoundTrip(GetFailed(x.get.status));
      NotFound(Message(GetFailed(x.get.status)), Slots)
    else
      match (x.get.page.heading, x.get.page.items)
      case (Some(h), Some(items)) =>
        var nomor := StripAll(items);
        Found(Strip(h), nomor, Slots - |nomor|)
      case _ =>
        MessageRoundTrip(PageMismatch);
        NotFound(Message(PageMismatch), Slots)
  }

  /** A rejected POST ends the lookup: the GET reply plays no part. */
  lemma PostRejectionIgnoresGet(x: Exchange, y: Exchange)
    requires x.postStatus == y.postStatus != Redirect
    ensures CheckNikKk(x) == CheckNikKk(y)
  {
  }

  /** A failed lookup always reports all three slots free. */
  lemma FailureKeepsAllSlots(x: Exchange)
    ensures CheckNikKk(x).NotFound? ==> CheckNikKk(x).sisa == Slots
  {
  }

  /** The number count is not bounded by the slot count: a page listing more
      than three numbers gives a negative `sisa`. */
  lemma RemainingCanGoNegative()
    ensures CheckNikKk(Exchange(302, GetReply(200, ResultPage(Some("X"), Some(["1", "2", "3", "4"]))))).sisa == -1
  {
  }

  /** A POST answered 200 instead of redirecting fails with that status. */
  lemma ScenarioPostNotRedirected(get: GetReply)
    ensures CheckNikKk(Exchange(200, get)) == NotFound("POST request failed with status code 200", 3)
  {
    assert NatToString(200) == "200" by {
      assert NatToString(20) == "20";
    }
  }

  /** Heading "ABC" with two listed numbers leaves one slot. */
  lemma ScenarioTwoNumbers()
    ensures CheckNikKk(Exchange(302, GetReply(200, ResultPage(Some("ABC"), Some(["0811", "0822"])))))
         == Found("ABC", ["0811", "0822"], 1)
  {
    var items := ["0811", "0822"];
    assert IsStripped("ABC") && IsStripped(items[0]) && IsStripped(items[1]);
    assert StripAll(items) == items;
  }
}
