/** The SIM status lookup (`check_sim_status`): one JSON POST whose reply is
    classified into card status, activation status and the ICCID's last four
    characters, or a failure message. The reply is an input. */
module SimStatus {
  import opened Results
  import opened Strings
  import opened Http

  /** "Unknown": the value shown for any field the service did not send. */
  const Unknown := "Tidak diketahui"
  const ServiceUrl := "https://tri.co.id/api/v1/information/sim-status"
  const RequestErrorPrefix := "Request Error: "
  const HttpErrorPrefix := "HTTP Error "

  /** The `data` object of the reply; each field may be missing. */
  datatype SimData = SimData(iccid: Option<string>, cardStatus: Option<string>, activationStatus: Option<string>)

  /** The decoded JSON body: the truthiness of its `status`, its `data`
      object, and its optional `message`. */
  datatype SimBody = SimBody(status: bool, data: SimData, message: Option<string>)

  /** What `requests.post` produces: an exception raised before any reply
      (connection failure, timeout), or a reply with status line and body. */
  datatype SimResponse =
    | TransportError(detail: string)
    | Response(status: nat, reason: string, url: string, body: SimBody)

  /** The dictionary `check_sim_status` returns. */
  datatype SimResult =
    | Active(cardStatus: string, activationStatus: string, lastIccid: string)
    | Failed(message: string)

  function Min(a: int, b: int): int {
    if a <= b then a else b
  }

  /** `iccid[-4:] if iccid else "Tidak diketahui"` on `data.get("iccid", "")`. */
  function LastFour(iccid: Option<string>): (r: string)
    ensures iccid.None? || iccid.value == [] ==> r == Unknown
    ensures iccid.Some? && iccid.value != [] ==>
      |r| == Min(4, |iccid.value|) && iccid.value == iccid.value[..|iccid.value| - |r|] + r
  {
    match iccid
    case None => Unknown
    case Some(s) =>
      if s == [] then Unknown
      else if |s| >= 4 then s[|s| - 4..]
      else s
  }

  /** A short ICCID is shown whole, not replaced by the sentinel. */
  lemma ShortIccidShownWhole(s: string)
    requires 0 < |s| < 4
    ensures LastFour(Some(s)) == s
  {
    var r := LastFour(Some(s));
    assert |r| == |s|;
    assert s[..|s| - |r|] == [];
  }

  /** `check_sim_status` applied to the reply the service gave. */
  function CheckSimStatus(resp: SimResponse): (r: SimResult)
    ensures r.Active? <==> resp.Response? && resp.status == 200 && resp.body.status
    ensures r.Active? ==>
      && r.cardStatus == resp.body.data.cardStatus.GetOr(Unknown)
      && r.activationStatus == resp.body.data.activationStatus.GetOr(Unknown)
      && r.lastIccid == LastFour(resp.body.data.iccid)
    ensures resp.TransportError? ==> r == Failed(RequestErrorPrefix + resp.detail)
    ensures resp.Response? && RaisesForStatus(resp.status) ==>
      r.Failed? && StartsWith(r.message, RequestErrorPrefix + NatToString(resp.status))
    ensures resp.Response? && resp.status == 200 && !resp.body.status ==>
      r == Failed(resp.body.message.GetOr(Unknown))
    ensures resp.Response? && resp.status != 200 && !RaisesForStatus(resp.status) ==>
      r == Failed(HttpErrorPrefix + NatToString(resp.status))
  {
    match resp
    case TransportError(detail) => Failed(RequestErrorPrefix + detail)
    case Response(status, reason, url, body) =>
      if RaisesForStatus(status) then
        var m := RequestErrorPrefix + HttpErrorText(status, reason, url);
        assert m == RequestErrorPrefix + NatToString(status) + ((if status < 500 then " Client Error: " else " Server Error: ") + reason + " for url: " + url);
        SuffixAfterPrefix(RequestErrorPrefix + NatToString(status), (if status < 500 then " Client Error: " else " Server Error: ") + reason + " for url: " + url);
        Failed(m)
      else if status == 200 then
        if body.status then
          Active(body.data.cardStatus.GetOr(Unknown), body.data.activationStatus.GetOr(Unknown), LastFour(body.data.iccid))
        else Failed(body.message.GetOr(Unknown))
      else Failed(HttpErrorPrefix + NatToString(status))
  }

  /** A successful lookup depends on the `data` object alone, not on the
      status line's reason, the final URL or any `message` field. */
  lemma SuccessReadsOnlyData(a: SimResponse, b: SimResponse)
    requires a.Response? && b.Response? && a.status == b.status == 200
    requires a.body.status && b.body.status && a.body.data == b.body.data
    ensures CheckSimStatus(a) == CheckSimStatus(b)
  {
  }

  /** A status outside both 200 and the raising range is reported by number,
      and the number can be read back from the message. */
  lemma HttpErrorNamesStatus(resp: SimResponse)
    requires resp.Response? && resp.status != 200 && !RaisesForStatus(resp.status)
    ensures StartsWith(CheckSimStatus(resp).message, HttpErrorPrefix)
    ensures IsDecimal(CheckSimStatus(resp).message[|HttpErrorPrefix|..])
    ensures ParseDecimal(CheckSimStatus(resp).message[|HttpErrorPrefix|..]) == resp.status
  {
    SuffixAfterPrefix(HttpErrorPrefix, NatToString(resp.status));
    ParseNatToString(resp.status);
  }

  /** A full ICCID shows its last four digits and the card status is taken
      from the reply. */
  lemma ScenarioActiveCard(reason: string, url: string)
    ensures CheckSimStatus(Response(200, reason, url, SimBody(true, SimData(Some("12345678"), Some("ACTIVE"), Some("DONE")), None)))
         == Active("ACTIVE", "DONE", "5678")
  {
    assert "12345678"[4..] == "5678";
  }

  /** A reply without a `data` field value falls back to the sentinel for every field. */
  lemma ScenarioEmptyData(reason: string, url: string)
    ensures CheckSimStatus(Response(200, reason, url, SimBody(true, SimData(None, None, None), None)))
         == Active(Unknown, Unknown, Unknown)
  {
  }
}
