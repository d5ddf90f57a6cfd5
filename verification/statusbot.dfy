/** The textarea bot: a text message of MSISDNs, one per line, is kept for
    the user, and a format button then looks up every line and sends the
    report as CSV, TXT or spreadsheet. `model/botlengkap.py` carries an
    identical copy of this flow (`handle_textarea`, `button` and the
    `cekstatus_read_from_textarea_*` writers). */
module StatusBot {
  import opened Results
  import opened Strings
  import opened Timestamps
  import opened Export
  import opened SimBatch

  /** The part of `context.user_data` this bot uses; an absent `text_data`
      reads as the empty string. */
  datatype UserData = UserData(textData: string)

  const Fresh := UserData("")

  /** What every stored message satisfies: it is stripped. */
  predicate Valid(ud: UserData) {
    IsStripped(ud.textData)
  }

  /** `handle_textarea`: a message that is blank after stripping is refused
      and changes nothing; any other replaces the stored text with its
      stripped form. */
  function HandleTextarea(ud: UserData, text: string): (r: UserData)
    ensures Strip(text) == "" ==> r == ud
    ensures Strip(text) != "" ==> r.textData == Strip(text)
    ensures Valid(ud) ==> Valid(r)
  {
    var stripped := Strip(text);
    if stripped == "" then ud else UserData(stripped)
  }

  const ProcessedPrefix := "processed_"

  /** `button`: with stored text, run the writer for the chosen format and
      send its file. An unknown choice leaves `output_filename` unbound, and
      the resulting exception is reported instead of a file. The SIM service
      and the clock are parameters. */
  function Button(ud: UserData, choice: string, check: SimChecker, now: DateTime): (d: Delivery)
    ensures ud.textData == "" ==> d == NotSent(NoPendingData)
    ensures d.Sent? <==> ud.textData != "" && Extension(choice).Some?
    ensures ud.textData != "" && Extension(choice).None? ==> d == NotSent(Raised(FilenameUnbound))
    ensures d.Sent? ==>
      && d.artifact.filename == Filename(ProcessedPrefix, now, Extension(choice).value)
      && !d.removedAfterSending
    ensures d.Sent? && choice == "csv" ==> d.artifact.content == TextareaCsv(ud.textData, check)
    ensures d.Sent? && choice == "txt" ==> d.artifact.content == Lines(TextareaTxt(ud.textData, check))
    ensures d.Sent? && choice == "excel" ==> d.artifact.content == TextareaExcel(ud.textData, check)
  {
    if ud.textData == "" then NotSent(NoPendingData)
    else
      match Extension(choice)
      case None => NotSent(Raised(FilenameUnbound))
      case Some(ext) =>
        var content :=
          if choice == "csv" then TextareaCsv(ud.textData, check)
          else if choice == "txt" then Lines(TextareaTxt(ud.textData, check))
          else TextareaExcel(ud.textData, check);
        Sent(Artifact(Filename(ProcessedPrefix, now, ext), content), false)
  }

  /** A stored message of k lines yields a CSV file of k + 1 records: the
      header, then one record per line in line order, each keyed by the
      cleaned MSISDN of its line. */
  lemma CsvCoversEveryLine(ud: UserData, check: SimChecker, now: DateTime)
    requires Valid(ud) && ud.textData != ""
    ensures Button(ud, "csv", check, now).Sent?
    ensures Button(ud, "csv", check, now).artifact.content == TextareaCsv(ud.textData, check)
    ensures var c := TextareaCsv(ud.textData, check).rows;
      var ms := Msisdns(ud.textData);
      && |ms| == Count(ud.textData, '\n') + 1
      && |c| == |ms| + 1
      && c[0] == TextRow(TextareaColumns)
      && forall i :: 0 <= i < |ms| ==>
           c[i + 1] == TextRow(TextareaRow(ms[i], check(ms[i]))) && c[i + 1][0] == Text(ms[i])
  {
    assert Strip(ud.textData) == ud.textData;
    CsvRecordPerEntry(ud.textData, check);
  }

  /** The stored text is not cleared by an export: pressing a button again
      later delivers the same file contents under the later time's name. */
  lemma ButtonRepeatable(ud: UserData, choice: string, check: SimChecker, t1: DateTime, t2: DateTime)
    requires Button(ud, choice, check, t1).Sent?
    ensures Button(ud, choice, check, t2).Sent?
    ensures Button(ud, choice, check, t2).artifact.content == Button(ud, choice, check, t1).artifact.content
  {
  }

  /** A later message replaces the earlier one: only the last non-blank
      message is exported. */
  lemma LastMessageWins(ud: UserData, first: string, second: string)
    requires Strip(second) != ""
    ensures HandleTextarea(HandleTextarea(ud, first), second) == HandleTextarea(ud, second)
  {
  }
}
