# Telegram lookup bots — a Dafny model of their decision logic

The repository holds four near-duplicate Telegram bots:

- `model/cekbot.py` (URL bot);
- `model/statusbot.py` (textarea bot);
- `newbot.py` (merged bot);
- `model/botlengkap.py` (combined bot).

They look up two kinds of things:

- **Identity card numbers.** A NIK (personal identity number) and a KK (family card number) are sent to the operator's "check number" form, and the numbers registered to that identity come back.
- **SIM numbers.** An MSISDN (phone number) is sent to the SIM status API, and its card status, activation status and ICCID tail come back.

Single lookups are batched over spreadsheet records, over the lines of a text message, or over command arguments. The results are exported as CSV, pipe-separated text or spreadsheet files.

This project models what the bots decide, with all I/O turned into inputs:

- the two HTTP services are functions from the request key to the reply;
- the spreadsheet download is a function from the link to the reply;
- the clock is a `DateTime` parameter.

The shared logic is modelled once. Each bot's handlers are modelled as pure functions over that bot's `user_data`.

| module | file | what it models |
|---|---|---|
| `Results` | results.dfy | `Option` and `Result` |
| `Strings` | strings.dfy | Python's `strip`, `split("\n")`, `join`, `startswith`, decimal rendering |
| `Timestamps` | timestamps.dfy | `strftime("%Y-%m-%d_%H-%M-%S")` and reading it back |
| `Http` | http.dfy | `raise_for_status`, the `HTTPError` text, the spreadsheet download, the link-argument rule |
| `IdentityLookup` | identity_lookup.dfy | `check_nik_kk` |
| `SimStatus` | sim_status.dfy | `check_sim_status` |
| `Msisdn` | msisdn.dfy | the "08" → "628" rewrite |
| `Export` | export.dfy | report cells, `save_results`, file names, TXT lines |
| `Batch` | batch.dfy | the header-skipping record loop and its `IndexError` abort |
| `IdentityBatch` | identity_batch.dfy | the six-column and four-column identity reports |
| `SimBatch` | sim_batch.dfy | the textarea reports, the `/nomor` results, the `/urlcekstatus` rows |
| `CekBot`, `StatusBot`, `NewBot`, `BotLengkap` | cekbot.dfy, statusbot.dfy, newbot.dfy, botlengkap.dfy | each bot's handlers |

A Python exception that ends a handler is modelled as a value:

- `Failure` names the exception;
- `Delivery.NotSent(Raised(..))` is the handler ending without a file.

Whether the exception is then caught and replied to makes no difference to the model.

Where the code and its description disagree, the model follows the code:

- **Pending data is never cleared after an export.** The stored link, text or results stay, and the same export can be requested again (`CekBot.ChoiceRepeatable`, `StatusBot.ButtonRepeatable`).
- **`raise_for_status` raises only for statuses 400–599.** A status of 600 or more, like any other status that is not 200, gives "HTTP Error {status}" (`SimStatus.CheckSimStatus`).
- **A short ICCID is shown whole.** An ICCID of 1–3 characters is not replaced by the "Tidak diketahui" sentinel (`SimStatus.ShortIccidShownWhole`).
- **A malformed spreadsheet record aborts the whole batch.** There is no per-row recovery (`Batch.ForEachPair`).
- **The TXT export of an identity report fails as soon as there is one data record.** The report's `sisa` cell is an int, and `" | ".join` raises on it (`CekBot.TxtFailsOnData`).
- **The merged bot never exports a spreadsheet link or a text message.** Its only registered button handler reads the `/nomor` results (`NewBot.ExportIgnoresLinkAndText`). Nothing sets `waiting_for_msisdn`, so text is never stored (`NewBot.NeverWaiting`).
- **The merged bot's spreadsheet export fails when every `/nomor` lookup failed.** Each failure result splits into three cells, and pandas refuses rows narrower than the five column names all round (`NewBot.AllFailuresRaise`).

## Model

| member | source | states |
|---|---|---|
| `IdentityLookup.CheckNikKk` | model/cekbot.py:46-91 | A lookup succeeds exactly when the POST redirects (302), the GET answers 200, and the page has both the `h6` heading and the number list. On success, `nik` is the stripped heading and `nomor` is the stripped `li` texts in order. `sisa` plus the numbers found is always 3. A failure message is exactly "POST request failed with status code {s}", "GET request failed with status code {s}" or "Data tidak ditemukan atau format respons berubah.", by the first check that failed. It reads back as that cause. |
| `IdentityLookup.MessageRoundTrip` | model/cekbot.py:74-91 | The three failure messages are distinct, and each names its status code so that the code can be read back. |
| `IdentityLookup.PostRejectionIgnoresGet` | model/cekbot.py:47-50 | When the POST does not redirect, the GET reply plays no part in the result. |
| `IdentityLookup.FailureKeepsAllSlots` | newbot.py:73-90 | Every failed lookup reports `sisa` 3. |
| `IdentityLookup.RemainingCanGoNegative` | model/cekbot.py:62-66 | `sisa = 3 - len(nomor)` is not clamped: a page with four numbers gives −1. |
| `IdentityLookup.ScenarioPostNotRedirected` | model/cekbot.py:86-91 | A POST answered 200 yields "POST request failed with status code 200" with `sisa` 3. |
| `IdentityLookup.ScenarioTwoNumbers` | newbot.py:62-72 | A heading with two listed numbers gives those numbers in order, with one slot left. |
| `SimStatus.LastFour` | model/statusbot.py:58-59 | The ICCID shown is the sentinel when the ICCID is absent or empty. Otherwise it is the last min(4, length) characters of the ICCID. |
| `SimStatus.ShortIccidShownWhole` | model/statusbot.py:59 | An ICCID shorter than four characters is shown whole. |
| `SimStatus.CheckSimStatus` | model/statusbot.py:45-75 | The result is active exactly on status 200 with a true `status` flag. Missing fields then default to "Tidak diketahui". A transport exception gives "Request Error: …". A status of 400–599 gives "Request Error: {status} …". 200 with a false flag gives the body's message or the sentinel. Any other status gives "HTTP Error {status}". |
| `SimStatus.SuccessReadsOnlyData` | newbot.py:120-130 | A successful result depends only on the `data` object, not on the status reason, the URL or any message. |
| `SimStatus.HttpErrorNamesStatus` | newbot.py:136-140 | "HTTP Error " is followed by the decimal status, which reads back as that status. |
| `SimStatus.ScenarioActiveCard` | model/statusbot.py:55-65 | ICCID "12345678" shows "5678", and the statuses come from the reply. |
| `SimStatus.ScenarioEmptyData` | newbot.py:122-130 | An empty `data` object gives the sentinel in all three fields. |
| `Http.HttpErrorTextNamesStatus` | model/statusbot.py:46-53 | The message of the `raise_for_status` exception starts with the status code, which reads back. |
| `Http.FetchRecords` | model/cekbot.py:96-102 | The download yields the records exactly when no exception was raised and `raise_for_status` did not raise. Otherwise it yields the exception text, which for an HTTP error starts with the status. |
| `Http.SpreadsheetUrl` | model/cekbot.py:141-143 | The arguments joined by spaces and stripped are accepted exactly when they start with "https://". An accepted link is that stripped text and is never empty. |
| `Msisdn.ToInternational` | model/statusbot.py:84-85 | A number starting with "08" becomes "628" followed by the rest, which makes it one character longer. Any other number is unchanged. The result never starts with "08". |
| `Msisdn.LocalRoundTrip` | model/statusbot.py:84-85 | Rewriting "628" back to "08" recovers every local number and every number that had neither prefix. |
| `Msisdn.ToInternationalIdempotent` | model/botlengkap.py:356-357 | Applying the rewrite twice equals applying it once. |
| `Msisdn.CleanMsisdn` | model/statusbot.py:83-85 | A cleaned entry is the stripped entry, with a leading "08" replaced by "628" + the rest. So it is stripped and never starts with "08", and it is one character longer exactly when the rewrite happened. |
| `Msisdn.CleanIdempotent` | newbot.py:269-273 | Cleaning an already cleaned number changes nothing. |
| `Msisdn.ScenarioLocalNumber` | model/botlengkap.py:355-357 | " 081234 " is cleaned to "6281234". |
| `Msisdn.ScenarioInternationalNumber` | model/botlengkap.py:383-384 | "6281234" passes through unchanged. |
| `Strings.Strip` | model/statusbot.py:168 | `strip()` leaves no whitespace at either end, never lengthens the text, and leaves stripped text unchanged. |
| `Strings.StripFindsCore` | model/statusbot.py:83 | Stripping text that is a stripped core padded with whitespace gives back exactly the core. |
| `Strings.StripAvoids` | model/statusbot.py:81 | Stripping never introduces a character. |
| `Strings.Split` | model/statusbot.py:81 | `split("\n")` gives one more piece than there are newlines. No piece holds a newline, and the pieces joined with "\n" give back the text. |
| `Strings.SplitJoin` | newbot.py:363 | Splitting the "\n"-join of newline-free pieces gives back the pieces. |
| `Strings.ParseNatToString` | model/cekbot.py:83 | The decimal rendering of a status code reads back as that code. |
| `Strings.NatToStringInjective` | model/cekbot.py:89 | Different status codes render differently. |
| `Timestamps.Padded` | model/statusbot.py:96 | A zero-padded field has the given width and reads back as its value. |
| `Timestamps.StampRoundTrip` | model/statusbot.py:96 | The `%Y-%m-%d_%H-%M-%S` stamp is 19 characters long and parses back to the same date and time. |
| `Timestamps.StampInjective` | model/statusbot.py:123 | Two different times never share a stamp. |
| `Export.FilenameDeterminesTime` | model/botlengkap.py:190-196 | Two report names with the same prefix and extension are equal only when made in the same second. |
| `Export.SaveResults` | model/cekbot.py:118-137 | An unknown format leaves the file name unbound, which raises. Otherwise the file is "results_" + stamp + the format's extension. CSV writes the rows verbatim, including the header row. The spreadsheet puts all rows under the six identity columns, and exists exactly when there are no rows or the widest row has six cells; otherwise pandas raises ValueError with that width. TXT succeeds exactly when every cell is text, and fails at the first row that has a number cell. |
| `Export.TxtLines` | model/botlengkap.py:197-201 | TXT lines are produced one per row, in order, each the row's cells joined by " \| " plus "\n". Otherwise the result is the index of the first row that has a non-text cell. |
| `Export.NumberCellBlocksTxt` | model/botlengkap.py:182 | Any int cell anywhere makes the TXT save fail. |
| `Export.TxtReadsBack` | model/botlengkap.py:197-201 | For newline-free text cells, the TXT file split at newlines gives each row's " \| "-joined cells in order, then an empty tail. |
| `Export.LinesReadBack` | model/statusbot.py:125-126 | A file written as newline-terminated, newline-free lines splits back into those lines plus an empty tail. |
| `Export.SaveResultsIgnoresTime` | model/botlengkap.py:189-208 | The clock only names the file: success, content and error do not depend on it. |
| `Export.WithHeader` | model/statusbot.py:79-100 | A file with a header has one more record than there are data rows. The header comes first, and each data row follows in order. |
| `Batch.DataRows` | model/cekbot.py:100-102 | The header record that `next(reader, None)` skips is the first record, and the data records are the rest. |
| `Batch.ForEachPair` | model/cekbot.py:106-113 | The batch succeeds exactly when every data record has two cells. It then holds one row per record, in order, built from cells 0 and 1. Otherwise it fails at the first short record. |
| `Batch.ForEachFirst` | model/botlengkap.py:331-337 | The same as `ForEachPair` for one key cell: the batch fails at the first empty record. |
| `Batch.ExtraCellsIgnored` | model/cekbot.py:107 | Cells after the two key cells do not affect the batch. |
| `IdentityBatch.ReportRowFromService` | model/cekbot.py:28-113 | With `check_nik_kk` against the service, row i + 1 of the report echoes record i's NIK and KK. It reads "Berhasil" exactly when that key's POST redirected, its GET answered 200 and the page held both the heading and the list. A rejected POST leaves Nomor empty, puts "POST request failed with status code " and the code in Message, and keeps all 3 slots. |
| `IdentityBatch.ReportRowMeaning` | model/cekbot.py:110-113 | A report row echoes NIK and KK. It says "Berhasil" exactly on success and "Gagal" exactly on failure, lists the numbers joined by ", ", carries the message on failure, and ends with the free slot count, which is 3 minus the numbers found. |
| `IdentityBatch.ProcessSpreadsheet` | model/cekbot.py:100-115 | The report is the header, then one row per data record in record order, looked up with that record's NIK and KK. It exists exactly when every data record has two cells. Every row of it has six cells. |
| `IdentityBatch.ReportExcelSaves` | model/cekbot.py:131-135 | The six-column report always passes pandas' width check, so its spreadsheet export succeeds and holds the report under the six column names. |
| `IdentityBatch.SpreadsheetReport` | model/cekbot.py:95-97 | A failed download ends the batch before any lookup. A successful report starts with the header. |
| `IdentityBatch.ReportTxtAlwaysRaises` | model/cekbot.py:126-130 | A report with one or more data records fails as TXT at row 1, because of its int `sisa` cell. |
| `IdentityBatch.UrlRowMeaning` | model/botlengkap.py:300-303 | A four-column row echoes NIK and KK. Its last cell is the count exactly on success. On failure, "Gagal" stands under Nomor and the message under Sisa. |
| `IdentityBatch.UrlCekNikRows` | model/botlengkap.py:295-303 | There is one four-column row per data record, in order. A record with fewer than two cells aborts. |
| `IdentityBatch.RowsAgree` | model/botlengkap.py:300-303 | For one lookup, the two layouts agree on success and on the joined numbers. |
| `IdentityBatch.LayoutsAgree` | model/botlengkap.py:177-184 | The six-column and four-column reports of one sheet agree record by record. |
| `SimBatch.TextareaRowFromService` | model/statusbot.py:28-93 | With `check_sim_status` against the service, the row of entry i starts with that entry's cleaned MSISDN. For a 200 reply whose `status` is true, it then holds the card status, the activation status (each "Tidak diketahui" when absent), the ICCID tail and an empty message. For a request that raised before any reply, it holds three empty cells and "Request Error: " plus the exception text. |
| `SimBatch.Entries` | model/botlengkap.py:353 | The entries are one more than the newlines in the stripped text. They hold no newline and join back to the stripped text. |
| `SimBatch.Msisdns` | model/botlengkap.py:354-357 | There is one cleaned MSISDN per entry, in entry order. |
| `SimBatch.TextareaRowMeaning` | model/statusbot.py:90-93 | A textarea row has five cells and starts with the MSISDN. It holds either the three status fields and an empty message, or three empty cells and the message. |
| `SimBatch.TextareaRows` | model/statusbot.py:81-93 | There is one row per entry, in entry order, each built from that entry's cleaned MSISDN and its lookup. |
| `SimBatch.CsvRecordPerEntry` | model/statusbot.py:79-100 | The textarea CSV has the header, then one record per entry in entry order. Each record is the textarea row of that entry's cleaned MSISDN and its lookup, so it starts with the MSISDN. |
| `SimBatch.CsvMatchesExcel` | model/botlengkap.py:404-426 | The CSV and the spreadsheet hold identical rows: the CSV's first record is the spreadsheet's header. |
| `SimBatch.TxtBodies` | model/statusbot.py:117-120 | There is one TXT line body per entry, in entry order. |
| `SimBatch.TextareaTxt` | model/statusbot.py:106-126 | Each TXT line is its entry's body followed by "\n". |
| `SimBatch.TxtBodySingleLine` | model/botlengkap.py:389-392 | A TXT line body has no newline when the number and fields have none. |
| `SimBatch.CleanAvoidsNewline` | model/statusbot.py:110-112 | Cleaning a newline-free entry gives a newline-free number. |
| `SimBatch.TxtReadsBack` | model/statusbot.py:117-126 | When the service answers without newlines, the TXT file split at newlines gives each entry's line in order, then an empty tail. |
| `SimBatch.NomorEntrySplits` | newbot.py:282-284 | Split at newlines, a `/nomor` result gives back its pieces. An active card gives five pieces, which fill the five spreadsheet columns. A failure gives three. |
| `SimBatch.NomorResults` | newbot.py:267-284 | There is one result string per argument, in argument order, for the argument's cleaned number. |
| `SimBatch.NomorResultNamesNumber` | newbot.py:281-284 | Every `/nomor` result starts with "Nomor: " and the cleaned number. |
| `SimBatch.UrlCekStatusRows` | model/botlengkap.py:330-337 | There is one status row per data record, keyed by its first cell as written. An empty record aborts. |
| `SimBatch.StatusRowMeaning` | model/botlengkap.py:334-337 | A status row starts with the MSISDN. It has four cells exactly on success. A failure row is the MSISDN, "Gagal" and the message. |
| `CekBot.HandleUrl` | model/cekbot.py:141-151 | An accepted link replaces the stored one, and a rejected one changes nothing. A stored link always starts with "https://" and is stripped. |
| `CekBot.StoredUrlValid` | model/cekbot.py:151 | Every state reached by `/url` commands from a valid state is valid. |
| `CekBot.HandleFormatChoice` | model/cekbot.py:167-190 | With no stored link, no file is produced. Otherwise: a failed download or a short record ends without a file; the report is saved in the chosen format if the save succeeds; the file is "results_" + stamp + extension and is not deleted. |
| `CekBot.CsvDelivery` | model/cekbot.py:178-187 | A CSV file is sent exactly when the download succeeds and every data record has two cells. The file is then the full report. |
| `CekBot.TxtFailsOnData` | model/cekbot.py:181-190 | Choosing TXT for a sheet with data records never sends a file. |
| `CekBot.ChoiceRepeatable` | model/cekbot.py:172-185 | The link is not cleared by an export: a later press of the same button sends the same content again. |
| `CekBot.NoLinkNoFile` | model/cekbot.py:172-176 | A session whose `/url` commands were all rejected has nothing to export. |
| `CekBot.RejectedCommandsKeep` | model/cekbot.py:143-150 | Rejected `/url` commands leave the user data unchanged. |
| `StatusBot.HandleTextarea` | model/statusbot.py:167-190 | A blank message changes nothing. Any other message replaces the stored text with its stripped form, so stored text is always stripped. |
| `StatusBot.Button` | model/statusbot.py:195-229 | With no stored text, no file is produced. A file is sent exactly when there is text and the choice is csv, txt or excel. An unknown choice raises on the unbound file name. The file is "processed_" + stamp + extension, with the CSV, TXT or spreadsheet report of the stored text, and is not deleted. |
| `StatusBot.CsvCoversEveryLine` | model/statusbot.py:79-103 | A stored text of k lines gives a CSV of k + 1 records. The first is the header, then one record per line in line order, each the row built from its cleaned number and lookup. |
| `StatusBot.ButtonRepeatable` | model/statusbot.py:203-224 | The text is not cleared by an export: the same file contents can be requested again. |
| `StatusBot.LastMessageWins` | model/statusbot.py:190 | A later non-blank message replaces an earlier one. |
| `NewBot.Nomor` | newbot.py:256-288 | With fewer than two arguments nothing is stored. Otherwise the stored results become one string per argument, and there are at least two. |
| `NewBot.HandleUrl` | newbot.py:203-215 | `/urlceknik` applies the same link rule and stores only the link. |
| `NewBot.HandleMsisdnInput` | newbot.py:301-333 | Only while waiting does a non-blank message get stored, stripped, and the wait ends. Otherwise nothing changes. |
| `NewBot.SplitResults` | newbot.py:363 | There is one spreadsheet row per result, each the result split at newlines. |
| `NewBot.HandleFormatSelection` | newbot.py:335-374 | With no results, nothing is sent. csv and txt are sent whenever there are results and hold them joined by "\n". excel is sent exactly when the widest result, split at "\n", has five cells. Then each result's pieces form a row under the five columns; otherwise pandas raises ValueError and no file is sent. Any other choice sends nothing. A sent file is deleted afterwards. |
| `Export.Widest` | newbot.py:363 | The width pandas pads rows to is the length of the longest row, attained by some row, and 0 for no rows. |
| `NewBot.CsvMatchesTxt` | newbot.py:348-359 | The CSV and TXT files have the same contents under different names. |
| `NewBot.ExcelRowPerNumber` | newbot.py:360-365 | After `/nomor` with newline-free arguments and service fields, the spreadsheet is sent exactly when at least one lookup succeeded. It then has one row per argument, holding that number's result pieces. Otherwise pandas raises on the three-cell rows. |
| `NewBot.AllFailuresRaise` | newbot.py:360-365 | When every `/nomor` lookup failed, asking for excel raises instead of sending a file. |
| `NewBot.NeverWaiting` | newbot.py:303-328 | No handler sets `waiting_for_msisdn`, so a session never stores text. |
| `NewBot.ExportIgnoresLinkAndText` | newbot.py:341-365 | What a button sends does not depend on the stored link or text. |
| `BotLengkap.UrlCekNik` | model/botlengkap.py:281-313 | An empty argument list or a first argument without "https://" gives no file. Otherwise a file is sent exactly when the download succeeds and no record is short. The file is "ceknik_" + stamp + ".csv", with the four-column header and rows. |
| `BotLengkap.UrlCekStatus` | model/botlengkap.py:316-347 | The same as `UrlCekNik` with status rows and "cekstatus_" + stamp + ".csv". |
| `BotLengkap.ExtraArgumentsIgnored` | model/botlengkap.py:283-287 | Words after the link do not change the outcome. |
| `BotLengkap.CekNikFileShape` | model/botlengkap.py:305-310 | A sent `/urlceknik` file is the header and then one row per data record, in order. |

## Left out

- HTTP transport is not modelled: sessions, cookies, redirects, headers, timeouts and payloads. The services and the download are function parameters whose values are the replies.
- Transport exceptions in `check_nik_kk` are not modelled. It does not catch them, so they escape the batch; the exchange datatype has no transport-error case.
- HTML parsing is not modelled. What BeautifulSoup finds (the first `h6`, and the `li` texts of the first `ul` whose `class` attribute is exactly the string "list-unstyled margin-5-top", as `find("ul", class_=...)` with a two-word value matches) is an input. An element whose text strips to the empty string is still found.
- JSON decoding is not modelled. A body that is not JSON, or a reply without a `data` object, raises outside the `try` in `check_sim_status`. The body is taken as already decoded, with `data` present.
- SimStatus.SimData: a JSON `null` and a missing key are both `None`, so both show "Tidak diketahui". In the source, `.get("cardStatus", ...)`, `.get("activationStatus", ...)` and `.get("message", ...)` return Python `None` for an explicit `null` (model/statusbot.py:62-63, 69); the CSV then gets an empty cell and the TXT the text "None". A `null` ICCID is falsy and shows "Tidak diketahui" as modelled.
- The `csv.reader` quoting rules and `splitlines()` are not modelled; the downloaded sheet is its list of records. The `csv.writer` byte format is not modelled either: a CSV file is its list of records.
- pandas/openpyxl are not modelled beyond two rules: a spreadsheet is its header and rows, and `DataFrame` raises ValueError unless there are no rows or the widest row has one cell per column name (model/cekbot.py:134, newbot.py:363). pandas pads short rows to the widest row with empty cells; the model keeps short rows as they are. The spreadsheet of the URL bot puts the `[NIK, KK, Status, Nomor, Message, Sisa]` first row under the six column names as a data row (model/cekbot.py:134), and the model keeps it that way.
- NewBot.HandleFormatSelection: models only the width rule of pandas' `DataFrame` (newbot.py:363). The rows are padded to the widest one, which must equal the five column names, or pandas raises ValueError and no file is sent. The widths of cell values and pandas' dtype handling are not modelled.
- The system clock is not modelled: the time is a `DateTime` parameter with a four-digit year.
- Telegram plumbing is not modelled: reply texts, keyboards, `query.answer`, message edits and document upload. The model keeps only `user_data` and whether a file is produced. The `/ceknik` single-lookup reply (newbot.py:143-158, model/botlengkap.py:150-164) is reply text only and is not modelled.
- Per-user keying of `user_data` is not modelled: each session is one user's data.
- Async interleaving is not modelled: handlers run one at a time.
- Logging, dotenv and `main()`'s handler registration are not modelled. The registration only decides which handler a `NewBot.Event` reaches.
- Deleting `output.*` after sending is recorded only as a flag on the delivery, and writing files is not modelled.
- The broken parts of model/botlengkap.py are not modelled. These are `ceknik_handle_format_choice` calling the undefined `process_spreadsheet_from_url` and `save_results` (lines 252-253), `cek_status` reading the undefined `text_data` (line 266), and the unregistered `ceknik_handle_url`/`ceknik_handle_format_choice`. More fundamentally, `main()` registers a `MessageHandler(filters.TEXT & ~filters.COMMAND, ...)` (line 510), but neither `MessageHandler` nor `filters` is imported (line 6). So `main()` raises NameError before `run_polling`, and as written none of the combined bot's handlers, `url_cek_nik` and `url_cek_status` included, ever runs. The `BotLengkap` members model what those handlers do when called.
- The unused `process_spreadsheet` helpers in the files beyond the functions above are not modelled. These include newbot's `ceknik_handle_format_choice`, which is never registered.
- SimStatus.CheckSimStatus: the "Request Error" text of a transport exception is the exception's text as given. For an HTTP error it is built in the shape of `requests`' `HTTPError` message; the model states that it starts with the status code, not the full reason text.
