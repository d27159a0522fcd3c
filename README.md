# Attendance kiosk: a Dafny model of its submission and report logic

The kiosk is a browser page. It scans employee QR codes, or takes a typed
HR code, and posts check-in and check-out records to a spreadsheet script.
It also requests reports from that script, shows them as a table, and
exports them to Excel or PDF. This project models the logic the page itself
contains:

- **Scanner** (`scanner.dfy`). The scan submission pipeline is a class,
  `ScannerState`, with one method per event the browser delivers:
  - a code is decoded (`CodeDecoded`);
  - the manual form is submitted (`ManualSubmit`);
  - an outstanding attendance request settles (`Complete`);
  - an armed timer fires (`FireTimer`).

  Each handler runs without interruption up to its next `await` or timer.
  Requests not yet settled and timers not yet fired are fields of the
  class, so the environment may settle and fire them in any order. The
  class invariant `Valid` says two things:
  - `loadingCount` equals the number of outstanding requests;
  - every code in the blocked set is still covered by an outstanding
    request for it or by an armed cooldown for it, which will release it
    once that request settles and that cooldown fires.
- **Google Sheets service** (`google_sheets_service.dfy`). This covers:
  - the form fields each request posts; they are built by sequential
    appends, and the report form is proved equal to a declarative
    description;
  - how a reply becomes either a returned value or a thrown `Error`
    (`Ok`/`Err`).
- **Reports** (`reports.dfy`). `ReportsState` has these parts:
  - the "generate" handler, split at its `await`, follows the
    `handleGenerateReport` function;
  - its class invariant says only a body that passed the shape check is
    ever shown.
- **Export** (`export_utils.dfy`). This covers the file names derived
  from the report title and the sheet layout `[headers, ...rows]`.
- **JavaScript built-ins** (`js.dfy`). These model:
  - JSON values, with their truthiness;
  - `a || b` on an optional string;
  - `String.prototype.trim`, with the white-space set of ECMA-262
    (sections 12.2 and 12.3);
  - the decimal text of a status number.
- **Wrappers and Pending** (`wrappers.dfy`, `pending.dfy`). These hold
  `Option`/`Result`, and the removal of the pending item that settles or
  fires.

Scenario methods assert the outcome of concrete event sequences:
- `Scanner.RecordedScenario`: a recorded scan is counted, and a repeat is
  ignored until the cooldown fires;
- `Scanner.RejectedScenario`: a rejected code shows its banner and stays
  blocked;
- `Scanner.GuardedClearScenario`: a later panel survives an earlier timer;
- `Scanner.ManualResubmitDuringCooldown` and `Scanner.BannerClearedEarly`:
  described in the notes below;
- `Reports.PeriodReportScenario`: a one-row period report;
- `Reports.NoTypeScenario`: with no report type chosen, nothing is posted;
- `Reports.RaggedRowsAccepted`: rows narrower than the headers are
  accepted;
- `ExportUtils.PeriodSheetScenario`: the sheet of that report.

### Behaviour of the code worth knowing

- **Manual submit skips the blocked-code check.** The manual path
  (Scanner.tsx:162-168) never consults the blocked-code set; it only adds
  to it. Suppose a code is resubmitted by hand while its earlier cooldown
  is still armed. If that request is still outstanding when the earlier
  cooldown fires, the cooldown releases the code and the camera can post
  it a second time concurrently; if the request settles first, the code is
  still released early, while the resubmission's own cooldown is armed. `Scanner.ManualResubmitDuringCooldown` exhibits this: it
  ends with two outstanding requests for one code.
- **The delayed clears compare text and name, not identity.** A clear timer
  blanks the banner when it holds equal text (Scanner.tsx:76-78), and the
  panel when it shows an equal name (Scanner.tsx:67-69). A cooldown is armed
  with 1500 ms (Scanner.tsx:125-127), the banner clear beside it with
  3000 ms (Scanner.tsx:78). So a code that fails, is rescanned once its
  cooldown has fired, and fails again for the same reason before the first
  banner clear is due, has its second banner blanked by the first timer
  more than 1500 ms before its own timer: the second banner stays up for
  less than 1500 ms instead of 3000 ms (`Scanner.BannerClearedEarly`). Likewise the success timer of a reply
  without an employee name blanks the placeholder of a manual resubmission
  of the same code (`Scanner.ManualResubmitDuringCooldown`).
- **Every truthy report filter is posted.** The report request
  (googleSheetsService.ts:60-63, Reports.tsx:35-41) carries any
  of `hrCode`, `date`, `startDate` and `endDate` that is truthy, whatever
  the report type. Because the view passes all five inputs, a period
  report also posts the `date` input: today's date (Reports.tsx:18) unless
  one was picked under the daily report (Reports.tsx:86).
- **Row widths are not checked.** The shape check (Reports.tsx:47) does not compare the width
  of each row with the number of headers.
- **A truthy JSON primitive as a report body is an error.** On such a body,
  `'status' in result` (googleSheetsService.ts:79) throws a `TypeError`, so the request rejects with an
  `Error` whose message is the engine's text.

## Model

| member | source | states |
|---|---|---|
| Js.Trim | Scanner.tsx:162 | the trimmed code is the infix left after cutting the leading and trailing ECMAScript white space; the cut parts are all white space, the result's ends are not, and it is empty exactly when the input is all white space |
| Js.TrimKeepsClean | Scanner.tsx:162 | a code whose ends are not white space is posted as typed |
| Js.TrimIdempotent | Scanner.tsx:162 | trimming an already trimmed code changes nothing |
| Js.OrElse | Scanner.tsx:62-63 | the or-operator on an optional string gives the string when it is present and non-empty, otherwise the fallback |
| Js.DecimalRoundTrip | googleSheetsService.ts:32 | the status number is written in decimal digits with no leading zero that read back as the same number |
| GoogleSheetsService.BuildAttendanceForm | googleSheetsService.ts:18-22 | the attendance form is exactly action=postAttendance, hrCode, recordAction, in that order, and each reads back by name |
| GoogleSheetsService.BuildReportForm | googleSheetsService.ts:55-63 | the sequential and conditional appends produce the declarative report form |
| GoogleSheetsService.PresentMembership | googleSheetsService.ts:60-63 | a filter field is posted with a value exactly when the parameter holds that value and it is non-empty |
| GoogleSheetsService.PresentKeepsOrder | googleSheetsService.ts:60-63 | skipping falsy filters keeps the order of the ones posted |
| GoogleSheetsService.ReportFormLayout | googleSheetsService.ts:57-63 | the report form starts with action=getReportData and reportType; each filter is present if and only if it is truthy, at most once, in the order hrCode, date, startDate, endDate |
| GoogleSheetsService.NetworkErrorText | googleSheetsService.ts:32 | the non-OK message is "Network error: ", the status, " - ", the status text, then ". Response: " and the body text, at fixed positions |
| GoogleSheetsService.ReceiveJson | googleSheetsService.ts:24-35 | a reply yields a body exactly when fetch resolved, the status was OK and the body parsed; a fetch rejection is passed through; a non-OK reply gives the Error with the network text; an unparsable body gives the parser's Error |
| GoogleSheetsService.Rethrow | googleSheetsService.ts:42-48 | an Error is rethrown unchanged; any other thrown value becomes an Error with the fixed message |
| GoogleSheetsService.PostAttendanceResult | googleSheetsService.ts:17-49 | attendance resolves with the body exactly when it was received and its status is not "error"; a non-OK reply rejects with the network text; an error status rejects with its message or the default; a body that does not parse rejects with the parser's Error unchanged; every failure of the `try` goes through the rethrow rule, so only Errors are thrown |
| GoogleSheetsService.CheckReportBody | googleSheetsService.ts:79-83 | an object body is an error exactly when its status is the string "error", and the error carries the server's message or the default; falsy and array bodies pass unchanged; a truthy primitive body rejects with the TypeError of the `in` operator; a body that passes is returned as it came |
| GoogleSheetsService.GetReportDataResult | googleSheetsService.ts:54-91 | the report resolves with the parsed body itself, with no shape check; a non-OK reply rejects with the network text; a received body is classified by the body check, so an object body rejects exactly when its status is "error"; a body that does not parse rejects with the parser's Error unchanged; every failure of the `try` goes through the rethrow rule, so only Errors are thrown |
| Scanner.DisplayName | Scanner.tsx:62-68 | the shown name is the employee's name when present and non-empty, otherwise the code |
| Scanner.SuccessPanel | Scanner.tsx:59-65 | the success panel holds the display name, the department or the "recorded" fallback (never empty), and the server's message |
| Scanner.FailureText | Scanner.tsx:72-75 | the banner is the failure prefix, the code, ": ", then the Error's message or the fixed fallback |
| Scanner.AfterSuccessClear | Scanner.tsx:67-69 | the success timer blanks the panel exactly when it still shows the name its reply displayed, and otherwise leaves it unchanged |
| Scanner.AfterMessageClear | Scanner.tsx:76-78 | the banner timer blanks the banner exactly when it still holds the text its failure set, and otherwise leaves it unchanged |
| Scanner.NewerPanelSurvives | Scanner.tsx:67-69 | an earlier reply's timer leaves a later panel with a different name in place |
| Scanner.CoveredAfterPost | Scanner.tsx:106-107 | an accepted code is covered by its own outstanding request, and every other held code stays covered |
| Scanner.CoveredAfterSettle | Scanner.tsx:123-128 | a settled request's code is covered by the cooldown armed in its `finally` |
| Scanner.CoveredAfterFire | Scanner.tsx:125-127 | the cooldown releases only its own code, and every code still held stays covered |
| Scanner.ScannerState.Valid | Scanner.tsx:40-47 | the class invariant implies `loadingCount` is never negative |
| Scanner.ScannerState.constructor | Scanner.tsx:39-47 | the view starts with nothing blocked, nothing loading, no panel or banner, a zero counter, check-in selected and an empty input |
| Scanner.ScannerState.Begin | Scanner.tsx:105-114 | an accepted submission beeps once, blocks the code, raises `loadingCount` by one, clears the banner, shows the placeholder with the raw code and posts the attendance form; nothing else changes |
| Scanner.ScannerState.CodeDecoded | Scanner.tsx:100-115 | a code already blocked changes nothing (no beep, no request); any other is accepted as in `Begin`; the invariant is kept |
| Scanner.ScannerState.ManualSubmit | Scanner.tsx:160-172 | manual submission is accepted exactly when the trimmed input is non-empty and nothing is loading, without consulting the blocked codes; it then posts the trimmed code |
| Scanner.ScannerState.Complete | Scanner.tsx:116-189 | a settled request is removed and `loadingCount` falls by one; its code stays blocked until its cooldown. On success: one more scan, the success panel, a clear timer and a cooldown, and a manual input is cleared. On failure: no panel, the failure banner, its clear timer and a cooldown, and the counter and input unchanged |
| Scanner.ScannerState.FireTimer | Scanner.tsx:67-127 | firing a timer removes it; a success timer and a banner timer act as their compare-before-clear updates; a cooldown unblocks its code; nothing else changes |
| Reports.ReportDataShape | Reports.tsx:47 | a body is accepted exactly when it is an object with a truthy title and array-valued headers and rows; row widths are not checked |
| Reports.CaughtMessage | Reports.tsx:55 | the error line is the Error's message, otherwise the fixed fallback |
| Reports.ReportOutcome | Reports.tsx:44-56 | the table receives the body exactly when the request resolved and passed the shape check; a body that fails the check gives the parse-failure message; a rejection gives its Error's message |
| Reports.ErrorStatusNeverShown | Reports.tsx:44-56 | a body whose status is "error" is never shown and yields the server's message |
| Reports.ReportsState.Params | Reports.tsx:35-41 | the request always carries all five inputs, whatever the report type |
| Reports.ReportsState.constructor | Reports.tsx:16-23 | the view starts with no type chosen, an empty code, all three dates set to today, no table, no error and nothing loading |
| Reports.ReportsState.GenerateReport | Reports.tsx:25-41 | with no type chosen only the error line is set and nothing is posted; otherwise loading starts, the error and the table are cleared and the report form of the five inputs is posted |
| Reports.ReportsState.ReceiveReport | Reports.tsx:44-60 | valid data replaces the table; anything else sets the error line and leaves the table alone; loading ends whatever the outcome; only validated data is ever shown |
| ExportUtils.Sanitize | exportUtils.ts:18 | the stem has the title's length and no U+0020; each space becomes `_` and every other character keeps its position and value |
| ExportUtils.SanitizeFixesSpaceless | exportUtils.ts:18 | a stem without spaces is unchanged by sanitising |
| ExportUtils.SanitizeIdempotent | exportUtils.ts:18 | sanitising twice is sanitising once |
| ExportUtils.ExcelFileName | exportUtils.ts:18 | the Excel file name is the sanitised stem followed by `.xlsx` |
| ExportUtils.PdfFileName | exportUtils.ts:57 | the PDF file name is the sanitised stem followed by `.pdf` |
| ExportUtils.SameStem | exportUtils.ts:57 | both exports of one report share the stem, and neither name contains a space |
| ExportUtils.HeaderCells | exportUtils.ts:13 | the header row has one text cell per header, in order |
| ExportUtils.SheetRows | exportUtils.ts:13 | the sheet is the header row followed by the data rows in order, so it has one row more than the data |

## Left out

- Camera and QR decoding: scanner start, stop, flash toggling and the camera-error banner (Scanner.tsx:81-158) are device I/O in a foreign library. A decoded code is simply the `CodeDecoded` event.
- `qrCodeErrorCallback` (Scanner.tsx:131-135) changes no state, so it has no event method.
- The `console.error` calls (googleSheetsService.ts:43, 85; Reports.tsx:50, 57) are logging only; nothing in the modelled state depends on them.
- The WebAudio beep (Scanner.tsx:17-32) is a side effect; the model only counts beeps in `beeps`.
- `fetch`, `response.text()` and `response.json()` are network I/O. Their results are inputs (`FetchOutcome`, `HttpResponse`). A rejection of `response.text()` on a non-OK reply is not modelled.
- Timers: the delays are the constants `DEBOUNCE_DELAY_MS` and `MESSAGE_CLEAR_DELAY_MS`, with no clock. Timers and replies are delivered in any order, which includes every order the clock allows. The model therefore does not capture that two timers with the same delay fire in the order they were armed.
- React specifics are not modelled: state batching, the `useRef`/`useEffect` wiring, and the fact that `isLoading` in `handleManualSubmit` is read from the last render. The model uses the current `loadingCount`.
- The `disabled` attributes of the submit buttons (Scanner.tsx, Reports.tsx:123) are rendering. The handlers are modelled as written, without those guards.
- Input edits are plain field writes on the classes: the selected action, the manual code, the report type and the filters.
- The rendering of every view, Header.tsx, the view switch of App.tsx and service-worker.js are not modelled. App's scan counter is the `scanCount` field.
- The internals of XLSX and jsPDF are not modelled: workbook creation, fonts, styling and the download (exportUtils.ts:14-15, 28-54).
- types.ts is not part of this model. The wire strings of the report types are stand-ins, and the attendance reply is a record whose fields may be absent. A reply body that is not an object is not modelled.
- CheckReportBody: the `TypeError` text raised on a truthy primitive body is engine-specific. It is modelled as one fixed message.
- ServerMessage: a truthy `message` that is not a string would be converted with `String()`. The model uses the default message instead.
