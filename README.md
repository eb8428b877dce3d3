# Load-test monitor: a verified model of its core

The application is a desktop load-test monitor. It reads a load cell over Modbus TCP and
computes a 32-bit raw value from two holding registers. It shows the load in tonnes and
kilonewtons, tracks the peak, keeps a chart of the samples and writes a PDF certificate
once a test is finished. A small simulator plays the load cell. A local license check
(HMAC signature) and an activation request gate the application.

This project models the decision logic and state changes of that core in Dafny and proves
what the code promises:

- **The polling session (modbusManager.js).** A class with the store keys the session
  touches, the start lock, the client's open flag and the three buttons. The two `await`s
  are split into separate steps (`StartPolling`/`ConnectFinished`, `PollLoop`/`ReadCompleted`).
  The `setTimeout` re-arm is a pending-timer counter with a `TimerFired` step.
- **The register decoding.** JavaScript's `(high << 16) | low` is written with the int32
  semantics of the language's bitwise operators and proved equal to a closed form. The
  closed form is a negative value once the high word reaches 0x8000.
- **The simulator (slave.js).** It splits the scaled load into two words in a 4-byte buffer,
  and the master's decoding gives the value back within 5 kg.
- **The store (state.js).** A map with a fixed key set and a log of the `change` deliveries
  to the subscribed listeners.
- **Form validation (formManager.js).** The required-field checks with `trim`, the `testDate`
  default, the positivity checks and the metadata updates.
- **Report generation (reportManager.js).** The download guards, the camelCase key labels,
  the two-column section layout, the table pagination and the reset after a save.
- **The report list (reports.js).** `toTitleCase`, the search filter, the newest-first sort,
  the PDF path choice and the deletion by id.
- **The chart lifecycle (chartManager.js).** The bounded retry counter, the
  `destroyInProgress` flag and the label/data series.
- **The dialogs (uiDialogs.js).** `escapeHtml` with a proved inverse, the button sets, and
  what a key press or click resolves to.
- **Licensing (licenseManager.js).** The check and activation decision tables, with the
  HMAC as a function parameter.

JavaScript primitives (int32 conversion, bitwise operators one bit at a time, `trim`, ASCII case
mapping, `includes`) are in module `Js`. Files are one module per source file: `js.dfy`,
`modbus_manager.dfy`, `slave.dfy`, `state.dfy`, `form_manager.dfy`, `report_manager.dfy`,
`reports.dfy`, `chart_manager.dfy`, `ui_dialogs.dfy`, `license_manager.dfy`.

Inputs the program gets from the outside world are parameters of the operations:
- the register read (two 16-bit words or a failure) and whether the TCP connect succeeds;
- whether a file exists, and whether a destroy or a write throws;
- `Number(...)`, date parsing and formatting;
- the HMAC and `LICENSE_SECRET`, the machine id and the activation server's answer.

## Model

| member | source | states |
|---|---|---|
| Js.ToInt32 | modbusManager.js:19 | the int32 result is in [-2^31, 2^31), congruent to the input modulo 2^32, and equal to it when it is already in range |
| Js.TrimEmptyIff | formManager.js:89 | `s.trim() === ''` exactly when every character of s is whitespace |
| Js.TrimIdempotent | formManager.js:96 | trimming an already trimmed value changes nothing |
| Js.TrimIsInfix | formManager.js:96 | the trimmed value is a contiguous slice of the original |
| Js.Lower | reports.js:10 | `toLowerCase` keeps the length and lowercases each character in place |
| ModbusManager.CombineValue | modbusManager.js:17-19 | `(high << 16) \| low` equals the int32 with those halves: `high*65536+low` below 0x8000, a negative number from 0x8000 on |
| ModbusManager.Decode | modbusManager.js:17-22 | the raw value is `high*65536+low` for high < 0x8000 and negative otherwise; tonnes = raw/100, kg = 1000 × tonnes, kN = tonnes × 9.80665 |
| ModbusManager.DecodeCombines | modbusManager.js:19 | the decoded raw value is exactly what the JavaScript bit operators compute |
| ModbusManager.PeakOf | modbusManager.js:23-27 | the peak of a run of samples is at least 0, at least every sample, and is 0 or one of the samples |
| ModbusManager.PollingSession.constructor | state.js:10-12 | a new session is not polling, unlocked, closed, with peak 0 and no samples, so the peak is the greatest sample load (0 for none); start enabled, stop and download disabled |
| ModbusManager.PollingSession.PollLoop | modbusManager.js:10-15 | with polling off the cycle changes nothing; otherwise exactly one register read is issued and nothing else changes |
| ModbusManager.PollingSession.ReadCompleted | modbusManager.js:13-75 | on a reading the peak becomes `max(old peak, tonnes)` and exactly one sample `(time, tonnes)` is appended with earlier samples kept; on a failed read polling stops, the client is closed and the buttons are reset; either way one next cycle is scheduled; a peak that was the greatest load among the samples stays so after the read |
| ModbusManager.PollingSession.TimerFired | modbusManager.js:74 | a fired timer issues a read only when polling is still on, so the cycle after a failure does nothing |
| ModbusManager.PollingSession.CleanupPolling | modbusManager.js:139-147 | the client is closed, polling is off, start is enabled, stop and download are disabled; peak, samples and lock are kept (so a second call changes nothing) |
| ModbusManager.PollingSession.StopPolling | modbusManager.js:149-157 | as cleanup, and download is enabled again |
| ModbusManager.PollingSession.BeginPolling | modbusManager.js:123-128 | polling is on with stop enabled and start/download disabled, and the first read is issued |
| ModbusManager.PollingSession.StartPolling | modbusManager.js:78-121 | a duplicate start (polling or locked) leaves polling, lock, client and reads unchanged; incomplete metadata unlocks and re-enables start; otherwise it waits for the connection holding the lock, or starts at once when the client is open and then releases the lock |
| ModbusManager.PollingSession.ConnectFinished | modbusManager.js:105-135 | the lock is always released; a successful connect starts polling with the first read issued; a failed one cleans up |
| ModbusManager.PollingSession.GetPeakValue | modbusManager.js:159-161 | while the peak is tracked, the value read is the greatest load among the samples (0 for none) and no sample exceeds it |
| ModbusManager.PollingSession.ResetPeakValue | modbusManager.js:164-166 | the peak becomes 0 and nothing else changes; with no samples left the peak is tracked again |
| ModbusManager.PollingSession.ClearChartData | modbusManager.js:168-170 | the samples become empty and nothing else changes; with the peak already 0 it is tracked again |
| ModbusManager.RestartWithinInterval | modbusManager.js:73-75 | a Stop followed by a Start within one interval leaves two reads in flight: the timer armed before Stop is never cancelled and starts a second chain of cycles |
| Slave.Round | slave.js:36 | `Math.round` is within half a unit of its argument, and halves round up |
| Slave.HighWord | slave.js:37 | the high register value is in 0..65535 |
| Slave.LowWord | slave.js:38 | the low register value is in 0..65535 |
| Slave.HighWordBits | slave.js:37 | `(v >> 16) & 0xffff`, with int32 operators, is bits 16-31 of v's 32-bit pattern |
| Slave.LowWordBits | slave.js:38 | `v & 0xffff` is bits 0-15 of v's 32-bit pattern |
| Slave.WordsOf | slave.js:37-38 | for 0 ≤ v < 2^31 the two words are `v / 65536` and `v % 65536` |
| Slave.SplitRoundTrip | slave.js:37-38 | for 0 ≤ v < 2^31 the master's `(high << 16) \| low` of the simulator's two words is v again |
| Slave.HighWordZero | slave.js:28-37 | a load of at most 100 t is at most 10000 counts, so the high word is 0 |
| Slave.ReadBackWithin5Kg | slave.js:36-38 | the kg the master decodes from the registers is within 5 kg of the simulated load |
| Slave.Simulator.constructor | slave.js:7-21 | a 4-byte zeroed buffer and a zero load |
| Slave.Simulator.WriteUInt16BE | slave.js:37-38 | writing a 16-bit value big-endian sets that register to it and leaves the other one |
| Slave.Simulator.Tick | slave.js:30-45 | below 100 t the load grows by the increment, clamped at 100 t, and the registers hold the high and low words of `round(kg/10)`; at 100 t nothing changes; the load never decreases and never exceeds 100 t |
| StateStore.InitialDefaults | state.js:7-19 | the defaults are `peakValue` 0, `chartData` [], `isPolling` false, `testMetadata` {}, `chartInstance` null, and the key set is exactly the eleven keys of the constructor |
| StateStore.Deliver | state.js:32 | `emit` calls every listener once, in subscription order, with the same `{key, value}` |
| StateStore.SubscribedOccurs | state.js:36-38 | a callback just subscribed is among the listeners |
| StateStore.DeliverReachesListener | state.js:32-38 | a listener subscribed n times receives each later change n times, after what it had received before |
| StateStore.StateManager.constructor | state.js:5-20 | the store starts with exactly the listed keys and defaults, no listeners and no events |
| StateStore.StateManager.Get | state.js:22-24 | for keys that are not names inherited from `Object.prototype`, `get` returns the stored value, or undefined exactly when the key is not a store key |
| StateStore.StateManager.Set | state.js:26-34 | for keys that are not names inherited from `Object.prototype`: an unknown key changes nothing and emits nothing; a known key takes the value, a following `get` returns it, every other key is unchanged, and exactly one `change` event is emitted and delivered to every listener; the key set never changes |
| StateStore.StateManager.Subscribe | state.js:36-38 | the callback is added at the end of the listeners; store and events are unchanged |
| FormManager.CheckFields | formManager.js:263-268 | the loop returns true exactly when every listed field is present and not blank after trim |
| FormManager.IsTestMetadataComplete | formManager.js:228-278 | true exactly when all 10 calibration fields and all 12 equipment fields are present and non-blank, a missing object counting as empty |
| FormManager.IsCalibrationFormComplete | formManager.js:42-62 | true exactly when all 10 calibration inputs exist and are non-blank |
| FormManager.CompleteHasEquipment | formManager.js:259-276 | complete metadata has both objects, and the equipment object is non-empty |
| FormManager.MissingFields | formManager.js:88-90 | the missing list holds exactly the listed fields that are absent or blank, and is empty exactly when all are present |
| FormManager.Trimmed | formManager.js:96 | the listed fields hold their trimmed values; every other key is kept as it was; no key is added |
| FormManager.TrimRequired | formManager.js:96 | the trimming loop produces exactly the trimmed form |
| FormManager.TrimKeepsPresent | formManager.js:96 | trimming does not make a present field blank |
| FormManager.ResetEquipmentData | formManager.js:293-297 | equipment becomes {} and calibration is kept, so the metadata is then incomplete |
| FormManager.CollectAndSaveCalibration | formManager.js:69-120 | succeeds exactly when all 10 fields are present and the file write succeeds; on failure the metadata is untouched; on success calibration holds the trimmed form and equipment is untouched |
| FormManager.SavedCalibrationComplete | formManager.js:96-106 | calibration saved by the form passes the calibration half of the completeness check |
| FormManager.TestDateNeverMissing | formManager.js:157-168 | with a non-blank date for today, `testDate` is never reported missing |
| FormManager.ProofLoad | formManager.js:188 | the proof load is positive for a positive capacity and percentage, and equals the capacity at 100% |
| FormManager.PrepareEquipment | formManager.js:157-170 | after the date default, accepted exactly when every required field is present; the result is the trimmed form and holds both numeric fields |
| FormManager.CollectAndSaveEquipmentTest | formManager.js:127-222 | succeeds exactly when the calibration form is complete, every required field is present and both numbers are positive; failure leaves the metadata unchanged; calibration is always kept; on success equipment is the prepared form plus `proofLoad` and `certificateValidity`, with the proof load `capacity × pct / 100` |
| ReportManager.DownloadGuard | reportManager.js:16-39 | the guards fire in order: incomplete metadata, then not polling with no equipment, then an empty table; otherwise the PDF is generated; the four outcomes are exclusive and each has its exact condition |
| ReportManager.EquipmentGuardRedundant | reportManager.js:16-32 | once the completeness guard passes, the missing-equipment guard cannot fire |
| ReportManager.DownloadReport | reportManager.js:9-39 | the guard taken is the one DownloadGuard names; every early return enables download again, generation keeps it disabled, and nothing else in the session changes |
| ReportManager.SpacedKeyWithoutSpaces | reportManager.js:229 | for a key without whitespace, the spaces inserted before capitals are the only whitespace in the result |
| ReportManager.CleanKeyWithoutSpaces | reportManager.js:228-231 | deleting the spaces from a whitespace-free key's label gives the key with its first character in upper case |
| ReportManager.FilterEquipment | reportManager.js:151-159 | exactly the entries whose key is not `proofLoad`, `testedBy`, `certifiedBy` or `certificateValidity` are kept |
| ReportManager.FilterEquipmentAppend | reportManager.js:151-159 | the filter works entry by entry and keeps the order of the kept entries |
| ReportManager.FilterEquipmentKeeps | reportManager.js:151-159 | entries without the left-out keys pass through unchanged |
| ReportManager.Half | reportManager.js:206 | `Math.ceil(n / 2)`: twice it is n or n + 1 |
| ReportManager.Columns | reportManager.js:206-208 | left then right is the entry list; the left column has `ceil(n/2)` entries and at most one more than the right |
| ReportManager.RowHeightBounds | reportManager.js:219-249 | a metadata row is at least 22 high, at least as tall as each of its entries, and equal to one of those |
| ReportManager.SectionRowsStack | reportManager.js:221-285 | the rows of a section are stacked top to bottom, each at least 22 high, the first 5 below the heading |
| ReportManager.RenderSection | reportManager.js:196-288 | exactly `ceil(n/2)` rows are drawn; row i holds left entry i and right entry i (if any) and is shaded iff i is even; each row starts where the previous one ended; the cursor ends 15 below the last row |
| ReportManager.SectionShowsEveryEntry | reportManager.js:206-223 | every entry is drawn in exactly one cell: the first half on the left, the rest on the right |
| ReportManager.PaginateTable | reportManager.js:396-448 | one row per table entry; a new page with a redrawn header starts exactly when the next row would cross `page.height − margin − footerHeight − 10`; even rows are shaded; on a page tall enough for a header and a row, no row crosses the limit |
| ReportManager.ProofLoadText | reportManager.js:339-343 | the proof-load line shows `N/A` when `proofLoad` is falsy, otherwise the value followed by ` t` |
| ReportManager.SavedProofLoadShown | reportManager.js:339-343 | equipment saved by the form shows its formatted proof load in tonnes |
| ReportManager.AppendRecord | reportManager.js:457-475 | the records grow by exactly one at the end, starting from [] when the file is missing or does not parse; nothing is produced exactly when the file holds JSON that is not an array, where `push` throws |
| ReportManager.FinishSave | reportManager.js:454-505 | tests.json gets the new record (with the peak at save time) appended; equipment becomes {} with calibration kept; samples become [] and the peak 0; the chart is cleared; start and download are enabled and stop disabled. The record holds the store's metadata and samples as they are at `finish`. When tests.json holds JSON that is not an array, nothing is written and nothing is reset |
| ReportManager.StreamFailed | reportManager.js:507-511 | a stream error enables download again and changes nothing else |
| Reports.Split | reports.js:11 | `split(' ')` always yields at least one piece |
| Reports.SplitCount | reports.js:11 | `split(' ')` yields one more piece than there are spaces |
| Js.UpperFirst | reports.js:12 | upper-casing the first character keeps the length and every later character (also the key-label step of reportManager.js) |
| Reports.TitleCaseChars | reports.js:8-14 | `toTitleCase` is the character-by-character rule on the lowercased input: a character is upper-cased when it starts a piece |
| Reports.TitleCaseLength | reports.js:8-14 | the output is exactly as long as the input |
| Reports.TitleCaseAt | reports.js:8-14 | each output character is a space where the input has one, the upper case of the lowered character at the start of a piece, and the lowered character elsewhere |
| Reports.TitleCaseIdempotent | reports.js:8-14 | title-casing a title-cased string changes nothing |
| Reports.TitleCasePieces | reports.js:8-14 | the number of `' '`-separated pieces is kept |
| Reports.OrElse | reports.js:70-73 | `value \|\| fallback` gives the value when it is a non-empty string, the fallback otherwise |
| Reports.Insert | reports.js:43-47 | inserting one test adds exactly it to the multiset of tests |
| Reports.SortByDate | reports.js:43-47 | the sorted list is a permutation of the stored list |
| Reports.InsertKeepsOrder | reports.js:43-47 | inserting into a newest-first list keeps it newest-first |
| Reports.SortedNewestFirst | reports.js:43-47 | after sorting, dates never increase along the list (a missing date is time 0) |
| Reports.ResolvedPath | reports.js:88-93 | the saved path if it exists, otherwise the backup path if it exists, otherwise none; a chosen path always exists |
| Reports.Visible | reports.js:69-138 | no more rows than tests |
| Reports.VisibleEmptyIff | reports.js:140-147 | the row list is empty exactly when no test passes the filter, which is when the "no reports match" row is shown |
| Reports.VisibleRowsFromKept | reports.js:82-86 | every row shown is the row of some test that passes the filter |
| Reports.EmptyTermListsAll | reports.js:51-86 | with an empty search term every test gets a row, in order: row i is the row of test i |
| Reports.KeptIsShown | reports.js:79-86 | every test the filter lets through has its row among the rows shown (the converse of `Reports.VisibleRowsFromKept`) |
| Reports.AllKeptAllShown | reports.js:79-86 | a filter that lets every test through shows exactly the rows of all tests, in order |
| Reports.BlankSearchIsEmpty | reports.js:51-52 | a search box holding only whitespace is an empty term |
| Reports.BuildRows | reports.js:69-138 | the loop produces the rows of exactly the tests the search lets through, in order; `matchFound` holds exactly when some test matched, which is when there is a row |
| Reports.LoadReports | reports.js:29-148 | a missing, non-array or empty tests.json shows "No reports found"; otherwise a table of the filtered rows of the newest-first sort, with `matchFound` as above |
| Reports.RemoveId | reports.js:265 | the filtered list has exactly the tests whose id differs |
| Reports.RemoveIdAppend | reports.js:265 | the filter keeps the other tests in their order |
| Reports.RemoveAbsentId | reports.js:250-267 | with no test of that id the list is unchanged |
| Reports.RemoveDrops | reports.js:265 | removing an id that occurs makes the list shorter |
| Reports.DeleteReport | reports.js:224-267 | tests.json is rewritten exactly when the deletion is confirmed, the file exists and a test has the id; the rewritten list is shorter and has exactly the other tests |
| ChartManager.Labels | chartManager.js:48-49 | one label per sample (the sample's time), or `['']` when there is none |
| ChartManager.DataTons | chartManager.js:50-51 | one point per sample (its tonnes), or `[0]` when there is none |
| ChartManager.Config | chartManager.js:47-93 | the peak line is present exactly when the peak is positive and sits at the peak; labels and points have the same length, at least 1 |
| ChartManager.SeriesAligned | chartManager.js:48-51 | point i is drawn at sample i's time with sample i's load |
| ChartManager.Chart.constructor | chartManager.js:7-8 | no retries, no destroy in progress, and no chart |
| ChartManager.Chart.RenderChart | chartManager.js:18-118 | the retry counter stays within 0..10; without a ready canvas, or while a destroy is in progress, it counts up and schedules a retry, and at 10 it resets without one; with a ready canvas the counter resets, the old chart is destroyed (if that succeeds) and the new one recorded, so at most one chart stays alive |
| ChartManager.Chart.RetryFired | chartManager.js:26 | a retry runs the same render decision again: it counts up, gives up at 10, or renders |
| ChartManager.Chart.ClearChart | chartManager.js:125-159 | `destroyInProgress` is set; a successful destroy leaves no recorded chart; the canvas is reset to 800 × 300 when present; its reset is always scheduled |
| ChartManager.Chart.ResetFired | chartManager.js:155-157 | the 250 ms timer clears `destroyInProgress` and nothing else |
| UiDialogs.ReplaceChar | uiDialogs.js:131 | a text without the character is not changed |
| UiDialogs.EscapeIsTokens | uiDialogs.js:131 | escaping replaces each character by its entity or itself |
| UiDialogs.EscapeRemovesBrackets | uiDialogs.js:130-132 | the escaped message contains no `<` and no `>` |
| UiDialogs.PlainTextUnchanged | uiDialogs.js:131 | a text with no `&`, `<` or `>` is returned unchanged |
| UiDialogs.EscapeLength | uiDialogs.js:131 | the escaped length is `\|s\| + 4·#& + 3·#< + 3·#>` |
| UiDialogs.UnescapeEscape | uiDialogs.js:131 | because `&` is escaped first, unescaping `&lt;`, `&gt;` and then `&amp;` recovers the text |
| UiDialogs.AlertButtons | uiDialogs.js:2-20 | `cAlert` has exactly one button, OK, resolving true |
| UiDialogs.ConfirmButtons | uiDialogs.js:22-44 | `cConfirm` has Cancel (false, ghost) first and OK (true) last |
| UiDialogs.Modal.constructor | uiDialogs.js:48-117 | the body is the escaped message, the header the raw title; the dialog is shown and listening, and not resolved |
| UiDialogs.Modal.Resolve | uiDialogs.js:68-71 | the listener and the overlay are removed and the promise resolves with the value |
| UiDialogs.Modal.Click | uiDialogs.js:79 | a click resolves with that button's value |
| UiDialogs.Modal.KeyDown | uiDialogs.js:93-102 | Escape resolves false; Enter resolves with the last button's value; any other key, or any key after closing, changes nothing |
| UiDialogs.ConfirmKeys | uiDialogs.js:22-102 | on a confirmation, Enter answers yes, Escape answers no, and other keys leave it open |
| LicenseManager.SignData | utils.js:54-61 | a signature is produced exactly when `LICENSE_SECRET` is set and non-empty |
| LicenseManager.VerifySignature | licenseManager.js:17-31 | true exactly when signing succeeds and gives the stored signature; false when signing throws |
| LicenseManager.CheckLicense | licenseManager.js:38-70 | valid exactly when the file is present, has all four fields and a reproducible signature; the file is kept exactly when valid (a missing file stays missing, every other failure removes it); the message is "No license found", the read error, "Invalid license file" or "Invalid license signature" by case |
| LicenseManager.FailedCheckForgets | licenseManager.js:39-69 | after a failed check, the next check reports that there is no license |
| LicenseManager.PassedCheckStable | licenseManager.js:50-58 | a passing check keeps the file, so checking again gives the same answer |
| LicenseManager.NoSecretNoLicense | licenseManager.js:23-30 | without a secret no license checks valid, and the file is removed |
| LicenseManager.Classify | licenseManager.js:116-146 | an activation error fails with the network message for a refused or unknown host or a network or timeout message; otherwise with the server's message if there is one; otherwise with the error's message |
| LicenseManager.ActivateLicense | licenseManager.js:79-147 | an approved answer that is written succeeds and writes exactly `{licenseKey, organization, deviceFingerprint, signature}`; another status fails, passes status and message through, and writes nothing; a failed request or write is classified; success holds exactly for an approved answer that was written, and a failure leaves the file as it was |
| LicenseManager.ActivatedLicenseChecks | licenseManager.js:90-107 | an approved activation whose signature is what `signData` computes for the same inputs passes the next launch's check |

## Left out

- Real time, timers and concurrency: `setTimeout` and `setInterval` are explicit steps. Interleavings are modelled only as far as the pending-timer and in-flight counters show them.
- The DOM is not modelled: the displayed texts, the log table, status badges, `alert`, focus handling and the HTML strings of the report list. A report row is a record of its cells.
- Number formatting and dates are left out: `toFixed`, `toLocaleTimeString`, `toLocaleDateString`, `new Date(...)` and the certificate-validity date arithmetic (formManager.js:193-205). Dates are parameters: a formatting function, a timestamp function, today's date string and the computed validity string.
- Floating-point arithmetic: loads are real numbers. `Math.random()` is the `increment` parameter of `Slave.Simulator.Tick`.
- JavaScript `Number(...)` is a parameter returning an optional real, with none for NaN.
- `trim` removes the ASCII whitespace and the no-break spaces U+00A0 and U+FEFF. The other Unicode space separators and the line terminators U+2028 and U+2029 are not modelled. Case mapping covers the ASCII letters only.
- The Modbus and TCP transport, client connect and close callbacks, and the jsmodbus server are not modelled. The transport is a read result, a connect outcome and an open flag.
- Files are values or outcomes: license.json, tests.json, masterCalibration.json and the PDF stream. `fs` errors other than the cases listed in each contract are not modelled, and neither is the unlinking of PDF files in `deleteReport` (reports.js:252-263).
- Reports.LoadReports: a tests.json that cannot be read or parsed shows an error message in the source. The model's `stored` input is None only for a missing or non-array file. The error branch (reports.js:149-154) is not modelled.
- Reports.SortByDate: `Array.prototype.sort` sorts in place. It is modelled as a stable insertion sort on a sequence. The timestamp function is total, so NaN dates are not modelled.
- Reports.Visible: its own contract only bounds the length. The lemmas beside it characterise the rows: `Reports.VisibleRowsFromKept` (shown implies kept), `Reports.KeptIsShown` (kept implies shown), `Reports.EmptyTermListsAll` (the empty term lists every test, in order) and `Reports.VisibleEmptyIff`. For a non-empty term, the order of the rows is stated only by the definition and by `Reports.BuildRows`.
- `openReport` and `downloadBackup` (reports.js:157-222) are not modelled: they only open or copy a file.
- The PDF drawing is not modelled: pdfkit text and images, the footer, the logo and company name, the chart image and the signature lines. `heightOfString` is a pair of measuring functions.
- The unused `metadataEntries` filter (reportManager.js:144-146) is left out.
- The outer `catch` of `downloadReport` (reportManager.js:512-516) is left out.
- ReportManager.FinishSave: the source does not stop polling here. The model keeps `isPolling` and the client as they are, as the source does.
- ReportManager.FinishSave: in the source the record holds the very objects `downloadReport` read at its start (reportManager.js:13-14). Polling pushes into that sample array while the PDF is written (modbusManager.js:29-31), and the equipment save updates that metadata object in place (formManager.js:207-210). The model has no object identity, so it takes the store's values at `finish`. These differ only when `clearChartData` replaces the store's sample array between the start of the download and `finish`. The record then keeps the older array in the source, and the model does not capture this.
- StateStore.StateManager.Get: `this.state[key]` also finds the names `Object.prototype` provides (`toString`, `constructor`, `__proto__`, ...), for which the source returns an inherited function or object. The model returns undefined for them.
- StateStore.StateManager.Set: `key in this.state` also accepts those inherited names. The source then adds an own key (or, for `__proto__`, replaces the store's prototype) and emits `change`. The model refuses them like any other unknown key.
- ModbusManager.PollingSession.ResetPeakValue: on its own, while samples remain, it breaks the relation between the peak and the samples (`PeakTracked`). Only together with `clearChartData`, or by `finish` of a download, is the relation restored.
- Chart.js itself is not modelled. A chart instance is a number, and the model records the configuration it was built from.
- ModbusManager.PollingSession.ReadCompleted: `renderChart` is not called from the session. The chart is a separate object, `ChartManager.Chart`.
- ChartManager.Chart.RenderChart: "at most one chart alive" is proved only when the destroy succeeds. When `destroy()` throws, the source creates a new chart anyway. The old one then stays alive, and the model shows this.
- `logError` and console output are not modelled.
- A missing `peakValue` in the store (`|| 0`) is always a number in the session model.
- `signData` is reduced to the optional secret and an HMAC function parameter. HMAC-SHA256 itself is not modelled.
- The HTTP POST of `activateLicense` is the `post` outcome, and `machineIdSync` is the `fingerprint` parameter. A throwing `machineIdSync` is not modelled.
- `loadMasterCalibration` and `populateTestMetadataFields` (formManager.js:11-35, 280-291) are not modelled: they read a file into the form or fill DOM inputs.
- renderer.js, main.js, settingsManager.js and loadEnv.js are not part of this model. They wire the DOM and Electron windows and read settings and environment files.
- The `StateStore.StateManager` class is general. The polling session keeps its own typed copies of the store keys it uses rather than going through the `Value` map.
