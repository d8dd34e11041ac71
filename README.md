# ms-checker core, modelled in Dafny

ms-checker is a browser extension that measures how long a URL takes to deliver. At a fixed
interval, or on demand, it opens the URL in a background tab. It then decides whether the
navigation ended as a rendered page or as a download, under a hard timeout, and logs the
outcome. The log is newest-first and capped at 600 entries. It can be exported as CSV from the
popup.

This project models the following parts of the extension:

- `types.dfy` (module `Types`): outcomes, log entries, the persisted settings and the popup's
  messages.
- `log_store.dfy` (module `LogStore`): the capped, newest-first log that `appendLog` maintains.
- `race_detector.dfy` (module `RaceDetector`): the outcome race of `waitForResult`.
  - `Step` specifies one event: a tab update, a download created or changed, a grace timer or the
    timeout firing, or the download size lookup answering.
  - Class `Detector` holds the closure's variables. Each of its handlers is proved to perform
    exactly `Step`.
  - The lemmas cover single events and whole runs: an invariant kept by every event, "first
    settlement wins", and "once a download started, the outcome is never a page".
- `background.dfy` (module `Background`): the service worker as class `Worker`. It covers the
  re-arm timer (`scheduleNext`, `startTimer`, `stopTimer`, re-arming after a run), the
  single-flight probe runner, `appendLog`, `restoreIfRunning`, `onInstalled` and the message
  dispatch.
  - `TimersOk` is the invariant that at most one re-arm timer is ever pending.
  - `Valid` adds that the single-flight flag is set exactly while one probe is in flight, and
    that this probe's detector is unsettled and satisfies the detector invariant.
- `csv_export.dfy` (module `CsvExport`): `logsToCSV` as a loop proved against the function
  `Csv`, plus the export click.
  - The lemmas give the shape of the text: a header line, one line per entry, and six columns
    per line. The exception is an error containing a comma, which breaks the columns because
    fields are not quoted.
- `popup_guards.dfy` (module `PopupGuards`): the guards on the Start and Run Now buttons and on
  interval edits. The URL is read through `trim()`, with the ECMAScript whitespace set.

Execution is one event at a time. Every Chrome callback, timer fire or popup click is one
atomic step. The clock (`Date.now()`) is a parameter of the step that reads it. What a Chrome
API call returns is a parameter too: the tab `chrome.tabs.create` opened or its error, whether
`chrome.tabs.remove` failed, and the sizes `chrome.downloads.search` found.

Notable behaviours of the code that the model keeps:

- The runner's own failures (no URL, a failed tab open, the timeout) are logged with type `'-'`.
- Their messages are the literals `'No URL configured'` and `'Timeout (60s)'`. The second is
  used although the timeout is 320000 ms.
- The timeout rejects the detector's promise. `performFetchAndMeasure` turns the rejection into
  a failed entry with the elapsed duration and size 0.
- A download is matched by the id of the first download created after the probe started. The
  tab it came from is never checked.
- A timer fire does not cancel a stray timer itself. `scheduleNext` clears the timer held by
  `timerId` before arming a new one, and `TimersOk` shows that this is enough.
- `setTimeout` reduces its delay to a 32-bit signed integer. The popup sets no upper bound on the
  interval, so an interval of 2147484 s or more wraps, and with 2147484 s the timer fires at once.

## Model

| member | source | states |
|---|---|---|
| LogStore.Existing | background.js:170 | a missing log reads as empty (no contract of its own) |
| LogStore.Truncate | background.js:174-176 | the log is cut to min(length, 600), keeping its front |
| LogStore.Appended | background.js:166-179 | the new entry is first; the log holds min(old length + 1, 600) entries; after the new entry comes the old log in order, losing only its oldest entries; a missing log counts as empty |
| LogStore.TruncateAbsorbs | background.js:172-176 | cutting before prepending changes nothing once the result is cut again |
| LogStore.AppendAllIsReversedPrefix | background.js:166-179 | appending a batch entry by entry yields the batch newest-first ahead of the old log, cut to 600 (first in, first evicted) |
| LogStore.FullLogDropsOldest | background.js:172-176 | on a full log every append drops exactly the oldest entry |
| RaceDetector.Cancel | background.js:96 | `if (graceTimer) clearTimeout(graceTimer)`: removes the held handle from the pending grace timers, if any (no contract of its own) |
| RaceDetector.PageOutcome | background.js:111-117 | the resolved page outcome: success, no error, the page-load time, size 0, type 'page' (no contract of its own) |
| RaceDetector.DownloadOutcome | background.js:137-143 | the resolved download outcome: success, no error, the elapsed time, the first search result's size or 0, type 'download' (no contract of its own) |
| RaceDetector.InterruptedOutcome | background.js:148-154 | the interrupted download outcome: failure, the delta's error or 'Download interrupted', the elapsed time, size 0, type 'download' (no contract of its own) |
| RaceDetector.CleanedUp | background.js:94-100 | `cleanup()` removes all listeners and the timeout and cancels the newest grace timer; it keeps the settlement and the page-load times of the grace timers left |
| RaceDetector.SettledWith | background.js:111-117 | resolve/reject: an existing settlement is kept, otherwise the new one is recorded; nothing else changes |
| RaceDetector.Step | background.js:89-156 | one callback: it never changes the tab or start time, never overwrites a settlement, never reuses a grace-timer handle, and never changes a pending timer's page-load time |
| RaceDetector.Init | background.js:84-92 | a fresh detector is unsettled, has all listeners and the timeout armed, and has no grace timer and no download |
| RaceDetector.TabUpdatedArmsGrace | background.js:102-120 | a 'complete' update of the probe's tab before any download arms a new grace timer holding now - startTime and keeps the earlier ones; any other update changes nothing |
| RaceDetector.FirstDownloadWins | background.js:122-127 | the first created download sets downloadStarted and downloadId, cancels the newest grace timer and unsubscribes; a second creation changes nothing |
| RaceDetector.UnrelatedDeltaIgnored | background.js:129-130 | a delta for another download id, or one without a state, changes nothing |
| RaceDetector.PageOnlyFromGrace | background.js:108-119 | a page outcome arises only from a pending grace timer firing before any download, with the page-load time captured when it was armed |
| RaceDetector.GraceFireSettlesPage | background.js:108-119 | conversely, a pending grace timer firing before any download, while unsettled, resolves a page carrying the page-load time captured when it was armed and leaves nothing that can change the settlement |
| RaceDetector.DownloadCompletes | background.js:132-144 | completion of the tracked download, then the size lookup, resolves a successful download with the elapsed time and the first item's size (0 if none) and leaves nothing that can change the settlement |
| RaceDetector.DownloadInterrupted | background.js:145-155 | interruption of the tracked download resolves a failed download carrying the delta's error or 'Download interrupted', and tears everything down |
| RaceDetector.TimeoutRejects | background.js:89-92 | the timeout, while armed, rejects with 'Timeout (60s)' and removes all listeners |
| RaceDetector.QuietStepOnlyDropsGraces | background.js:94-100 | after settlement, any event can only remove pending grace timers |
| RaceDetector.InvInit | background.js:84-160 | the detector invariant holds at the start |
| RaceDetector.InvStep | background.js:89-156 | every event preserves the detector invariant |
| RaceDetector.InvRun | background.js:83-162 | the invariant holds after any sequence of events |
| RaceDetector.SettledIsFinal | background.js:89-155 | once settled, no later events change the settlement, and nothing is left that can change it |
| RaceDetector.DownloadNeverPage | background.js:104-127 | in any run, once a download was created the outcome is never a page |
| RaceDetector.RepeatedCompletionFirstTimerWins | background.js:102-120 | two 'complete' updates arm two grace timers; the first to fire settles with the first page-load time |
| RaceDetector.PageScenario | background.js:102-120 | a page completing 1200 ms after the start resolves a successful page outcome of 1200 ms |
| RaceDetector.DownloadScenario | background.js:122-144 | a created download completing resolves a download outcome with its size, ignoring the page grace timer and other ids |
| RaceDetector.InterruptedScenario | background.js:145-155 | an interrupted download resolves with the browser's error text |
| RaceDetector.Detector.constructor | background.js:84-92 | the closure's variables start as Init |
| RaceDetector.Detector.Cleanup | background.js:94-100 | the closure after `cleanup()` equals CleanedUp: the newest grace timer is cancelled and all listeners are removed |
| RaceDetector.Detector.Settle | background.js:111-117 | resolve/reject: the first settlement wins |
| RaceDetector.Detector.OnTabUpdated | background.js:102-120 | the handler performs Step for a tab update |
| RaceDetector.Detector.OnCreated | background.js:122-127 | the handler performs Step for a created download |
| RaceDetector.Detector.OnChanged | background.js:129-156 | the handler performs Step for a download delta |
| RaceDetector.Detector.OnGraceFired | background.js:108-119 | the grace callback performs Step |
| RaceDetector.Detector.OnTimeout | background.js:89-92 | the timeout callback performs Step |
| RaceDetector.Detector.OnSearchAnswered | background.js:135-144 | the size lookup callback performs Step |
| RaceDetector.Detector.Handle | background.js:158-160 | dispatching any event performs Step |
| Background.DelayMs | background.js:28 | the re-arm delay is intervalSeconds * 1000 reduced to a 32-bit signed integer, negatives counting as 0: exactly the product when it fits below 2^31, 0 for a missing interval or a negative product down to -2^31, 0 for a product between 2^31 and 2^32 |
| Background.HugeIntervalFiresAtOnce | background.js:28 | 2147484 s wraps to a zero delay, while 2147483 s gives 2147483000 ms |
| Background.NoUrl | background.js:54 | `!targetUrl`: a missing or empty URL (no contract of its own) |
| Background.NoUrlOutcome | background.js:55 | the failed '-' entry logged without a URL (no contract of its own) |
| Background.LoggedOutcome | background.js:67-77 | a resolved outcome is logged as is; a rejection becomes a failed '-' entry with the message, size 0 and the elapsed time |
| Background.AtMostOnePending | background.js:19-29 | when every pending timer is the one timerId holds, at most one is pending, and none when timerId is null |
| Background.Worker.constructor | background.js:4-5 | the worker starts valid, with no timer and no probe |
| Background.Worker.ScheduleNext | background.js:19-29 | the previous timer is cleared; afterwards exactly one timer is pending, the new one, with the interval's delay |
| Background.Worker.StartTimer | background.js:9-12 | isRunning and the interval are persisted, then exactly one timer is pending |
| Background.Worker.StopTimer | background.js:14-17 | no timer is left pending and isRunning is persisted as false |
| Background.Worker.ReArm | background.js:23-27 | after a run, the worker re-arms with the persisted interval only if isRunning is still true |
| Background.Worker.AppendLog | background.js:166-179 | the stored log becomes Appended(old log, stamped entry); nothing else changes |
| Background.Worker.CloseTab | background.js:69 | a removal closes the tab; a failed removal is swallowed and leaves it open |
| Background.Worker.PerformFetchAndMeasure | background.js:47-67 | a run while another is in flight is skipped; no URL logs 'No URL configured'; a failed tab open logs the error with the elapsed time; otherwise the tab is open and a fresh detector waits |
| Background.Worker.FinishProbe | background.js:67-80 | after settlement the tab is closed (after a rejection only if its id is truthy), the outcome is logged, the flag is released, and a timer run re-arms only if still running |
| Background.Worker.OnBrowserEvent | background.js:63-80 | an event advances the in-flight detector by Step and touches nothing else while it stays unsettled; if it settles, the tab is closed (after a rejection only for a truthy id), the outcome is logged with the other stored keys kept, the flag is released, and a timer-started probe re-arms only while isRunning is stored as true |
| Background.Worker.OnTimerFired | background.js:21-28 | a cleared timer never runs and changes nothing; a fired timer runs a probe (skipped while one is in flight, opening no tab and keeping the detector in flight; logged at once without a URL or when the tab fails to open, otherwise waiting on a fresh detector with the timer as caller); after a skipped or logged probe it re-arms with the stored interval if isRunning is stored as true, and no timer is pending while the probe waits |
| Background.Worker.RestoreIfRunning | background.js:214-220 | arms one timer and the keep-alive only when isRunning and intervalSeconds are truthy; repeated calls still leave one timer |
| Background.Worker.OnInstalled | background.js:204-212 | an empty log and isRunning false are written only where unset |
| Background.Worker.OnMessage | background.js:183-200 | start persists and arms one timer and sets the keep-alive; stop clears the timer and the keep-alive; neither touches a probe in flight; runNow runs a probe (skipped, keeping the detector in flight; logged at once; or waiting on a fresh detector with runNow as caller) without touching the timer; any other action changes nothing |
| CsvExport.NatToString | popup.js:125 | a number renders as decimal digits without leading zeros |
| CsvExport.ParseNatToString | popup.js:125 | the decimal rendering of a number reads back as that number |
| CsvExport.IntToString | popup.js:125 | a negative number renders as '-' and its magnitude; the text holds no comma or newline |
| Types.KindName | popup.js:125 | the `type` text of an outcome: 'page', 'download' or '-' (no contract of its own) |
| CsvExport.BoolText | popup.js:125 | `${e.success}`: 'true' or 'false' (no contract of its own) |
| CsvExport.ErrorText | popup.js:125 | `e.error` or, when it is missing, the empty text (no contract of its own) |
| CsvExport.Fields | popup.js:125 | the six fields of a line in header order: timestamp, duration, size, type, success, error (no contract of its own) |
| CsvExport.Line | popup.js:125 | one line without its newline: the six fields joined by commas, unquoted (no contract of its own) |
| CsvExport.Csv | popup.js:121-128 | the export starts with the header line and its newline, and is only that for an empty log |
| CsvExport.Lines | popup.js:123-126 | one CSV line per log entry, in log order |
| CsvExport.TemplateIsLine | popup.js:125 | the row template equals the six fields joined by commas |
| CsvExport.ColumnsOfLine | popup.js:125 | splitting a line at commas gives back its six fields when neither the timestamp text nor the error contains a comma |
| CsvExport.CommaInErrorAddsColumn | popup.js:125 | an error containing a comma yields a seven-column line, because fields are not quoted |
| CsvExport.HeaderText | popup.js:122 | the header is 'timestamp,durationMs,fileSize,type,success,error' and a newline |
| CsvExport.CsvLines | popup.js:121-128 | the text splits at newlines into the header, one line per entry, and a final empty piece |
| CsvExport.LogsToCsv | popup.js:121-128 | the loop builds exactly Csv(logs) |
| CsvExport.OnExportClick | popup.js:75-80 | no file for an empty or missing log; otherwise the file holds the CSV of the stored log |
| PopupGuards.Trim | popup.js:35 | trim() cuts only whitespace from either end, leaves no whitespace at either end, and is empty exactly when the input is blank |
| PopupGuards.TrimIdempotent | popup.js:35 | trimming twice is trimming once |
| PopupGuards.OnStartClick | popup.js:34-52 | Start does nothing for a blank URL or an interval missing, 0 or below 10; otherwise it persists the trimmed URL and the interval, then sends start |
| PopupGuards.OnIntervalChange | popup.js:26-31 | an interval edit persists only a value of at least 10, and only that key |
| PopupGuards.OnRunNowClick | popup.js:61-72 | Run Now does nothing for a blank URL; otherwise it persists the trimmed URL and sends runNow |
| PopupGuards.StartFromPopupArmsTenSeconds | popup.js:43-50 | any start the popup sends carries an interval of at least 10 s; up to 2147483 s the worker arms a delay of at least 10000 ms |
| PopupGuards.PopupAcceptsWrappingInterval | popup.js:43-50 | the popup lets an interval of 2147484 s through (it persists it and sends start), and the delay it leads to wraps to 0 |

## Left out

- Chrome APIs are not modelled. Their results are parameters: the tab opened or its error, a
  failed tab removal, and the download search results.
- The keep-alive alarm is a flag; its 30-second period and its empty handler are not modelled.
- The durations of the timeout (320000 ms) and of the grace window (5000 ms) are not modelled.
  Timers fire as events in any order, which covers every timing the real durations allow. Only
  the timeout's message, 'Timeout (60s)', is in the model.
- Storage reads and writes complete within the step that issues them; a failed storage write is
  not modelled. The only wait that spans other events is the wait on the race detector. Some
  interleavings the code allows are therefore missing:
  - A stop can land while the timer callback's storage read is pending (background.js:24-26),
    between `startTimer`'s write and its `scheduleNext` (background.js:10-11), or while
    `restoreIfRunning` awaits the keep-alive alarm (background.js:217-218). In each case one timer
    is still armed after the stop and one more probe runs. So `StopTimer`'s empty timer map does
    not mean that no probe follows a stop.
  - Run Now sends `runNow` without awaiting its storage write (popup.js:68-71), so the probe can
    read the previous URL.
- Browser events reach only the detector of the probe in flight. A detector's listeners
  outliving its probe are not modelled; this cannot happen, because every settlement path calls
  `cleanup()`.
- PopupGuards.OnStartClick: intervals are integers. The fractional values `parseFloat` accepts
  are not modelled, nor the difference from `parseInt` in the interval-change handler.
- `Date.prototype.toISOString` is a function parameter `iso` of the CSV export. The Blob and
  the download of the file are not modelled.
- Rendering of the log table, the status line, locale formatting, the Stop and Clear log buttons
  and the storage-change listener of the popup are UI glue and are not modelled.
- The `{ok: true}` acknowledgement of each message is not modelled.
