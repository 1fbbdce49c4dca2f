# spacesScrapper decision logic, modelled in Dafny

spacesScrapper polls a list of followed X accounts for live audio Spaces. For each account it
opens the profile page and decides from the rendered divs whether a Space is live. If one is,
it joins it ("Listen live", then "Start listening") and captures the stream descriptor
(`hlsUrl`, `sessionId`, `shareUrl`) from the `live_video_stream` API response. The captured
Spaces can then be downloaded with ffmpeg into `<account>_<session>_<timestamp>.mp3` files.

The model keeps every decision and records the browser's effects, with the browser and the OS
replaced by inputs:

- `text.dfy`: `Option`; JavaScript `startsWith`, `includes` and string truthiness.
- `interception.dfy` (`captureStreamInfo`): the four-part response test and the extraction.
  The promise is a `CaptureState` that leaves `Pending` once. An `Interceptor` class holds
  the promise and the `setTimeout` handle, and `CaptureStreamInfo` feeds it an event trace.
- `live_spaces.dfy` (`checkLiveSpaces`): name stripping, the profile URL, classification,
  the first-match join loop, and the poll loop with its `finally`. A `Browser` class
  records navigations, clicks and `close()`. `Poll` is the specification of the run as a
  function. Each account's page is a `PageView` made of four parts:
  - the divs read for classification;
  - the divs read again for the join;
  - whether "Start listening" shows up within the wait;
  - the events the capture listener sees.
- `download_audio.dfy` (downloadAudio.js): validation, file-name rules, the ffmpeg command,
  the single download with its effects, and the batch loop with per-item failure isolation.
- `pipeline.dfy` (index.js): what the capture side guarantees the download side.

Behaviour of the code that the model keeps:

- The listener is armed only after the "Start listening" click (checkLiveSpaces.js:59-62).
  A response sent before then is never seen. `PageView.responses` holds only the events after
  arming.
- A "Start listening" timeout is not caught per account (checkLiveSpaces.js:58). It ends the
  whole run as `Aborted(k)`, after the browser is closed, and every later account is skipped.
- The listener is never removed (checkLiveSpaces.js:93). A stale listener can only call
  `resolve` on a promise that has already settled. `ResolvedIsFinal` and `LateEventsIgnored`
  show that this changes nothing.

## Model

| member | source | states |
|---|---|---|
| Text.ContainsIff | checkLiveSpaces.js:99 | `includes` as modelled holds iff the pattern occurs at some position of the string |
| Interception.Qualifies | checkLiveSpaces.js:98-105 | definition: the URL contains the stream endpoint, the method is GET, `source.location` is present and contains "periscope", and `sessionId` is truthy |
| Interception.CaptureResult | checkLiveSpaces.js:89-120 | definition: the promise after the trace's events in order followed by the timer; its properties are CaptureMatchesFirstDecisive and CaptureNullIff |
| Interception.Extract | checkLiveSpaces.js:105-112 | the descriptor's `hlsUrl` is the response's `source.location` and contains "periscope"; `sessionId` is the non-empty session id; `shareUrl` is copied as is, even when absent |
| Interception.Step | checkLiveSpaces.js:91-117 | a resolved promise never changes; a pending one resolves iff the event is the timer or a qualifying response; the timer gives null; a qualifying response gives its descriptor |
| Interception.ResolvedIsFinal | checkLiveSpaces.js:106-112 | once resolved, no trace of later events changes the value (the promise resolves once) |
| Interception.IgnoredEventsKeepPending | checkLiveSpaces.js:98-117 | non-qualifying responses and responses whose processing throws leave the capture pending |
| Interception.CaptureMatchesFirstDecisive | checkLiveSpaces.js:90-119 | the capture equals the first decisive event: the first qualifying response's descriptor if it comes before the timer, otherwise null |
| Interception.CaptureFirstQualifying | checkLiveSpaces.js:98-112 | a qualifying response with no earlier timer or qualifying response is what the capture returns, whatever follows it |
| Interception.CaptureNullIff | checkLiveSpaces.js:91-106 | the capture is null iff every qualifying response in the trace comes after the timer |
| Interception.LateEventsIgnored | checkLiveSpaces.js:93-112 | events after resolution change neither the state nor the result |
| Interception.Interceptor.constructor | checkLiveSpaces.js:90-93 | arming starts with the promise pending and the timer running |
| Interception.Interceptor.Deliver | checkLiveSpaces.js:93-118 | the listener or timer applies `Step` to the promise and keeps "timer running iff pending" |
| Interception.CaptureStreamInfo | checkLiveSpaces.js:89-120 | the imperative capture over a trace returns exactly `CaptureResult` of that trace |
| LiveSpaces.AccountName | checkLiveSpaces.js:29 | an account starting with `@` is `@` followed by the result; any other account is returned unchanged |
| LiveSpaces.AccountNameExamples | checkLiveSpaces.js:29 | `"@@bob"` gives `"@bob"`, `"@bob"` gives `"bob"`, `"bob"` and `""` are unchanged |
| LiveSpaces.ProfileUrl | checkLiveSpaces.js:32 | definition: `https://x.com/` followed by the stripped account name; its layout is ProfileUrlLayout |
| LiveSpaces.ProfileUrlLayout | checkLiveSpaces.js:32 | the URL starts with `https://x.com/` and the rest is the stripped name |
| LiveSpaces.ProfileUrlInjective | checkLiveSpaces.js:29-32 | two accounts share a profile URL iff their stripped names are equal |
| LiveSpaces.HasLiveMarker | checkLiveSpaces.js:41-43 | definition: some div's trimmed text is exactly "Listen live"; FirstMarker finds one exactly when this holds |
| LiveSpaces.SubstringIsNotLive | checkLiveSpaces.js:41-43 | divs that only contain "Listen live" (or differ in case) do not classify as live; an exact div does |
| LiveSpaces.FirstMarker | checkLiveSpaces.js:51-54 | a match exists iff some div is exactly the marker; the match found is such a div and every earlier div differs from it |
| LiveSpaces.CompletedSpaceIsItsAccountsCapture | checkLiveSpaces.js:62-67 | each Space a completed run returns is the non-null capture of some listed account's page, tagged with that account as listed (with its `@`) and carrying the capture's `hlsUrl`, `sessionId` and `shareUrl` unchanged |
| LiveSpaces.VisitAccount | checkLiveSpaces.js:45-75 | not live iff no rendered div is the marker; no join iff the marker is gone at join time; the clicked div is the first marker; a join times out iff "Start listening" never shows; a record exists iff the capture is non-null |
| LiveSpaces.Advance | checkLiveSpaces.js:29-75 | definition of one loop iteration: a failed run stays as it is; otherwise the profile URL and the visit's clicks are appended, a join timeout fails the run at that account, and a capture is appended to the result |
| LiveSpaces.Poll | checkLiveSpaces.js:28-81 | definition of the whole run as `Advance` over the accounts in order; its properties are the lemmas below, and CheckLiveSpaces is proved equal to it |
| LiveSpaces.CompletedMeansNoJoinTimeout | checkLiveSpaces.js:58-78 | a run that returns met no "Start listening" timeout |
| LiveSpaces.AbortedAtFirstJoinTimeout | checkLiveSpaces.js:58-81 | a failed run failed at an account whose join timed out, and no earlier join did |
| LiveSpaces.PollAbortsAtFirstJoinTimeout | checkLiveSpaces.js:28-81 | the run fails at account k iff k is the first account whose join times out |
| LiveSpaces.PollCollectsRecords | checkLiveSpaces.js:17-78 | without a join timeout the run returns exactly the captured records, one per captured account, in list order |
| LiveSpaces.RecordsComeFromCaptures | checkLiveSpaces.js:63-67 | each record of the result is the record of some captured visit |
| LiveSpaces.RecordsAreTagged | checkLiveSpaces.js:63-67 | every record carries an account of the list, an `hlsUrl` containing "periscope" and a non-empty `sessionId` |
| LiveSpaces.UncapturedContributeNothing | checkLiveSpaces.js:45-74 | accounts that are not live, lose the marker, or time out in capture add no record |
| LiveSpaces.PollVisitsInOrder | checkLiveSpaces.js:28-35 | the page visits each account's profile URL in list order, up to and including the failing account |
| LiveSpaces.VisitClicksShape | checkLiveSpaces.js:51-59 | an account's clicks are all on that account; only the first of them is on "Listen live", and it lands on the div the visit joined; a "Start listening" click only follows a wait that succeeded |
| LiveSpaces.PollClicksFollowVisits | checkLiveSpaces.js:28-71 | every click of a run is on a reached account; a "Listen live" click is on the div that account's visit joined; a "Start listening" click is on an account whose wait succeeded |
| LiveSpaces.PollOneJoinClickPerAccount | checkLiveSpaces.js:51-71 | "Listen live" clicks go to strictly increasing accounts |
| LiveSpaces.PollClicks | checkLiveSpaces.js:51-71 | every "Listen live" click lands on the first marker of a live page of a reached account; such clicks go to strictly increasing accounts, so at most one per account; a "Start listening" click happens only on a live page whose marker was still there and whose button appeared, so a page that is not live or lost its marker gets no click |
| LiveSpaces.AbortedPrefixIsFinal | checkLiveSpaces.js:24-81 | once a prefix of the run has failed, the remaining accounts change nothing |
| LiveSpaces.Browser.Launch | checkLiveSpaces.js:18-25 | a launched browser is open and has neither navigated nor clicked |
| LiveSpaces.Browser.Goto | checkLiveSpaces.js:32-35 | navigation appends the URL to the history and changes nothing else |
| LiveSpaces.Browser.Click | checkLiveSpaces.js:54-59 | a click is appended to the click log and changes nothing else |
| LiveSpaces.Browser.ClickFirstMarker | checkLiveSpaces.js:49-71 | the div loop clicks the first marker div (`FirstMarker`) once and stops, or clicks nothing |
| LiveSpaces.Browser.Close | checkLiveSpaces.js:80 | the browser is closed and the histories are kept |
| LiveSpaces.PollAccount | checkLiveSpaces.js:29-72 | one account's loop body does the navigation, clicks, timeout and record that `VisitAccount` prescribes |
| LiveSpaces.CheckLiveSpaces | checkLiveSpaces.js:12-82 | the browser is closed on both exits; outcome, navigations and clicks are exactly those of `Poll` |
| LiveSpaces.AliceAndBob | checkLiveSpaces.js:28-74 | `["@alice","@bob"]` with only bob live, and an unparsable response before bob's stream response, returns one record tagged `"@bob"` |
| DownloadAudio.RemoveFirst | downloadAudio.js:26 | without the character the string is unchanged; with it, exactly one character goes |
| DownloadAudio.RemoveFirstAt | downloadAudio.js:26 | the removed character is the first occurrence, wherever it is |
| DownloadAudio.AccountComponent | downloadAudio.js:26 | never empty; a missing account gives "unknown"; an account without `@` is kept |
| DownloadAudio.AccountComponentAt | downloadAudio.js:26 | an account whose first `@` is at position i becomes the account without that one character, or "unknown" when nothing is left |
| DownloadAudio.AccountComponentExamples | downloadAudio.js:26 | `"a@b"` gives `"ab"`, `"@alice"` gives `"alice"`, `"@@x"` gives `"@x"`; `"@"`, `""` and a missing account give `"unknown"` |
| DownloadAudio.SessionComponent | downloadAudio.js:27 | a truthy `sessionId` is used as is, otherwise `"session"` |
| DownloadAudio.ReplaceSeparators | downloadAudio.js:25 | same length; each `:` and `.` becomes `-` and every other character stays; no `:` or `.` is left |
| DownloadAudio.OutputFilename | downloadAudio.js:29 | the name is laid out as account, `_`, session, `_`, sanitised timestamp, `.mp3` |
| DownloadAudio.JoinPath | downloadAudio.js:30 | definition: directory, `/`, file name |
| DownloadAudio.JoinPathInjective | downloadAudio.js:30 | in one directory, two paths are equal iff the file names are |
| DownloadAudio.FfmpegCommand | downloadAudio.js:36 | definition: `ffmpeg -i "<url>" -c:a libmp3lame -q:a 2 "<path>"` |
| DownloadAudio.FfmpegCommandInjective | downloadAudio.js:36 | for URLs without a double quote, two commands are equal iff their URLs and their output paths are |
| DownloadAudio.DownloadSpaceAudio | downloadAudio.js:15-44 | a falsy `hlsUrl` is rejected with "Invalid space info: missing HLS URL" and no effect. Otherwise the directory is ensured and ffmpeg is run on the quoted URL and output path. The result is that path iff ffmpeg succeeds, else ffmpeg's error is rethrown |
| DownloadAudio.ValidationComesFirst | downloadAudio.js:16-25 | a rejected space is rejected identically whatever the clock and ffmpeg do |
| DownloadAudio.EntryFor | downloadAudio.js:56-68 | the entry keeps the space's account; success with the path iff the download returned; otherwise the error message |
| DownloadAudio.DownloadMultipleSpaces | downloadAudio.js:52-73 | one entry per input, in input order, with `results[i].account == spaces[i].account`. Entry i succeeds iff download i returned, and carries its path or its error. A failure does not stop later items |
| Pipeline.CapturedSpacesAreDownloadable | index.js:11-20 | every Space that a completed poll returns clears the download's `hlsUrl` check, and its file name uses the captured session id |
| Pipeline.FilenameAccountVersusProfileName | downloadAudio.js:26 | for `"@" + name`, where name has no `@`, the file-name account equals the profile name |
| Pipeline.InnerMarkerStrippedOnlyInFilename | downloadAudio.js:26 | `"a@b"` keeps its `@` in the profile path but loses it in the file name |

## Left out

- Browser and DOM machinery are inputs, not modelled:
  - `launchPersistentContext`, `page.goto`, the 3-second settle delay, `$$eval`, `$$`, `click`
    and `waitForSelector`;
  - JavaScript `trim()`: div texts are given already trimmed;
  - nested divs whose `textContent` repeats a child's text: any such repeats are part of the
    given sequence.
- Failures of `browser.newPage()` (checkLiveSpaces.js:25), `page.goto`, `$$eval`, `$$`,
  `div.evaluate` (52), the "Listen live" `div.click()` (54) or the "Start listening" click would
  escape like the wait timeout that is modelled, and end the run. The model gives them no input
  of their own.
- Event and timer wiring: `page.on('response')`, `setTimeout`/`clearTimeout`, the 10-second and
  5-second bounds, and `response.json()` are the event trace. The trace order is the order in
  which the asynchronous handlers finish. A trace without `Timeout` means the timer fires
  after its last event.
- Response bodies are reduced to the fields that are read:
  - `source.location` and `sessionId` are taken to be strings when present;
  - a non-string location whose `includes` throws is an `Unparsable` event;
  - a numeric `sessionId` is not modelled.
  - `Interception.Qualifies` therefore reads truthiness as "present and non-empty".
- Reading `following.json`, `dotenv`, the CLI entry blocks and all console output: I/O.
- downloadAudio.js, external calls:
  - the ffmpeg subprocess is an oracle from the command line to its outcome;
  - `new Date().toISOString()` is a per-call timestamp parameter;
  - `existsSync`/`mkdirSync` are one `EnsureDirectory` effect; a failing `mkdirSync` is not
    modelled.
- The default `outputDir = "./downloads"` of both download functions (downloadAudio.js:15, 52)
  is not modelled: the directory is always an argument, as index.js:20 passes it.
- DownloadAudio.JoinPath: is `dir + "/" + file` without `path.join`'s normalisation, so
  `"./downloads"` is not shortened to `"downloads"`.
- `downloadMultipleSpaces` with a `null` element is not modelled: its catch block would
  itself throw on `space.account`. Every batch element is a space object.
- index.js beyond the hand-over (logging, the success count at index.js:23): orchestration only.
- stopRecording.js calls a `stopAllRecordings` that downloadAudio.js does not define; it is not
  part of this model.
