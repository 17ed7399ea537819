# HLS stream recorder: the recording supervisor, modelled in Dafny

The recorder captures live network audio streams to disk. There is one file
per stream, weekday and wall-clock hour, and files older than seven days are
deleted. This project models the decision logic of that recorder and proves
its rules:

- **Naming** (`naming.dfy`, helpers in `strings.dfy`). The output file name
  is built from the stream name, the weekday, the two-digit hour and an
  extension. The extension is `.mp3` or `.aac`, chosen from the URL. The
  ffmpeg argument list is chosen from the URL suffix. The weekday and the
  hour are input strings.
- **Retention** (`retention.dfy`). The expiry rule is "whole-day age
  (truncated toward zero) is at least 7". The recordings directory is a
  `Directory` object whose `entries` field maps file names to modification
  times in milliseconds. The rule is applied in two places:
  - the pre-session check on the one output file, which deletes it or keeps
    it for appending;
  - the directory sweep, which deletes every expired entry and skips entries
    whose `stat` or `unlink` fails.

  Filesystem failures are inputs of the methods.
- **Settlement** (`settlement.dfy`). The Promise of one recording session is
  a one-shot state machine. Four events drive it: a stderr chunk, a spawn
  error, `close(code)`, and a one-second tick that carries the current hour.
  - A pure `Step`/`Run` gives the meaning of the events.
  - The `Session` class has one method per event handler, and each method
    is proved against `Step`.
  - Lemmas over arbitrary event sequences prove first-settle-wins, the state
    invariant, the first-verdict characterisation and when the interval is
    cleared.
- **Recorder** (`recorder.dfy`). This joins naming, the pre-session check,
  opening the file for append, and creating the session.
- **Supervisor** (`supervisor.dfy`). This is the retry loop, stated as a
  bounded trace: given how each run ended, it returns what the loop does.
  It also holds the startup guard on the configured stream list.

Behaviour of the code worth knowing:

- **Extension.** The code picks `.mp3` when `.mp3` occurs anywhere in the
  URL, as a suffix or elsewhere (index.js:72).
- **Wait after every run.** The loop waits 5000 ms after each run, whether
  it resolved or rejected (index.js:44-53).
- **Polling interval.** Only the hour-change tick clears the interval
  (index.js:139). A run that ends by `close` or by a rejection leaves the
  interval registered. The next foreign-hour tick then still sweeps, calls
  `kill()` and clears it, and its `resolve()` has no effect
  (`Settlement.TimerClearedOnlyOnRotation`).
- **Shared file names.** Streams do not always get separate files. A space
  and a dash in the same place give the same file name
  (`Naming.SpaceAndDashCollide`).
- **Close without a code.** A `close` with no exit code (the process was
  killed by a signal) also rejects, because `null !== 0`.
- **Arguments for non-HLS URLs.** ffmpeg gets no arguments at all for a URL
  that does not end with `.m3u8`, including an `.mp3` URL
  (`Naming.Mp3SuffixGivesMp3`).
- **Weekly files keep growing.** ffmpeg's output refreshes the file's mtime
  until the rotation kills it, about an hour after the session started. A
  week later the session for the same weekday and hour starts a few seconds
  after that hour begins, so the file is just under seven days old: its
  whole-day age is 6, it is kept, and the new recording is appended to it.
  No sweep in between sees it at seven days either. A recorder that runs
  without a break therefore never replaces a slot file
  (`Retention.WeeklySlotResumed`).

## Model

| member | source | states |
|---|---|---|
| `Strings.Contains` | index.js:72 | `includes`: a true result needs the substring to be no longer than the string (so a shorter string never contains it) |
| `Strings.EndsWith` | index.js:93 | `endsWith`: true iff the suffix fits and the last characters match it position by position |
| `Strings.ContainsIff` | index.js:72 | the left-to-right scan behind `includes` holds exactly when the substring occurs at some index (both directions) |
| `Strings.EndsWithContains` | index.js:93 | a URL that ends with a string also contains it |
| `Strings.ReplaceSpaces` | index.js:73 | same length; each space becomes a dash and every other character is kept |
| `Strings.Lower` | index.js:70 | same length; each ASCII capital becomes its lower-case letter and every other character is kept; no capitals remain |
| `Naming.Extension` | index.js:72 | the extension is `.mp3` or `.aac`, a dot and three letters |
| `Naming.FileName` | index.js:64-73 | the file name is seven characters longer than the name, weekday and hour together, and ends with the extension |
| `Naming.FfmpegArgs` | index.js:92-100 | the arguments are either empty or the HLS list; a non-empty list means the URL ends with `.m3u8`, has seven entries, names the URL as input and `-` (standard output) last |
| `Naming.ExtensionRule` | index.js:72 | the extension is `.mp3` iff `.mp3` occurs anywhere in the URL, and `.aac` iff it does not |
| `Naming.Mp3SuffixGivesMp3` | index.js:72-100 | a URL ending in `.mp3` records into an `.mp3` file, and ffmpeg gets an empty argument list for it |
| `Naming.FfmpegArgsRule` | index.js:92-100 | the arguments are non-empty iff the URL ends with `.m3u8`; they are then exactly `-i url -c:a aac -f adts -`, and otherwise `[]` |
| `Naming.FileNameLayout` | index.js:64-73 | the file name is the untrimmed stream name with spaces as dashes (same length), `-`, the lower-cased weekday, `-`, the hour, `h`, then the extension |
| `Naming.FileNameHourInjective` | index.js:73 | for one stream and weekday, two hours give the same file name only if they are equal, so rotation moves to a new file |
| `Naming.SpaceAndDashCollide` | index.js:73 | two stream names that differ only by a space versus a dash in one place (`Radio One`, `Radio-One`) give the same file name |
| `Retention.WholeDays` | index.js:79 | whole days in a signed duration, truncated toward zero: for a non-negative duration the largest count of full days not above it; for a negative one the smallest count of full days not below it, and never positive |
| `Retention.AgeDays` | index.js:79 | the whole-day age of a file is the number of full days since its mtime, and at most 0 for an mtime in the future |
| `Retention.Expired` | index.js:79-81 | a file is expired iff now − mtime ≥ 7 × 86 400 000 ms; so a file with a future mtime is never expired |
| `Retention.PreSession` | index.js:76-89 | the check either leaves the directory as it is or deletes just the output file, and only an expired one; `NoFile` iff the file is missing; `Continue` only for an existing file that has not expired |
| `Retention.OpenedForAppend` | index.js:103 | opening for append adds the output name, keeps every existing entry with its mtime, and stamps a created file with now |
| `Retention.Written` | index.js:105 | piping output into the file sets its mtime to now; no entry is added or removed, and no other mtime changes |
| `Retention.Swept` | index.js:146-171 | the sweep only removes entries and keeps the mtimes of the rest; a removed entry had a readable directory, a successful stat and unlink, and was expired |
| `Retention.ExpiredMonotone` | index.js:159 | an expired file stays expired as time passes |
| `Retention.Directory.constructor` | index.js:11 | the directory starts with the given entries |
| `Retention.Directory.PreSessionCheck` | index.js:76-89 | the directory and the outcome after `existsSync`/`statSync`/`unlinkSync` equal `PreSession` of the old entries; a throwing call is a `Failed` outcome |
| `Retention.Directory.OpenForAppend` | index.js:103 | append mode creates a missing file stamped now and leaves an existing one as it is |
| `Retention.Directory.Sweep` | index.js:146-171 | afterwards the entries equal `Swept` of the old entries (an unreadable directory changes nothing); the result is the set of deleted names |
| `Retention.PreSessionRule` | index.js:77-89 | with stat and unlink succeeding, the output file is deleted iff it exists and is expired, and kept for append iff it exists and is not; no other entry changes |
| `Retention.PreSessionFailureKeepsDirectory` | index.js:78-83 | a failing stat or unlink leaves the directory unchanged |
| `Retention.ResumeOrReplace` | index.js:77-103 | after the check and the append-open, a young file keeps its mtime (it is resumed); a missing or expired one is a fresh file stamped now; nothing else changes |
| `Retention.EightDayOldFileReplaced` | index.js:79-83 | an output file 8 days old is deleted and recreated fresh |
| `Retention.SweepExact` | index.js:154-167 | with no failures, exactly the expired entries are gone, and every younger entry remains with its mtime |
| `Retention.SweepFailureIsLocal` | index.js:156-166 | a stat or unlink failure on one entry changes that entry's fate only, and keeps it |
| `Retention.SweepUnreadable` | index.js:148-152 | an unreadable directory is left unchanged |
| `Retention.SweepIdempotent` | index.js:147-171 | a second clean sweep at the same instant changes nothing |
| `Retention.SweepLaterKeepsLess` | index.js:159 | a later clean sweep keeps a subset of what an earlier one keeps |
| `Retention.Directory.Append` | index.js:105 | the entries after a write equal `Written` of the old ones |
| `Retention.WeeklySlotResumed` | index.js:76-105 | a slot file written during last week's session, after it started, is resumed (not deleted) by the session at the same time a week later, and no clean sweep removes it before seven days after that write |
| `Retention.SweepEstablishesRetention` | index.js:159-160 | after a clean sweep every remaining file is younger than seven days |
| `Settlement.Settle` | index.js:112-140 | `resolve`/`reject` leave the Promise settled, change nothing when it already was, and otherwise set the given outcome |
| `Settlement.Step` | index.js:107-142 | no handler changes the hour, unsettles the Promise or re-registers a cleared interval, and each event starts at most one sweep |
| `Settlement.Run` | index.js:102-143 | no sequence of events changes the session hour |
| `Settlement.RunAppend` | index.js:102-143 | handling two event sequences in turn is handling their concatenation |
| `Settlement.StepConsistent` | index.js:107-142 | every handler keeps the invariant: settled mirrors the Promise; the interval is cleared only with one sweep, a kill and a settled Promise |
| `Settlement.RunConsistent` | index.js:107-142 | every reachable state keeps the invariant, so a session starts at most one sweep |
| `Settlement.SettledStaysSettled` | index.js:112-140 | once settled, any later events keep the session settled with the same outcome |
| `Settlement.FirstSettleWins` | index.js:102-143 | if a prefix of the events settles the session, the full sequence has the prefix's outcome |
| `Settlement.SettledIgnoresCloseAndError` | index.js:116-129 | after settlement, a close with any code (also a non-zero one after a resolve) and a spawn error change nothing |
| `Settlement.SameHourTicksDoNothing` | index.js:132-135 | ticks carrying the session hour leave the state unchanged |
| `Settlement.RunMatchesFirstVerdict` | index.js:107-142 | from a pending state, the final outcome is the verdict of the first settling event: marker on stderr rejects with InvalidArguments, a spawn error rejects, close 0 resolves, another close code rejects, a foreign-hour tick resolves; the session is settled iff some event settles it |
| `Settlement.TimerClearedOnlyOnRotation` | index.js:132-142 | starting with the interval set, it is cleared after the events iff one of them is a tick with a different hour |
| `Settlement.TimerStaysCleared` | index.js:139 | a cleared interval stays cleared |
| `Settlement.SplitMarkerIsMissed` | index.js:107-109 | the marker split across two stderr chunks, at any point, settles nothing, though the two chunks join to the marker |
| `Settlement.RotationExample` | index.js:132-142 | a tick at 14, then one at 15, then the close after the kill: resolved, killed, interval cleared, one sweep |
| `Settlement.Session.constructor` | index.js:102-104 | a new session is pending, ffmpeg not killed, interval set, no sweep; it keeps its file name and arguments |
| `Settlement.Session.OnStderr` | index.js:107-114 | the new state is `Step` of the old one on the chunk: the marker kills ffmpeg even when already settled, then rejects |
| `Settlement.Session.OnError` | index.js:116-119 | the new state is `Step` on a spawn error: rejects unless already settled |
| `Settlement.Session.OnClose` | index.js:121-129 | the new state is `Step` on the close: code 0 resolves, other codes reject, unless already settled |
| `Settlement.Session.OnTick` | index.js:132-142 | the new state is `Step` on the tick; on a foreign hour with the interval set, the directory is swept, ffmpeg killed, the interval cleared and the Promise resolved |
| `Settlement.Session.Resolve` | index.js:127 | `resolve()` settles only a pending Promise |
| `Settlement.Session.Reject` | index.js:112 | `reject()` settles only a pending Promise |
| `Recorder.BeginSession` | index.js:57-105 | the name and arguments come from the stream, weekday and hour; a throwing pre-session check rejects with the filesystem error and leaves the directory unchanged; otherwise the file is opened for append and a fresh pending session starts |
| `Supervisor.Supervise` | index.js:44-53 | the first n iterations: the settled Promise of run k is awaited and recorded at position 2k, caught whether resolved or rejected, and followed by exactly one 5000 ms wait |
| `Supervisor.Awaited` | index.js:45-49 | the loop sees completion iff the Promise resolved, and a rejection's error as a caught failure |
| `Supervisor.Start` | index.js:21-24 | the process exits with status 1 iff the streams value is not an array or is empty; otherwise every stream gets a supervisor, in order |

## Left out

- The ffmpeg process itself is not modelled: spawning, write buffering and byte content (index.js:103-105). These are an external process and I/O. A session's events are inputs; the effect of its output on the file's mtime is `Retention.Directory.Append`, which a caller invokes at the time of a write, not interleaved with the session's events.
- moment-timezone is not modelled: formatting, locales and the DST zone correction in `diff(..., 'days')` (index.js:28-30, 70-71, 79, 159). The weekday, the hour and the times in milliseconds are inputs.
- `Strings.Lower`: it lower-cases ASCII letters only. That covers the English weekday names; this is not JavaScript's full Unicode `toLowerCase`.
- The real `setInterval`/`setTimeout` are not modelled. Ticks are events, and the 5000 ms wait is a trace entry.
- The sweep is asynchronous in the source: it is started by `fs.readdir` and its callbacks complete in any order. It is modelled as a sequential loop run inside the tick handler. Unordered completion, and interleaving with writers and other sessions, are concurrency.
- Supervisors are launched in parallel through `forEach(async ...)` (index.js:174-178), and their interleaving is concurrency. `Supervisor.Start` only fixes which streams get a supervisor.
- An interval left registered by an earlier run keeps ticking during the next run. That is only modelled within its own session.
- `Supervisor.Supervise`: it states the first n iterations of the unbounded `while (true)` loop, given how each run ended, not the infinite loop itself.
- `Supervisor.Awaited`: a run whose Promise never settles blocks the loop forever. Only settled runs appear in a trace.
- The Express server (index.js:1, 9, 181-183) has no bearing on recording.
- Loading `config.json` (index.js:6) is configuration I/O. The parsed `STREAMS` value is the input of `Supervisor.Start`.
- Creating the recordings directory (index.js:14-16) is not modelled. Neither is `logWithTimestamp` output, which is logging only.
- Stream entries of the wrong shape are not modelled: a missing `name` or `url` makes the run throw, and the supervisor catches it. Streams are taken as `{name, url}` strings.
- `Retention.Directory.OpenForAppend` always succeeds. In the source, `createWriteStream` (index.js:103) gets no `'error'` listener, so a failing open (a missing directory, no permission, a full disk) is an unhandled error event that ends the whole process, supervisors included. The model does not capture that termination.
- File names are flat keys of one directory map. A stream name containing `/` (say `AC/DC Radio`) makes the file name a path into a sub-directory, which the sweep's `readdir` never lists, and which usually does not exist, so the open fails as above. The model does not capture paths.
- Node's close code after `kill()` is not modelled. It arrives after settlement, and `Settlement.SettledIgnoresCloseAndError` covers every code.
- The sweep does not check for regular files. The source stats and unlinks every entry, so a failing unlink on a sub-directory is an `unlinkFails` input.
