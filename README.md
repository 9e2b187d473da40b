# yt-dlp channel downloader: the download controller

This project models the download controller of an Electron application that downloads every video
of a YouTube channel by running the bundled `yt-dlp` binary. The controller lives in
`src/main/download.ts` and has four parts, each modelled here:

- **Binary locator** (module `Locator`). The host platform picks a binary name, or module
  loading fails with `Unsupported platform: <platform>`. The binary sits in a `bin` directory
  under the application path in development and under the resources path when packaged.
- **Argument builder** (module `Arguments`). It builds:
  - the channel URL `https://www.youtube.com/@<channel>/<tab>`, where the tab is empty for
    `all`;
  - the output directory `<savePath>/@<channel>`;
  - the fixed 14-element argument vector. The format selector in it has three `/`-separated
    tiers, with the requested height spliced into the first two.
- **Output-line parser** (modules `Chars`, `Text`, `Matchers`, `Parser`, and
  `Download.DownloadJob.HandleData`). Each chunk of the child's output is split on `\n` and
  empty pieces are dropped. Each remaining line is cleaned (first `\r` removed, then trimmed)
  and handled in three steps:
  - it is reported as a `log` event;
  - it is matched against `/Destination:\s(.+)/`; a match updates `currentFilename`;
  - it is matched against the progress pattern; a match reports a `progress` event with the
    percent, speed and ETA captures and the basename of `currentFilename`.

  Both regular expressions are written out as matchers. A way to match is a tuple of
  positions, and the backtracking engine's preference is an order on those tuples:
  - leftmost start first;
  - then the longest extent for each greedy quantifier;
  - then the shortest extent for each lazy `.*?`.

  Each matcher is proved to return the least match in that order, or none exactly when no
  match exists. The parser's pure specification is a fold (`Parser.ProcessLines`).
  `HandleData`'s loop is proved equal to that fold, and the fold is proved against separate
  reference descriptions (`LastDestination`, `Cleaned`, `ProgressLineCount`).
- **Process supervisor** (module `Download`). The three module globals `currentDownloadProcess`,
  `isPaused` and `wasCancelled` are the fields of a `Supervisor`, and the spawned process is a
  `ChildProcess` with Node's `killed` flag and a `pid`. One call of `downloadFromChannel` is a
  `DownloadJob`, whose `close` and `error` handlers report the terminal `done` event and settle
  the Promise once. Whether the OS delivers a signal, and what tree-kill answers, are inputs.

The model follows the code, including three behaviours a reader would not expect:
- starting a download does not clear `isPaused` or `wasCancelled`, although a new download would
  be expected to start neither paused nor cancelled;
- nothing prevents a second start from replacing the tracked process;
- the percent is not checked to lie in [0, 100]; the pattern admits any digits.

The first two are exhibited by the scenarios `CancelLeaksIntoNextJob` and `SecondStartOrphans`.

## Model

| member | source | states |
|---|---|---|
| Locator.BinaryName | src/main/download.ts:35-47 | Succeeds exactly for `win32`, `darwin` and `linux`, with a name starting `yt-dlp` and holding no `/`. Any other platform gives the error `Unsupported platform: ` followed by the platform. |
| Locator.BinaryNameInjective | src/main/download.ts:35-47 | Distinct platforms never share a binary name or an error message. |
| Locator.BinaryPath | src/main/download.ts:49-51 | In development the path is `<appPath>/resources/bin/<name>`; packaged, it is `<resourcesPath>/bin/<name>`. |
| Locator.LocatedBinary | src/main/download.ts:49-51 | In both development and packaged mode, the binary path ends in the platform's file name inside a directory named `bin`. |
| Locator.YtDlpPath | src/main/download.ts:35-51 | The module's binary path exists exactly on a supported platform; otherwise loading fails with `Unsupported platform: <platform>`. The path's basename is the platform's binary name. |
| Arguments.SuffixType | src/main/download.ts:61-64 | The tab is empty exactly for `all`; otherwise it is the type's name. It never holds a `/`. |
| Arguments.ChannelUrl | src/main/download.ts:65 | The URL starts with `https://www.youtube.com/@`. Its last segment is the content tab, which is empty for `all`, so that URL ends in `/`. |
| Arguments.OutputDir | src/main/download.ts:66 | The directory is `savePath` followed by `/`. For a channel name without `/`, its basename is `@<channel>`. |
| Arguments.ChannelUrlInjective | src/main/download.ts:61-65 | Two channel URLs are equal only when the channel names (free of `/`) and the content types are equal. |
| Arguments.TiersJoin | src/main/download.ts:77 | The selector is the three tiers joined by `/`. |
| Arguments.FormatSelectorTiers | src/main/download.ts:77 | The selector splits on `/` into exactly three tiers, best first: avc1 mp4 video of height R merged with m4a audio, then the best format of height R, then the best format. |
| Arguments.YtDlpArgs | src/main/download.ts:72-87 | The vector has 14 elements and the channel URL comes first. |
| Arguments.ArgsReadBack | src/main/download.ts:72-87 | Read as yt-dlp reads options, the vector sets `-o` to `<outputDir>/%(autonumber)d-%(title)s.%(ext)s`, `--format` to the selector, `--merge-output-format` to `mp4` and `--convert-thumbnails` to `jpg`. It also holds all five value-less switches. |
| Arguments.OptionValueAt | src/main/download.ts:72-87 | When an option first occurs at position i, its value is the element at i + 1. |
| Text.DecimalString | src/main/download.ts:77 | The rendering of a number is nonempty decimal digits with no leading zero, and it parses back to the number. |
| Text.DecimalStringInjective | src/main/download.ts:136 | Distinct numbers render as distinct strings. |
| Text.Split | src/main/download.ts:94 | Splitting gives at least one piece, no piece holds the separator, and joining the pieces with it gives back the input. |
| Text.SplitJoin | src/main/download.ts:94 | Splitting undoes joining separator-free pieces. |
| Text.NonEmpty | src/main/download.ts:94 | The filter keeps every nonempty piece and only those. |
| Text.NonEmptyAppend | src/main/download.ts:94 | The filter works piece by piece: filtering a concatenation concatenates the filtered parts, so order and duplicates are kept. |
| Text.NonEmptySingle | src/main/download.ts:94 | A single piece is kept exactly when it is nonempty. |
| Parser.FragmentsOfLines | src/main/download.ts:94 | The lines of a chunk made of `\n`-free pieces joined by `\n` are those pieces, in order, with the empty ones dropped. |
| Parser.BlankLineDropped | src/main/download.ts:94 | The chunk `a\n\nb` gives exactly the lines `a` and `b`. |
| Text.RemoveFirst | src/main/download.ts:97 | Removing a character leaves the string unchanged when the character is absent; otherwise the string gets one shorter. |
| Text.RemoveFirstAt | src/main/download.ts:97 | Only the first occurrence is removed, the one `indexOf` finds. |
| Text.TrimIsCut | src/main/download.ts:97 | Trimming cuts out a middle part. Only whitespace lies outside it, and it neither starts nor ends with whitespace. |
| Text.TrimUnique | src/main/download.ts:97 | Any cut with that shape is what `Trim` returns. |
| Text.TrimIdempotent | src/main/download.ts:97 | Trimming twice is trimming once. |
| Text.TrimBlank | src/main/download.ts:97 | Trimming only whitespace gives the empty string. |
| Text.Basename | src/main/download.ts:119 | The basename is the longest `/`-free suffix: either the whole path or the part after its last `/`. |
| Text.BasenameAfterSlash | src/main/download.ts:119 | The basename of `dir/name` is `name` when `name` has no `/`. |
| Matchers.MatchDestination | src/main/download.ts:100 | Finds a match of `Destination:\s(.+)` exactly when one exists. The match it returns is the engine's: no other match comes earlier in backtracking order. |
| Matchers.DestinationCapture | src/main/download.ts:100-102 | Group 1 exists exactly when the line matches. It is then nonempty and holds no line terminator. |
| Matchers.MatchProgress | src/main/download.ts:105-107 | Finds a match of `\[download\]\s+(\d+(?:\.\d+)?)%.*?at\s+([^\s]+).*?ETA\s+([^\s]+)` exactly when one exists. It returns the least match in backtracking order: leftmost start, greedy parts longest, lazy parts shortest. |
| Matchers.ProgressCapture | src/main/download.ts:105-112 | The captures exist exactly when the progress matcher finds a match. |
| Matchers.ProgressCaptureIff | src/main/download.ts:105-109 | A line yields progress captures exactly when the progress pattern matches it somewhere. |
| Matchers.Captures | src/main/download.ts:110-112 | The percent capture starts with a digit. The speed and ETA captures are nonempty and hold no whitespace. |
| Matchers.BuildProgressFirst | src/main/download.ts:106 | No match of the progress pattern is preferred to the one assembled from the searches' choices. |
| Parser.Fragments | src/main/download.ts:94 | Every line kept from a chunk is nonempty and holds no `\n`. |
| Parser.LinesRoundTrip | src/main/download.ts:94 | Splitting a block of nonempty lines gives those lines back, with or without a final newline. |
| Parser.CleanLine | src/main/download.ts:97 | The cleaned line is no longer than the raw one, and it neither starts nor ends with whitespace. |
| Parser.StepEvents | src/main/download.ts:97-121 | A line reports its cleaned text as a `log` first. A progress line adds exactly one more event: `progress`, with the percent capture and the basename of the new filename. A Destination line sets the filename to its capture; any other line keeps it. |
| Parser.HandleChunk | src/main/download.ts:93-123 | A chunk reports between one and two events per kept line, and none of them is `done`. |
| Parser.BlankFragment | src/main/download.ts:94-103 | A nonempty line of only whitespace (and no `\n`) survives the split and the filter; the empty line does not. It is reported as `log("")`, with no progress event and no filename change. |
| Parser.ProcessLines | src/main/download.ts:96-122 | Each line reports between one and two events, and none of them is `done`. |
| Parser.ProcessLinesAppend | src/main/download.ts:96-122 | Processing one more line picks up the filename left by the earlier lines and appends only that line's events. |
| Parser.FilenameIsLastDestination | src/main/download.ts:100-103 | After any lines, `currentFilename` is the trimmed capture of the last Destination line. If no line was a Destination line, it is unchanged, so it stays `""` from the start. |
| Parser.EachLineAppends | src/main/download.ts:96-121 | Each line adds exactly its `log` event. Then, if and only if it matches the progress pattern, it adds one `progress` event with the captures and the basename of the last destination seen up to and including that line. |
| Parser.StepCounts | src/main/download.ts:96-121 | One line reports its cleaned text as its only `log`, plus one `progress` exactly when it matched. |
| Parser.LogsAreCleanLines | src/main/download.ts:96-98 | The messages of the `log` events are the cleaned lines, in order. |
| Parser.ProgressPerMatchingLine | src/main/download.ts:105-121 | There are exactly as many `progress` events as lines that match the progress pattern. |
| Parser.ChunkLogs | src/main/download.ts:93-98 | The `log` messages of a chunk are its nonempty lines, each with the first `\r` removed and trimmed, in order. |
| Download.ChildProcess.Kill | src/main/download.ts:152 | A delivered signal returns true, sets `killed` and is recorded. A vanished process returns false. An unsupported signal throws. Neither failure changes anything. |
| Download.Supervisor.Pause | src/main/download.ts:149-161 | With a tracked, unpaused, never-signalled process, SIGSTOP is sent and `isPaused` is set (also when `kill` returns false): the first pause succeeds and a repeated pause is a no-op. If `kill` throws, only an error line is added. Otherwise only the warning is added. `wasCancelled` and the tracked process never change. |
| Download.Supervisor.Resume | src/main/download.ts:163-175 | As written: with a tracked, paused, never-signalled process, SIGCONT is sent and `isPaused` is cleared. If `kill` throws, only an error line is added. Otherwise only the warning is added. |
| Download.Supervisor.PauseIntended | src/main/download.ts:149-161 | Pause with the guard the code evidently intends: a tracked process that is not paused, whatever signals it has received. |
| Download.Supervisor.ResumeIntended | src/main/download.ts:163-175 | Resume with the guard the code evidently intends: a tracked, paused process. |
| Download.Supervisor.Cancel | src/main/download.ts:177-180 | With a tracked process with a truthy pid, sets `wasCancelled` before the kill and targets that pid. Otherwise it changes nothing. |
| Download.Supervisor.KillCallback | src/main/download.ts:180-188 | A successful kill clears the tracked process and `isPaused`. A failed kill only logs. Neither resets `wasCancelled`. |
| Download.SettleFirstWins | src/main/download.ts:133-142 | A Promise settles once: after a `resolve` or `reject`, any later one leaves the outcome as it was. On a pending Promise, the first one decides. |
| Download.CloseEvent | src/main/download.ts:130-134 | Close always reports `done`. It is `canceled` exactly after a cancellation, and `success` exactly when not cancelled and the code is 0. |
| Download.CloseOutcome | src/main/download.ts:130-135 | Close always settles. It resolves exactly after a cancellation or on code 0; otherwise it rejects with `Download failed with code <code>`. |
| Download.CloseAgrees | src/main/download.ts:131-136 | After a cancellation, close reports `canceled` and resolves whatever the code. Otherwise it reports success, and resolves, exactly when the code is 0, and other codes reject with `Download failed with code <code>`. |
| Download.RejectionNamesCode | src/main/download.ts:136 | Distinct exit codes, including `null`, give distinct rejection messages. |
| Download.DownloadJob.Start | src/main/download.ts:49-91 | The job runs the binary the host's path names. It holds the channel URL, the output directory and the argument vector built from its inputs. It starts with an empty filename and no events. The new process becomes the tracked one, and the flags are left as they were. |
| Download.DownloadJob.StartIntended | src/main/download.ts:89-91 | Start as evidently intended: it also clears `isPaused` and `wasCancelled`. |
| Download.DownloadJob.HandleData | src/main/download.ts:93-126 | The chunk appends exactly the events of the fold `HandleChunk` and leaves its filename. No `done` event is reported before close, and the outcome does not change. |
| Download.ReportLines | src/main/download.ts:96-122 | The loop over a chunk's lines computes the filename and events of the fold over the scanned lines. |
| Download.ReportLine | src/main/download.ts:97-121 | One pass of the loop body computes one step of the fold: `log`, then the filename update, then `progress`. |
| Download.DownloadJob.OnClose | src/main/download.ts:128-137 | Clears the tracked process and `isPaused`, appends exactly one `done` event (the last event reported), and settles the Promise as `CloseOutcome` says. |
| Download.DownloadJob.OnError | src/main/download.ts:139-143 | Clears the tracked process and `isPaused`, rejects with the error, and reports no event. |
| Download.PauseTwice | src/main/download.ts:149-161 | Pausing twice sends one SIGSTOP, leaves the download paused and warns the second time. |
| Download.PauseBlocksResume | src/main/download.ts:164 | As written, a resume after a delivered pause is refused, and the process stays stopped. |
| Download.PauseResumeCycle | src/main/download.ts:163-175 | With the intended guards, pause and resume alternate. |
| Download.PauseThenResume | src/main/download.ts:149-175 | With the intended guards, one pause and one resume send SIGSTOP then SIGCONT and leave the download unpaused. |
| Download.ErrorThenClose | src/main/download.ts:128-143 | When `error` comes before `close`, the Promise keeps the error's rejection, and close still reports its `done` event. |
| Download.CancelledJob | src/main/download.ts:177-190 | A cancelled job, once killed, reports only `done(canceled)` and resolves, whatever its exit code. |
| Download.CancelLeaksIntoNextJob | src/main/download.ts:29 | As written, a job started after a cancelled one and failing with code 1 still reports `canceled` and resolves. |
| Download.CancelForgottenByNextJob | src/main/download.ts:89-91 | With the intended start, that failure reports `done(success: false)` and rejects with `Download failed with code 1`. |
| Download.SecondStartOrphans | src/main/download.ts:91 | A second start replaces the tracked process. When the first job then closes, the second one is untracked and can no longer be paused. |

## Left out

- Spawning the child, `fs.existsSync`/`mkdirSync` and the tree-kill library are I/O. `Start` takes the spawned handle as a parameter, and the kill's answer is the argument of `KillCallback`. Directory creation is not modelled.
- How the operating system delivers signals is an input (`Delivery`). The SIGKILL that tree-kill sends to the process tree is not modelled beyond the pid it targets.
- `parseFloat` is floating point. The percent is kept as the captured numeral text, which the regex forces to be digits with an optional fraction. No [0, 100] bound is claimed, because the code does not enforce one.
- `path.basename` and `path.join` are modelled with `/` as the only separator, on parts without leading or trailing separators. Windows separators and `..` normalisation are not modelled.
- Decoding a `Buffer` to a string (UTF-8) is not modelled: chunks are strings.
- The interleaving of stdout and stderr chunks and Promise scheduling are not modelled. Chunks are handled one after another in the order given. `HandleData` requires that `close` has not fired yet, which Node guarantees because `close` follows the end of the child's stdio.
- Node's `kill` has a fourth outcome, which is not modelled: when the signal is refused (EPERM), it emits `error` synchronously and returns false. The `error` handler (lines 139-143) then runs before line 153 and clears the tracked process and `isPaused`, after which line 153 sets `isPaused` again. The modelled outcomes are delivered, no such process (kill returns false) and unsupported signal (kill throws).
- Download.Supervisor.Valid: `isPaused` implies a tracked process only without the path above; with it, `isPaused` can be true while nothing is tracked.
- Download.DownloadJob.Start: `resolution: number` is modelled as a `nat`, because the renderer only ever passes 360, 480, 720 or 1080. A fractional or negative number is not modelled.
- Download.DownloadJob.Start: an unsupported platform fails when the module loads, before any download can start, so `Start` requires a host with a yt-dlp build.
- The Electron window, the IPC handlers, the preload bridge and the React renderer are not part of this model.
- Download.Supervisor.Pause: the kill's error is modelled as the fixed text `kill ENOSYS` rather than Node's error object.
- Download.DownloadJob.OnClose: only the Promise's message is modelled, not the `Error` object that carries it.

## Findings

| source | as written | input that shows it | evidently intended | confidence | as-written member | corrected member |
|---|---|---|---|---|---|---|
| src/main/download.ts:164 | The resume guard demands `!killed`, but Node sets `killed` as soon as any signal from `kill` is delivered, including the pause's SIGSTOP. | Start a download, pause it (SIGSTOP delivered), then resume: the warning `Cannot resume: ...` is printed and the child stays stopped. | Resume sends SIGCONT to a tracked, paused process. | high (not executed) | Download.PauseBlocksResume | Download.Supervisor.ResumeIntended |
| src/main/download.ts:29 | `wasCancelled` is set by cancel and never cleared, so it outlives the job it was meant for. | Cancel a download and let it close, then start another download that exits with code 1: it reports `done(canceled: true)` and resolves instead of failing. | Each new download starts with `wasCancelled` and `isPaused` cleared. | high (not executed) | Download.CancelLeaksIntoNextJob | Download.DownloadJob.StartIntended |
