/** The download controller's state machine (src/main/download.ts:25-29, 53-190): the
    three module globals as the fields of a `Supervisor`, the spawned yt-dlp handle as a
    `ChildProcess`, and one call of `downloadFromChannel` as a `DownloadJob` whose event
    handlers report to `onProgress` and settle the returned Promise. */
module Download {
  import opened Wrappers
  import opened Text
  import opened Matchers
  import opened Parser
  import opened Arguments
  import opened Locator

  /** The signals `pauseDownload` and `resumeDownload` send through `ChildProcess.kill`. */
  datatype Signal = SIGSTOP | SIGCONT

  /** What the operating system does with a signal: deliver it, find the process gone
      (`kill` returns false), or refuse a signal the host does not support (`kill` throws). */
  datatype Delivery = Delivered | NoSuchProcess | Unsupported

  /** A line written with `console.log`, `console.warn` or `console.error`. */
  datatype ConsoleLine = Info(text: string) | Warning(text: string) | Failure(text: string, error: string)

  const PAUSED := "Download paused."
  const PAUSE_FAILED := "Failed to pause download:"
  const CANNOT_PAUSE := "Cannot pause: No active or already paused process."
  const RESUMED := "Download resumed."
  const RESUME_FAILED := "Failed to resume download:"
  const CANNOT_RESUME := "Cannot resume: No paused process or already running."
  const CANCELED := "Download canceled."
  const CANCEL_FAILED := "Failed to cancel:"

  /** The handle `spawn` returns. `pid` is undefined when the spawn failed. */
  class ChildProcess {
    const pid: Option<nat>
    /** Node's `subprocess.killed`: set once any signal sent by `kill` was delivered. */
    var killed: bool
    /** The signals delivered to the process, in order. */
    var received: seq<Signal>

    constructor (pid: Option<nat>)
      ensures this.pid == pid && !killed && received == []
    {
      this.pid := pid;
      killed := false;
      received := [];
    }

    /** `subprocess.kill(sig)`: true once delivered, false when the process is gone, and an
        exception (here `Err`) for a signal the host does not support. */
    method Kill(sig: Signal, delivery: Delivery) returns (r: Result<bool, string>)
      modifies this
      ensures delivery == Delivered ==> r == Ok(true) && killed && received == old(received) + [sig]
      ensures delivery == NoSuchProcess ==> r == Ok(false)
      ensures delivery == Unsupported ==> r == Err("kill ENOSYS")
      ensures delivery != Delivered ==> unchanged(this)
    {
      match delivery
      case Delivered =>
        killed := true;
        received := received + [sig];
        r := Ok(true);
      case NoSuchProcess =>
        r := Ok(false);
      case Unsupported =>
        r := Err("kill ENOSYS");
    }
  }

  /** `currentDownloadProcess`, `isPaused` and `wasCancelled`, and the console they
      write to. */
  class Supervisor {
    var current: ChildProcess?
    var isPaused: bool
    var wasCancelled: bool
    var console: seq<ConsoleLine>

    /** The globals as module load leaves them. */
    constructor ()
      ensures Valid()
      ensures current == null && !isPaused && !wasCancelled && console == []
    {
      current := null;
      isPaused := false;
      wasCancelled := false;
      console := [];
    }

    /** Only a tracked process is ever marked paused. */
    predicate Valid()
      reads this
    {
      isPaused ==> current != null
    }

    /** The guard of `pauseDownload` (line 150). */
    predicate CanPause()
      reads this, current
    {
      current != null && !isPaused && !current.killed
    }

    /** The guard of `resumeDownload` (line 164). */
    predicate CanResume()
      reads this, current
    {
      current != null && isPaused && !current.killed
    }

    /** The guard of `cancelDownload` (line 178): a tracked process with a truthy pid. */
    predicate CanCancel()
      reads this, current
    {
      current != null && current.pid.Some? && current.pid.value != 0
    }

    /** `pauseDownload`. `isPaused` is set whenever `kill` returns, even with false; when
        it throws, only the console changes. */
    method Pause(delivery: Delivery)
      requires Valid()
      modifies this, current
      ensures Valid()
      ensures current == old(current) && wasCancelled == old(wasCancelled)
      ensures !old(CanPause()) ==> isPaused == old(isPaused) && console == old(console) + [Warning(CANNOT_PAUSE)]
      ensures !old(CanPause()) && current != null ==> unchanged(current)
      ensures old(CanPause()) && delivery == Delivered ==>
        isPaused && current.killed && current.received == old(current.received) + [SIGSTOP]
      ensures old(CanPause()) && delivery != Delivered ==> unchanged(current)
      ensures old(CanPause()) && delivery != Unsupported ==> isPaused && console == old(console) + [Info(PAUSED)]
      ensures old(CanPause()) && delivery == Unsupported ==>
        !isPaused && console == old(console) + [Failure(PAUSE_FAILED, "kill ENOSYS")]
    {
      if current != null && !isPaused && !current.killed {
        var r := current.Kill(SIGSTOP, delivery);
        if r.Ok? {
          isPaused := true;
          console := console + [Info(PAUSED)];
        } else {
          console := console + [Failure(PAUSE_FAILED, r.error)];
        }
      } else {
        console := console + [Warning(CANNOT_PAUSE)];
      }
    }

    /** `resumeDownload`, as written: the guard also demands `!killed`, which the pause
        it is meant to undo has already set. */
    method Resume(delivery: Delivery)
      requires Valid()
      modifies this, current
      ensures Valid()
      ensures current == old(current) && wasCancelled == old(wasCancelled)
      ensures !old(CanResume()) ==> isPaused == old(isPaused) && console == old(console) + [Warning(CANNOT_RESUME)]
      ensures !old(CanResume()) && current != null ==> unchanged(current)
      ensures old(CanResume()) && delivery == Delivered ==>
        !isPaused && current.killed && current.received == old(current.received) + [SIGCONT]
      ensures old(CanResume()) && delivery != Delivered ==> unchanged(current)
      ensures old(CanResume()) && delivery != Unsupported ==> !isPaused && console == old(console) + [Info(RESUMED)]
      ensures old(CanResume()) && delivery == Unsupported ==>
        isPaused && console == old(console) + [Failure(RESUME_FAILED, "kill ENOSYS")]
    {
      if current != null && isPaused && !current.killed {
        var r := current.Kill(SIGCONT, delivery);
        if r.Ok? {
          isPaused := false;
          console := console + [Info(RESUMED)];
        } else {
          console := console + [Failure(RESUME_FAILED, r.error)];
        }
      } else {
        console := console + [Warning(CANNOT_RESUME)];
      }
    }

    /** The guard the pause was evidently meant to have: a tracked process that is not
        already paused, whatever signals it has received. */
    method PauseIntended(delivery: Delivery)
      requires Valid()
      modifies this, current
      ensures Valid()
      ensures current == old(current) && wasCancelled == old(wasCancelled)
      ensures (old(current) == null || old(isPaused)) ==>
        isPaused == old(isPaused) && console == old(console) + [Warning(CANNOT_PAUSE)]
      ensures (old(current) == null || old(isPaused)) && current != null ==> unchanged(current)
      ensures old(current) != null && !old(isPaused) && delivery == Delivered ==>
        isPaused && current.killed && current.received == old(current.received) + [SIGSTOP]
      ensures old(current) != null && !old(isPaused) && delivery != Delivered ==> unchanged(current)
      ensures old(current) != null && !old(isPaused) && delivery != Unsupported ==>
        isPaused && console == old(console) + [Info(PAUSED)]
      ensures old(current) != null && !old(isPaused) && delivery == Unsupported ==>
        !isPaused && unchanged(current) && console == old(console) + [Failure(PAUSE_FAILED, "kill ENOSYS")]
    {
      if current != null && !isPaused {
        var r := current.Kill(SIGSTOP, delivery);
        if r.Ok? {
          isPaused := true;
          console := console + [Info(PAUSED)];
        } else {
          console := console + [Failure(PAUSE_FAILED, r.error)];
        }
      } else {
        console := console + [Warning(CANNOT_PAUSE)];
      }
    }

    /** The guard the resume was evidently meant to have: a tracked, paused process. */
    method ResumeIntended(delivery: Delivery)
      requires Valid()
      modifies this, current
      ensures Valid()
      ensures current == old(current) && wasCancelled == old(wasCancelled)
      ensures !old(isPaused) ==> isPaused == old(isPaused) && console == old(console) + [Warning(CANNOT_RESUME)]
      ensures !old(isPaused) && current != null ==> unchanged(current)
      ensures old(isPaused) && delivery == Delivered ==>
        !isPaused && current.killed && current.received == old(current.received) + [SIGCONT]
      ensures old(isPaused) && delivery != Delivered ==> unchanged(current)
      ensures old(isPaused) && delivery != Unsupported ==> !isPaused && console == old(console) + [Info(RESUMED)]
      ensures old(isPaused) && delivery == Unsupported ==>
        isPaused && unchanged(current) && console == old(console) + [Failure(RESUME_FAILED, "kill ENOSYS")]
    {
      if current != null && isPaused {
        var r := current.Kill(SIGCONT, delivery);
        if r.Ok? {
          isPaused := false;
          console := console + [Info(RESUMED)];
        } else {
          console := console + [Failure(RESUME_FAILED, r.error)];
        }
      } else {
        console := console + [Warning(CANNOT_RESUME)];
      }
    }

    /** `cancelDownload`: marks the cancellation BEFORE asking tree-kill to send SIGKILL to
        the process tree, and returns the pid it asked for. The answer arrives later, as
        `KillCallback`. */
    method Cancel() returns (target: Option<nat>)
      modifies this
      ensures current == old(current) && isPaused == old(isPaused) && console == old(console)
      ensures old(CanCancel()) ==> wasCancelled && target == current.pid
      ensures !old(CanCancel()) ==> wasCancelled == old(wasCancelled) && target == None
    {
      if current != null && current.pid.Some? && current.pid.value != 0 {
        wasCancelled := true;
        target := current.pid;
      } else {
        target := None;
      }
    }

    /** The callback tree-kill calls with its error, if any. Success forgets whichever
        process is tracked by then; failure changes nothing but the console. */
    method KillCallback(err: Option<string>)
      requires Valid()
      modifies this
      ensures Valid()
      ensures wasCancelled == old(wasCancelled)
      ensures err.None? ==> current == null && !isPaused && console == old(console) + [Info(CANCELED)]
      ensures err.Some? ==>
        current == old(current) && isPaused == old(isPaused) && console == old(console) + [Failure(CANCEL_FAILED, err.value)]
    {
      if err.None? {
        console := console + [Info(CANCELED)];
        current := null;
        isPaused := false;
      } else {
        console := console + [Failure(CANCEL_FAILED, err.value)];
      }
    }
  }

  /** The state of the Promise `downloadFromChannel` returns. */
  datatype Outcome = Pending | Resolved | Rejected(reason: string)

  /** A Promise settles once: later calls of `resolve` or `reject` are ignored. */
  function Settle(current: Outcome, next: Outcome): Outcome {
    if current.Pending? then next else current
  }

  /** Once settled, the Promise keeps its first outcome whatever is settled after it. */
  lemma SettleFirstWins(o: Outcome, a: Outcome, b: Outcome)
    requires !a.Pending?
    ensures Settle(Settle(o, a), b) == Settle(o, a)
    ensures o.Pending? ==> Settle(Settle(o, a), b) == a
  {
  }

  /** `${n}` for an integer exit code. */
  function IntText(n: int): string {
    if n < 0 then "-" + DecimalString(-n) else DecimalString(n)
  }

  /** `${code}`: the exit code, or "null" when the child was ended by a signal. */
  function CodeText(code: Option<int>): string {
    match code
    case None => "null"
    case Some(n) => IntText(n)
  }

  const FAILED_WITH_CODE := "Download failed with code "

  /** The `done` event the close handler reports (lines 131-135). */
  function CloseEvent(cancelled: bool, code: Option<int>): (r: ProgressData)
    ensures r.Done?
    ensures r.canceled <==> cancelled
    ensures r.success <==> !cancelled && code == Some(0)
  {
    if cancelled then Done(false, true) else Done(code == Some(0), false)
  }

  /** How the close handler settles the Promise (lines 131-136). */
  function CloseOutcome(cancelled: bool, code: Option<int>): (r: Outcome)
    ensures !r.Pending?
    ensures r.Resolved? <==> cancelled || code == Some(0)
    ensures r.Rejected? ==> r.reason == FAILED_WITH_CODE + CodeText(code)
  {
    if cancelled || code == Some(0) then Resolved else Rejected(FAILED_WITH_CODE + CodeText(code))
  }

  /** The `done` event and the outcome agree: after a cancellation the job reports
      `canceled` and resolves whatever the exit code; otherwise it reports success, and
      resolves, exactly when the code is 0, and rejects naming the code when it is not. */
  lemma CloseAgrees(cancelled: bool, code: Option<int>)
    ensures CloseEvent(cancelled, code).Done?
    ensures cancelled ==> CloseEvent(cancelled, code) == Done(false, true) && CloseOutcome(cancelled, code) == Resolved
    ensures !cancelled ==> !CloseEvent(cancelled, code).canceled
    ensures !cancelled ==> (CloseEvent(cancelled, code).success <==> code == Some(0))
    ensures !cancelled ==> (CloseOutcome(cancelled, code).Resolved? <==> CloseEvent(cancelled, code).success)
    ensures CloseOutcome(cancelled, code).Rejected? ==>
      !cancelled && code != Some(0) && CloseOutcome(cancelled, code).reason == FAILED_WITH_CODE + CodeText(code)
  {
  }

  /** A rendered exit code starts with '-' exactly when it is negative. */
  lemma IntTextSign(n: int)
    ensures |IntText(n)| >= 1
    ensures IntText(n)[0] == '-' <==> n < 0
  {
    if n >= 0 {
      assert Chars.IsDigit(DecimalString(n)[0]);
    }
  }

  /** Rendered exit codes never collide. */
  lemma IntTextInjective(m: int, n: int)
    requires IntText(m) == IntText(n)
    ensures m == n
  {
    IntTextSign(m);
    IntTextSign(n);
    if m < 0 {
      assert DecimalString(-m) == IntText(m)[1..] == DecimalString(-n);
      DecimalStringInjective(-m, -n);
    } else {
      DecimalStringInjective(m, n);
    }
  }

  /** A rendered code starts with 'n' exactly when there is no code. */
  lemma CodeTextNull(code: Option<int>)
    ensures |CodeText(code)| >= 1
    ensures CodeText(code)[0] == 'n' <==> code.None?
  {
    if code.Some? {
      IntTextSign(code.value);
      if code.value >= 0 {
        assert Chars.IsDigit(DecimalString(code.value)[0]);
      }
    }
  }

  /** A rejection names the exit code it came from: distinct codes give distinct
      reasons. */
  lemma RejectionNamesCode(code1: Option<int>, code2: Option<int>)
    requires CloseOutcome(false, code1).Rejected? && CloseOutcome(false, code2).Rejected?
    requires CloseOutcome(false, code1).reason == CloseOutcome(false, code2).reason
    ensures code1 == code2
  {
    var t1, t2 := CodeText(code1), CodeText(code2);
    assert t1 == CloseOutcome(false, code1).reason[|FAILED_WITH_CODE|..];
    assert t2 == CloseOutcome(false, code2).reason[|FAILED_WITH_CODE|..];
    CodeTextNull(code1);
    CodeTextNull(code2);
    if code1.Some? {
      IntTextInjective(code1.value, code2.value);
    }
  }

  /** No `done` event among the events. */
  predicate NoDone(events: seq<ProgressData>) {
    forall k :: 0 <= k < |events| ==> !events[k].Done?
  }

  lemma ProcessLinesNoDone(filename: string, lines: seq<ScannedLine>)
    ensures NoDone(ProcessLines(filename, lines).events)
  {
  }

  lemma NoDoneConcat(a: seq<ProgressData>, b: seq<ProgressData>)
    requires NoDone(a) && NoDone(b)
    ensures NoDone(a + b)
  {
    assert forall k :: 0 <= k < |a + b| ==> (a + b)[k] == if k < |a| then a[k] else b[k - |a|];
  }

  /** One call of `downloadFromChannel`: the job's constants, the `currentFilename` its
      `handleData` closure carries, every event passed to `onProgress` and the Promise. */
  class DownloadJob {
    const supervisor: Supervisor
    const process: ChildProcess
    const binary: string
    const url: string
    const outputDir: string
    const args: seq<string>
    var currentFilename: string
    var events: seq<ProgressData>
    var outcome: Outcome
    /** Whether the `close` event has fired. */
    var closed: bool

    /** The `done` event is terminal: none before `close`, exactly one after it, and it
        is the last event reported. */
    predicate Valid()
      reads this
    {
      if closed then |events| > 0 && events[|events| - 1].Done? && NoDone(events[..|events| - 1])
      else NoDone(events)
    }

    /** `downloadFromChannel` up to line 91, given the host the module was loaded on
        (which must have a yt-dlp build, or loading fails) and the handle `spawn`
        returned for `binary`: the URL, output directory and arguments are built, and the new process
        becomes the tracked one, replacing any that was tracked before. `isPaused` and
        `wasCancelled` are left as they were. */
    constructor Start(sup: Supervisor, host: Host, channel: string, resolution: nat, savePath: string,
                      kind: ContentType, proc: ChildProcess)
      requires sup.Valid() && YtDlpPath(host).Ok?
      modifies sup
      ensures Valid() && sup.Valid()
      ensures supervisor == sup && process == proc && binary == YtDlpPath(host).value
      ensures url == ChannelUrl(channel, kind) && outputDir == OutputDir(savePath, channel)
      ensures args == YtDlpArgs(url, outputDir, resolution)
      ensures currentFilename == "" && events == [] && outcome == Pending && !closed
      ensures sup.current == proc && sup.isPaused == old(sup.isPaused)
      ensures sup.wasCancelled == old(sup.wasCancelled) && sup.console == old(sup.console)
    {
      supervisor := sup;
      process := proc;
      binary := YtDlpPath(host).value;
      url := ChannelUrl(channel, kind);
      outputDir := OutputDir(savePath, channel);
      args := YtDlpArgs(ChannelUrl(channel, kind), OutputDir(savePath, channel), resolution);
      currentFilename := "";
      events := [];
      outcome := Pending;
      closed := false;
      new;
      sup.current := proc;
    }

    /** A start that does not inherit the previous job's state: a new download would be
        expected to begin neither paused nor cancelled, so both flags are cleared when
        the new process is tracked. */
    constructor StartIntended(sup: Supervisor, host: Host, channel: string, resolution: nat, savePath: string,
                              kind: ContentType, proc: ChildProcess)
      requires sup.Valid() && YtDlpPath(host).Ok?
      modifies sup
      ensures Valid() && sup.Valid()
      ensures supervisor == sup && process == proc && binary == YtDlpPath(host).value
      ensures url == ChannelUrl(channel, kind) && outputDir == OutputDir(savePath, channel)
      ensures args == YtDlpArgs(url, outputDir, resolution)
      ensures currentFilename == "" && events == [] && outcome == Pending && !closed
      ensures sup.current == proc && !sup.isPaused && !sup.wasCancelled && sup.console == old(sup.console)
    {
      supervisor := sup;
      process := proc;
      binary := YtDlpPath(host).value;
      url := ChannelUrl(channel, kind);
      outputDir := OutputDir(savePath, channel);
      args := YtDlpArgs(ChannelUrl(channel, kind), OutputDir(savePath, channel), resolution);
      currentFilename := "";
      events := [];
      outcome := Pending;
      closed := false;
      new;
      sup.current := proc;
      sup.isPaused := false;
      sup.wasCancelled := false;
    }

    /** `handleData`: one chunk of the child's stdout or stderr. What it reports and the
        filename it leaves are those of `HandleChunk`. Node delivers no data after
        `close`. */
    method HandleData(chunk: string)
      requires Valid() && !closed
      modifies this
      ensures Valid() && !closed && outcome == old(outcome)
      ensures events == old(events) + HandleChunk(old(currentFilename), chunk).events
      ensures currentFilename == HandleChunk(old(currentFilename), chunk).filename
    {
      var filename, reported := ReportLines(currentFilename, Fragments(chunk));
      ProcessLinesNoDone(currentFilename, ScanAll(Fragments(chunk)));
      NoDoneConcat(events, reported);
      currentFilename, events := filename, events + reported;
    }

    /** The `close` handler: the globals are cleared, exactly one `done` event is
        reported and the Promise settles (a second settle is ignored). */
    method OnClose(code: Option<int>)
      requires Valid() && !closed && supervisor.Valid()
      modifies this, supervisor
      ensures Valid() && closed && supervisor.Valid()
      ensures supervisor.current == null && !supervisor.isPaused
      ensures supervisor.wasCancelled == old(supervisor.wasCancelled) && supervisor.console == old(supervisor.console)
      ensures events == old(events) + [CloseEvent(old(supervisor.wasCancelled), code)]
      ensures outcome == Settle(old(outcome), CloseOutcome(old(supervisor.wasCancelled), code))
      ensures currentFilename == old(currentFilename)
    {
      supervisor.current := null;
      supervisor.isPaused := false;
      if supervisor.wasCancelled {
        events := events + [Done(false, true)];
        outcome := Settle(outcome, Resolved);
      } else {
        events := events + [Done(code == Some(0), false)];
        if code == Some(0) {
          outcome := Settle(outcome, Resolved);
        } else {
          outcome := Settle(outcome, Rejected(FAILED_WITH_CODE + CodeText(code)));
        }
      }
      closed := true;
      assert events[..|events| - 1] == old(events);
    }

    /** The `error` handler: the globals are cleared and the Promise is rejected, with no
        `done` event. */
    method OnError(err: string)
      requires Valid() && supervisor.Valid()
      modifies this, supervisor
      ensures Valid() && supervisor.Valid()
      ensures supervisor.current == null && !supervisor.isPaused
      ensures supervisor.wasCancelled == old(supervisor.wasCancelled) && supervisor.console == old(supervisor.console)
      ensures events == old(events) && closed == old(closed) && currentFilename == old(currentFilename)
      ensures outcome == Settle(old(outcome), Rejected(err))
    {
      supervisor.current := null;
      supervisor.isPaused := false;
      outcome := Settle(outcome, Rejected(err));
    }
  }

  /** One turn of the loop in `handleData` (lines 97-121), given `currentFilename`: the
      `log` event, the filename update, then the `progress` event. */
  method ReportLine(filename: string, fragment: string) returns (next: string, reported: seq<ProgressData>)
    ensures next == Step(filename, ScanLine(fragment)).filename
    ensures reported == Step(filename, ScanLine(fragment)).events
  {
    next := filename;
    var cleanLine := CleanLine(fragment);
    reported := [Log(cleanLine)];
    var fileMatch := DestinationCapture(cleanLine);
    if fileMatch.Some? {
      next := Trim(fileMatch.value);
    }
    var progressMatch := ProgressCapture(cleanLine);
    if progressMatch.Some? {
      var c := progressMatch.value;
      reported := reported + [Progress(c.percent, c.speed, c.eta, Basename(next))];
    }
  }

  /** The loop of `handleData` (lines 96-122) over the fragments of one chunk, from a
      given `currentFilename`. */
  method ReportLines(filename: string, lines: seq<string>) returns (next: string, reported: seq<ProgressData>)
    ensures next == ProcessLines(filename, ScanAll(lines)).filename
    ensures reported == ProcessLines(filename, ScanAll(lines)).events
  {
    next, reported := filename, [];
    for i := 0 to |lines|
      invariant next == ProcessLines(filename, ScanAll(lines[..i])).filename
      invariant reported == ProcessLines(filename, ScanAll(lines[..i])).events
    {
      var name, more := ReportLine(next, lines[i]);
      ReportedThrough(filename, lines, i, next, reported, name, more);
      next, reported := name, reported + more;
    }
    assert lines[..|lines|] == lines;
  }

  /** The loop invariant of `ReportLines` carries over one more fragment. */
  lemma ReportedThrough(filename: string, lines: seq<string>, i: nat, next: string, reported: seq<ProgressData>,
                        name: string, more: seq<ProgressData>)
    requires i < |lines|
    requires next == ProcessLines(filename, ScanAll(lines[..i])).filename
    requires reported == ProcessLines(filename, ScanAll(lines[..i])).events
    requires name == Step(next, ScanLine(lines[i])).filename && more == Step(next, ScanLine(lines[i])).events
    ensures name == ProcessLines(filename, ScanAll(lines[..i + 1])).filename
    ensures reported + more == ProcessLines(filename, ScanAll(lines[..i + 1])).events
  {
    assert lines[..i + 1] == lines[..i] + [lines[i]];
    ScanAllAppend(lines[..i], lines[i]);
    ProcessedThrough(filename, ScanAll(lines[..i]), ScanLine(lines[i]), next, reported, name, more);
  }

  lemma ProcessedThrough(filename: string, lines: seq<ScannedLine>, x: ScannedLine, next: string,
                         reported: seq<ProgressData>, name: string, more: seq<ProgressData>)
    requires next == ProcessLines(filename, lines).filename && reported == ProcessLines(filename, lines).events
    requires name == Step(next, x).filename && more == Step(next, x).events
    ensures name == ProcessLines(filename, lines + [x]).filename
    ensures reported + more == ProcessLines(filename, lines + [x]).events
  {
    ProcessLinesAppend(filename, lines, x);
  }

  // ---------------------------------------------------------------------------
  // Scenarios
  // ---------------------------------------------------------------------------

  /** A packaged build on Linux. */
  const LINUX_HOST := Host("linux", true, "/app", "/res")

  /** Pausing twice sends SIGSTOP once and leaves the download paused. */
  method PauseTwice() returns (paused: bool, received: seq<Signal>, console: seq<ConsoleLine>)
    ensures paused && received == [SIGSTOP]
    ensures console == [Info(PAUSED), Warning(CANNOT_PAUSE)]
  {
    var sup := new Supervisor();
    var proc := new ChildProcess(Some(4242));
    var job := new DownloadJob.Start(sup, LINUX_HOST, "foo", 720, "/out", Videos, proc);
    sup.Pause(Delivered);
    sup.Pause(Delivered);
    paused, received, console := sup.isPaused, proc.received, sup.console;
  }

  /** As written, a delivered SIGSTOP sets `killed`, so the resume that should follow is
      refused and the download stays stopped. */
  method PauseBlocksResume() returns (paused: bool, received: seq<Signal>, console: seq<ConsoleLine>)
    ensures paused && received == [SIGSTOP]
    ensures console == [Info(PAUSED), Warning(CANNOT_RESUME)]
  {
    var sup := new Supervisor();
    var proc := new ChildProcess(Some(4242));
    var job := new DownloadJob.Start(sup, LINUX_HOST, "foo", 720, "/out", Videos, proc);
    sup.Pause(Delivered);
    sup.Resume(Delivered);
    paused, received, console := sup.isPaused, proc.received, sup.console;
  }

  /** With the intended guards, pause and resume alternate as often as asked. */
  method PauseResumeCycle() returns (paused: bool, received: seq<Signal>, console: seq<ConsoleLine>)
    ensures !paused && received == [SIGSTOP, SIGCONT, SIGSTOP, SIGCONT]
    ensures console == [Info(PAUSED), Info(RESUMED), Info(PAUSED), Info(RESUMED)]
  {
    var sup := new Supervisor();
    var proc := new ChildProcess(Some(4242));
    var job := new DownloadJob.Start(sup, LINUX_HOST, "foo", 720, "/out", Videos, proc);
    PauseThenResume(sup);
    PauseThenResume(sup);
    paused, received, console := sup.isPaused, proc.received, sup.console;
  }

  /** One cycle under the intended guards: the tracked process gets SIGSTOP then SIGCONT. */
  method PauseThenResume(sup: Supervisor)
    requires sup.Valid() && sup.current != null && !sup.isPaused
    modifies sup, sup.current
    ensures sup.Valid() && sup.current == old(sup.current) && !sup.isPaused
    ensures sup.current.received == old(sup.current.received) + [SIGSTOP, SIGCONT]
    ensures sup.console == old(sup.console) + [Info(PAUSED), Info(RESUMED)]
  {
    sup.PauseIntended(Delivered);
    sup.ResumeIntended(Delivered);
  }

  /** A cancelled job reports `canceled` and resolves, whatever its exit code. */
  method CancelledJob(code: Option<int>) returns (events: seq<ProgressData>, outcome: Outcome, target: Option<nat>)
    ensures events == [Done(false, true)] && outcome == Resolved && target == Some(4242)
  {
    var sup := new Supervisor();
    var proc := new ChildProcess(Some(4242));
    var job := new DownloadJob.Start(sup, LINUX_HOST, "foo", 720, "/out", Videos, proc);
    target := sup.Cancel();
    sup.KillCallback(None);
    job.OnClose(code);
    events, outcome := job.events, job.outcome;
  }

  /** A spawn error followed by the close event: the Promise keeps the error, while the
      close still reports its `done` event. */
  method ErrorThenClose() returns (events: seq<ProgressData>, outcome: Outcome)
    ensures events == [Done(false, false)] && outcome == Rejected("spawn ENOENT")
  {
    var sup := new Supervisor();
    var proc := new ChildProcess(Some(7));
    var job := new DownloadJob.Start(sup, LINUX_HOST, "foo", 720, "/out", Videos, proc);
    job.OnError("spawn ENOENT");
    job.OnClose(Some(1));
    events, outcome := job.events, job.outcome;
  }

  /** As written, `wasCancelled` outlives the cancelled job: the next job, although it
      fails with exit code 1, reports `canceled` and resolves. */
  method CancelLeaksIntoNextJob() returns (events: seq<ProgressData>, outcome: Outcome)
    ensures events == [Done(false, true)] && outcome == Resolved
  {
    var sup := new Supervisor();
    var first := new ChildProcess(Some(100));
    var job1 := new DownloadJob.Start(sup, LINUX_HOST, "foo", 720, "/out", Videos, first);
    var target := sup.Cancel();
    sup.KillCallback(None);
    job1.OnClose(None);
    var second := new ChildProcess(Some(101));
    var job2 := new DownloadJob.Start(sup, LINUX_HOST, "bar", 720, "/out", All, second);
    job2.OnClose(Some(1));
    events, outcome := job2.events, job2.outcome;
  }

  /** With the intended start, the next job's failure is reported as a failure and
      rejects with its exit code. */
  method CancelForgottenByNextJob() returns (events: seq<ProgressData>, outcome: Outcome)
    ensures events == [Done(false, false)] && outcome == Rejected("Download failed with code 1")
  {
    var sup := new Supervisor();
    var first := new ChildProcess(Some(100));
    var job1 := new DownloadJob.StartIntended(sup, LINUX_HOST, "foo", 720, "/out", Videos, first);
    var target := sup.Cancel();
    sup.KillCallback(None);
    job1.OnClose(None);
    var second := new ChildProcess(Some(101));
    var job2 := new DownloadJob.StartIntended(sup, LINUX_HOST, "bar", 720, "/out", All, second);
    job2.OnClose(Some(1));
    ExitOneRejects();
    events, outcome := job2.events, job2.outcome;
  }

  /** The rejection for exit code 1. */
  lemma ExitOneRejects()
    ensures CloseOutcome(false, Some(1)) == Rejected("Download failed with code 1")
  {
    assert CodeText(Some(1)) == [DigitChar(1)];
  }

  /** A second start replaces the tracked process: when the first job then ends, the
      second runs on untracked and can no longer be paused. */
  method SecondStartOrphans() returns (tracked: bool, console: seq<ConsoleLine>)
    ensures !tracked && console == [Warning(CANNOT_PAUSE)]
  {
    var sup := new Supervisor();
    var first := new ChildProcess(Some(100));
    var job1 := new DownloadJob.Start(sup, LINUX_HOST, "foo", 720, "/out", Videos, first);
    var second := new ChildProcess(Some(101));
    var job2 := new DownloadJob.Start(sup, LINUX_HOST, "bar", 720, "/out", All, second);
    job1.OnClose(Some(0));
    sup.Pause(Delivered);
    tracked, console := sup.current != null, sup.console;
  }
}
