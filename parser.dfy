/** The events the controller reports (src/main/download.ts:7-23) and, as functions,
    what `handleData` (src/main/download.ts:93-123) reports for a chunk of the child's
    output: the specification the imperative `DownloadJob.HandleData` is proved against. */
module Parser {
  import opened Wrappers
  import opened Chars
  import opened Text
  import opened Matchers

  /** `ProgressData`. `percent` is the text of the number `parseFloat` reads;
      `canceled == false` stands for the absent optional field. */
  datatype ProgressData =
    | Progress(percent: string, speed: string, eta: string, filename: string)
    | Log(message: string)
    | Done(success: bool, canceled: bool)

  /** `chunk.toString().split('\n').filter(Boolean)`. */
  function Fragments(chunk: string): (r: seq<string>)
    ensures forall k :: 0 <= k < |r| ==> r[k] != [] && '\n' !in r[k]
  {
    var pieces := Split(chunk, '\n');
    var r := NonEmpty(pieces);
    assert forall k :: 0 <= k < |r| ==> '\n' !in r[k] by {
      forall k | 0 <= k < |r| ensures '\n' !in r[k] {
        var j :| 0 <= j < |pieces| && pieces[j] == r[k];
      }
    }
    r
  }

  /** `line.replace('\r', '').trim()`. */
  function CleanLine(fragment: string): (r: string)
    ensures |r| <= |fragment|
    ensures r == [] || (!IsSpace(r[0]) && !IsSpace(r[|r| - 1]))
  {
    Trim(RemoveFirst(fragment, '\r'))
  }

  /** What lines 97-107 of the loop body compute from one fragment before reporting:
      the cleaned line, the trimmed Destination capture and the progress captures. */
  datatype ScannedLine = ScannedLine(clean: string, destination: Option<string>, progress: Option<ProgressCaptures>)

  function ScanLine(fragment: string): ScannedLine {
    var clean := CleanLine(fragment);
    var destination := match DestinationCapture(clean)
      case Some(path) => Some(Trim(path))
      case None => None;
    ScannedLine(clean, destination, ProgressCapture(clean))
  }

  /** Every fragment of a chunk, scanned. */
  function ScanAll(fragments: seq<string>): (r: seq<ScannedLine>)
    ensures |r| == |fragments|
  {
    if fragments == [] then [] else [ScanLine(fragments[0])] + ScanAll(fragments[1..])
  }

  lemma {:induction false} ScanAllAppend(fragments: seq<string>, x: string)
    ensures ScanAll(fragments + [x]) == ScanAll(fragments) + [ScanLine(x)]
  {
    if fragments == [] {
      assert [x][1..] == [];
    } else {
      assert (fragments + [x])[1..] == fragments[1..] + [x];
      assert (fragments + [x])[0] == fragments[0];
      ScanAllAppend(fragments[1..], x);
    }
  }

  /** The state `handleData` carries from line to line, and what it reported. */
  datatype LineResult = LineResult(filename: string, events: seq<ProgressData>)

  /** One turn of the loop at src/main/download.ts:96-122, given `currentFilename`:
      the log event, then the filename update, then the progress event. */
  function Step(filename: string, line: ScannedLine): LineResult {
    var name := if line.destination.Some? then line.destination.value else filename;
    var progress := match line.progress
      case Some(c) => [Progress(c.percent, c.speed, c.eta, Basename(name))]
      case None => [];
    LineResult(name, [Log(line.clean)] + progress)
  }

  /** Every line is logged, cleaned, before anything else; a progress line adds one
      progress event naming the basename of the file being downloaded; a destination
      line changes the file, any other line keeps it. */
  lemma StepEvents(filename: string, line: ScannedLine)
    ensures var r := Step(filename, line);
      && |r.events| == (if line.progress.Some? then 2 else 1)
      && r.events[0] == Log(line.clean)
      && r.filename == (if line.destination.Some? then line.destination.value else filename)
      && (line.progress.Some? ==>
            r.events[1].Progress? && r.events[1].filename == Basename(r.filename) &&
            r.events[1].percent == line.progress.value.percent)
  {
  }

  /** The loop over all lines, front to back. */
  function ProcessLines(filename: string, lines: seq<ScannedLine>): (r: LineResult)
    ensures |lines| <= |r.events| <= 2 * |lines|
    ensures forall k :: 0 <= k < |r.events| ==> !r.events[k].Done?
    decreases |lines|
  {
    if lines == [] then LineResult(filename, [])
    else
      var head := Step(filename, lines[0]);
      var tail := ProcessLines(head.filename, lines[1..]);
      LineResult(tail.filename, head.events + tail.events)
  }

  /** What one call of `handleData` reports, and the filename it leaves behind. */
  function HandleChunk(filename: string, chunk: string): (r: LineResult)
    ensures |Fragments(chunk)| <= |r.events| <= 2 * |Fragments(chunk)|
    ensures forall k :: 0 <= k < |r.events| ==> !r.events[k].Done?
  {
    ProcessLines(filename, ScanAll(Fragments(chunk)))
  }

  // ---------------------------------------------------------------------------
  // Independent descriptions the fold is proved against
  // ---------------------------------------------------------------------------

  /** The destination announced last among the lines, or `initial` if none is. */
  function LastDestination(initial: string, lines: seq<ScannedLine>): string {
    if lines == [] then initial
    else match lines[|lines| - 1].destination
      case Some(path) => path
      case None => LastDestination(initial, lines[..|lines| - 1])
  }

  /** The cleaned text of every line, in order. */
  function Cleaned(lines: seq<ScannedLine>): (r: seq<string>)
    ensures |r| == |lines|
  {
    if lines == [] then [] else [lines[0].clean] + Cleaned(lines[1..])
  }

  /** `CleanLine` of every fragment, in order. */
  function CleanAll(fragments: seq<string>): (r: seq<string>)
    ensures |r| == |fragments|
  {
    if fragments == [] then [] else [CleanLine(fragments[0])] + CleanAll(fragments[1..])
  }

  /** The messages of the `log` events, in order. */
  function LogMessages(events: seq<ProgressData>): seq<string> {
    if events == [] then []
    else (if events[0].Log? then [events[0].message] else []) + LogMessages(events[1..])
  }

  /** The number of `progress` events. */
  function ProgressCount(events: seq<ProgressData>): nat {
    if events == [] then 0 else (if events[0].Progress? then 1 else 0) + ProgressCount(events[1..])
  }

  /** The number of lines that match the progress pattern. */
  function ProgressLineCount(lines: seq<ScannedLine>): nat {
    if lines == [] then 0
    else (if lines[0].progress.Some? then 1 else 0) + ProgressLineCount(lines[1..])
  }

  /** What the last line adds to the report. */
  function LastLineEvents(initial: string, lines: seq<ScannedLine>, x: ScannedLine): seq<ProgressData> {
    [Log(x.clean)] +
      match x.progress
      case Some(c) => [Progress(c.percent, c.speed, c.eta, Basename(LastDestination(initial, lines + [x])))]
      case None => []
  }

  // ---------------------------------------------------------------------------
  // Lemmas
  // ---------------------------------------------------------------------------

  /** Processing one more line continues from where the others left off. */
  lemma {:induction false} ProcessLinesAppend(filename: string, lines: seq<ScannedLine>, x: ScannedLine)
    ensures ProcessLines(filename, lines + [x]).filename == Step(ProcessLines(filename, lines).filename, x).filename
    ensures ProcessLines(filename, lines + [x]).events
      == ProcessLines(filename, lines).events + Step(ProcessLines(filename, lines).filename, x).events
    decreases |lines|
  {
    if lines == [] {
      assert [x][1..] == [];
      assert lines + [x] == [x];
    } else {
      var head := Step(filename, lines[0]);
      var rest := ProcessLines(head.filename, lines[1..]);
      var step := Step(rest.filename, x);
      assert (lines + [x])[0] == lines[0];
      assert (lines + [x])[1..] == lines[1..] + [x];
      ProcessLinesAppend(head.filename, lines[1..], x);
      assert head.events + (rest.events + step.events) == (head.events + rest.events) + step.events;
    }
  }

  /** After any lines, `currentFilename` is the trimmed path of the last Destination line,
      or what it was before when there was none. */
  lemma {:induction false} FilenameIsLastDestination(filename: string, lines: seq<ScannedLine>)
    ensures ProcessLines(filename, lines).filename == LastDestination(filename, lines)
    decreases |lines|
  {
    if lines != [] {
      var init := lines[..|lines| - 1];
      assert lines == init + [lines[|lines| - 1]];
      ProcessLinesAppend(filename, init, lines[|lines| - 1]);
      FilenameIsLastDestination(filename, init);
    }
  }

  /** Each line adds exactly its `log` event and then, if and only if it matches the
      progress pattern, one `progress` event carrying the captures and the basename of
      the last destination seen up to and including this line. */
  lemma {:induction false} EachLineAppends(filename: string, lines: seq<ScannedLine>, x: ScannedLine)
    ensures ProcessLines(filename, lines + [x]).events
      == ProcessLines(filename, lines).events + LastLineEvents(filename, lines, x)
  {
    ProcessLinesAppend(filename, lines, x);
    FilenameIsLastDestination(filename, lines);
    assert (lines + [x])[..|lines + [x]| - 1] == lines;
  }

  lemma {:induction false} LogMessagesAppend(a: seq<ProgressData>, b: seq<ProgressData>)
    ensures LogMessages(a + b) == LogMessages(a) + LogMessages(b)
  {
    if a != [] {
      assert (a + b)[0] == a[0];
      assert (a + b)[1..] == a[1..] + b;
      LogMessagesAppend(a[1..], b);
    } else {
      assert a + b == b;
    }
  }

  lemma {:induction false} ProgressCountAppend(a: seq<ProgressData>, b: seq<ProgressData>)
    ensures ProgressCount(a + b) == ProgressCount(a) + ProgressCount(b)
  {
    if a != [] {
      assert (a + b)[0] == a[0];
      assert (a + b)[1..] == a[1..] + b;
      ProgressCountAppend(a[1..], b);
    } else {
      assert a + b == b;
    }
  }

  /** One turn reports the cleaned line as its only `log`, and a `progress` exactly when
      the line matched the progress pattern. */
  lemma StepCounts(filename: string, x: ScannedLine)
    ensures LogMessages(Step(filename, x).events) == [x.clean]
    ensures ProgressCount(Step(filename, x).events) == if x.progress.Some? then 1 else 0
  {
    var events := Step(filename, x).events;
    var log: seq<ProgressData> := [Log(x.clean)];
    assert LogMessages(log) == [x.clean] && ProgressCount(log) == 0 by {
      assert log[1..] == [];
    }
    match x.progress
    case None =>
      assert events == log;
    case Some(c) =>
      var tail := events[1..];
      assert events == log + tail;
      assert tail[1..] == [];
      LogMessagesAppend(log, tail);
      ProgressCountAppend(log, tail);
  }

  /** One `log` per line: the `log` messages are the cleaned lines, in order. */
  lemma {:induction false} LogsAreCleanLines(filename: string, lines: seq<ScannedLine>)
    ensures LogMessages(ProcessLines(filename, lines).events) == Cleaned(lines)
    decreases |lines|
  {
    if lines != [] {
      var head := Step(filename, lines[0]);
      LogsAreCleanLines(head.filename, lines[1..]);
      LogMessagesAppend(head.events, ProcessLines(head.filename, lines[1..]).events);
      StepCounts(filename, lines[0]);
    }
  }

  /** There are as many `progress` events as lines that match the progress pattern. */
  lemma {:induction false} ProgressPerMatchingLine(filename: string, lines: seq<ScannedLine>)
    ensures ProgressCount(ProcessLines(filename, lines).events) == ProgressLineCount(lines)
    decreases |lines|
  {
    if lines != [] {
      var head := Step(filename, lines[0]);
      ProgressPerMatchingLine(head.filename, lines[1..]);
      ProgressCountAppend(head.events, ProcessLines(head.filename, lines[1..]).events);
      StepCounts(filename, lines[0]);
    }
  }

  /** Scanning keeps the cleaned lines. */
  lemma {:induction false} ScanAllCleaned(fragments: seq<string>)
    ensures Cleaned(ScanAll(fragments)) == CleanAll(fragments)
  {
    if fragments != [] {
      ScanAllCleaned(fragments[1..]);
    }
  }

  /** The `log` messages of a chunk are its non-empty lines, cleaned, in order. */
  lemma ChunkLogs(filename: string, chunk: string)
    ensures LogMessages(HandleChunk(filename, chunk).events) == CleanAll(Fragments(chunk))
  {
    LogsAreCleanLines(filename, ScanAll(Fragments(chunk)));
    ScanAllCleaned(Fragments(chunk));
  }

  /** A line of whitespace only, if not empty, survives the filter and is reported as an
      empty `log`, with no progress and no change of filename. The empty line is dropped. */
  lemma BlankFragment(filename: string, fragment: string)
    requires AllIn(fragment, 0, |fragment|, Space)
    ensures '\n' !in fragment ==> Fragments(fragment) == (if fragment == [] then [] else [fragment])
    ensures CleanLine(fragment) == ""
    ensures Step(filename, ScanLine(fragment)) == LineResult(filename, [Log("")])
  {
    if '\n' !in fragment {
      assert Join([fragment], '\n') == fragment;
      SplitJoin([fragment], '\n');
      NonEmptySingle(fragment);
    }
    RemoveFirstBlank(fragment, '\r');
    TrimBlank(RemoveFirst(fragment, '\r'));
    assert DestinationCapture("") == None;
    assert MatchProgress("") == None;
  }

  /** The lines of a chunk are its '\n'-separated pieces, in order, with the empty ones
      dropped: "a\n\nb" gives ["a", "b"]. */
  lemma FragmentsOfLines(lines: seq<string>)
    requires |lines| >= 1
    requires forall k :: 0 <= k < |lines| ==> '\n' !in lines[k]
    ensures Fragments(Join(lines, '\n')) == NonEmpty(lines)
  {
    SplitJoin(lines, '\n');
  }

  lemma BlankLineDropped()
    ensures Fragments("a\n\nb") == ["a", "b"]
  {
    var lines := ["a", "", "b"];
    assert Join(lines, '\n') == "a\n\nb" by {
      assert lines[1..] == ["", "b"] && lines[1..][1..] == ["b"];
    }
    assert forall k :: 0 <= k < |lines| ==> '\n' !in lines[k];
    FragmentsOfLines(lines);
    assert NonEmpty(lines) == ["a", "b"] by {
      assert lines[1..] == ["", "b"] && lines[1..][1..] == ["b"];
      NonEmptySingle("b");
    }
  }

  lemma {:induction false} NonEmptyKeeps(lines: seq<string>)
    requires forall k :: 0 <= k < |lines| ==> lines[k] != []
    ensures NonEmpty(lines) == lines
  {
    if lines != [] {
      NonEmptyKeeps(lines[1..]);
    }
  }

  lemma {:induction false} NonEmptyDropsLast(lines: seq<string>)
    ensures NonEmpty(lines + [[]]) == NonEmpty(lines)
  {
    var empty: seq<string> := [[]];
    if lines == [] {
      assert empty[1..] == [];
    } else {
      assert (lines + [[]])[1..] == lines[1..] + [[]];
      NonEmptyDropsLast(lines[1..]);
    }
  }

  lemma {:induction false} JoinAppendEmpty(lines: seq<string>, sep: char)
    requires |lines| >= 1
    ensures Join(lines + [[]], sep) == Join(lines, sep) + [sep]
  {
    if |lines| > 1 {
      assert (lines + [[]])[1..] == lines[1..] + [[]];
      JoinAppendEmpty(lines[1..], sep);
    }
  }

  /** Splitting a newline-terminated block of non-empty lines gives the lines back:
      the trailing empty piece is filtered out. */
  lemma LinesRoundTrip(lines: seq<string>)
    requires |lines| >= 1
    requires forall k :: 0 <= k < |lines| ==> lines[k] != [] && '\n' !in lines[k]
    ensures Fragments(Join(lines, '\n')) == lines
    ensures Fragments(Join(lines, '\n') + "\n") == lines
  {
    SplitJoin(lines, '\n');
    NonEmptyKeeps(lines);
    JoinAppendEmpty(lines, '\n');
    SplitJoin(lines + [[]], '\n');
    NonEmptyDropsLast(lines);
  }
}
