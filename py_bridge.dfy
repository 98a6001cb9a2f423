/** The Python side of the sync bridge (python/bridge.py): the request
    dispatch in `main`, the early-return guards of `run_movie` and
    `run_series`, and the main-thread loop that collects the workers'
    results. What the pool hands back is an input: `schedule(n)` is the order
    in which the n submitted work items complete, and `outcome(i)` is what
    the analyzer did with item i (its result tuple and elapsed time, or the
    exception it raised). Only the events the main thread writes are
    modelled; the workers' own file_start / file_progress / file_end lines
    are not. */
module PyBridge {
  import opened Wrappers
  import opened Text
  import opened HostTypes

  // ---- Paths -------------------------------------------------------------

  /** The index just past the last '/' of p (0 when there is none). */
  function AfterLastSlash(p: string): (k: nat)
    ensures k <= |p|
    ensures k > 0 ==> p[k - 1] == '/'
    ensures '/' !in p[k..]
  {
    if p == [] then 0
    else if p[|p| - 1] == '/' then |p|
    else
      var k := AfterLastSlash(p[..|p| - 1]);
      assert p[..|p| - 1] + [p[|p| - 1]] == p;
      assert p[k..] == p[..|p| - 1][k..] + [p[|p| - 1]];
      k
  }

  /** `os.path.basename` on POSIX: everything after the last '/'. */
  function Basename(p: string): string {
    p[AfterLastSlash(p)..]
  }

  /** `os.path.join(folder, pattern)` on POSIX for a relative pattern. */
  function JoinPath(folder: string, pattern: string): string {
    if folder == [] || folder[|folder| - 1] == '/' then folder + pattern else folder + "/" + pattern
  }

  // ---- Values ------------------------------------------------------------

  /** The 5-tuple the analyzer returns. */
  datatype ResultTuple = ResultTuple(primary: string, secondary: string,
                                     startDelay: Option<Delay>, endDelay: Option<Delay>, error: Option<string>)

  /** The dict `normalize_result` builds, once `elapsed_ms` has been added.
      The elapsed time is the difference of two `time.time()` readings of
      the wall clock, which can step back, so it may be negative. */
  datatype Record = Record(videoFile: string, audioFile: string,
                           startDelay: Option<Delay>, endDelay: Option<Delay>, error: Option<string>,
                           elapsedMs: int)

  /** The lines the main thread writes to stdout. */
  datatype PyEvent =
    | PyLog(message: string)
    | PyProgress(processed: nat, total: nat, current: string)
    | PyResult(record: Record)
    | PyDone(results: seq<Record>)

  /** One submitted job: the video path and the audio path it is paired with. */
  datatype WorkItem = WorkItem(primary: string, secondary: string)

  /** What `future.result()` does: return the worker's pair or re-raise. */
  datatype WorkOutcome = Finished(result: ResultTuple, elapsedMs: int) | Raised(error: string)

  /** The request fields the bridge reads; None is a missing key or null.
      The value of "segment_duration" only reaches the analyzer; what the
      runs see of it is whether `float()` rejects it: `segmentError` is the
      exception's text then, and None when the conversion succeeds (as it
      does for the default 300.0). */
  datatype Request = Request(mode: Option<string>, videoFolder: Option<string>, audioFolder: Option<string>,
                             audioFile: Option<string>, videoFiles: Option<seq<string>>,
                             matchPattern: Option<string>, segmentError: Option<string>)

  /** Python truthiness of an optional string. */
  predicate Truthy(s: Option<string>) {
    s.Some? && s.value != ""
  }

  /** `normalize_result` followed by the `elapsed_ms` assignment. */
  function NormalizeResult(t: ResultTuple, elapsedMs: int): Record {
    Record(Basename(t.primary), Basename(t.secondary), t.startDelay, t.endDelay, t.error, elapsedMs)
  }

  // ---- Movie video list --------------------------------------------------

  const MOVIE_PATTERNS: seq<string> := ["*.mp4", "*.mkv", "*.webm", "*.avi", "*.mov"]

  /** `glob.glob`: the paths a pattern matches, in the order it yields them. */
  type Glob = string -> seq<string>

  function GlobEach(folder: string, patterns: seq<string>, glob: Glob): seq<string> {
    if patterns == [] then [] else glob(JoinPath(folder, patterns[0])) + GlobEach(folder, patterns[1..], glob)
  }

  /** `list_movie_videos`: an explicit list wins when it is non-empty;
      otherwise the folder is globbed once per extension, extension by
      extension. The folder must then be a string. */
  function ListMovieVideos(folder: Option<string>, explicit: seq<string>, glob: Glob): (r: seq<string>)
    requires explicit != [] || folder.Some?
    ensures explicit != [] ==> r == explicit
  {
    if explicit != [] then explicit else GlobEach(folder.value, MOVIE_PATTERNS, glob)
  }

  // ---- Completion order --------------------------------------------------

  function Range(n: nat): (r: seq<nat>)
    ensures |r| == n && forall k :: 0 <= k < n ==> r[k] == k
  {
    seq(n, k => k)
  }

  /** `order` lists each of the indices 0..n-1 exactly once. */
  predicate IsPermutation(order: seq<nat>, n: nat) {
    && |order| == n
    && (forall k :: 0 <= k < |order| ==> order[k] < n)
    && multiset(order) == multiset(Range(n))
  }

  /** `as_completed` hands back every submitted future exactly once. */
  type Schedule = nat -> seq<nat>

  ghost predicate ValidSchedule(schedule: Schedule) {
    forall n: nat :: IsPermutation(schedule(n), n)
  }

  type Analyzer = nat -> WorkOutcome

  // ---- The collector loop ------------------------------------------------

  /** The record the collector keeps for a finished item. */
  function RecordOf(o: WorkOutcome): Record
    requires o.Finished?
  {
    NormalizeResult(o.result, o.elapsedMs)
  }

  /** What the collector loop has produced when it stops: the events it
      wrote, the records it appended and, if a worker raised, the error. */
  datatype Collected = Collected(events: seq<PyEvent>, results: seq<Record>, crash: Option<string>)

  predicate InBounds(order: seq<nat>, n: nat) {
    forall k :: 0 <= k < |order| ==> order[k] < n
  }

  /** The loop over the futures in `order`, as a function of how far it got:
      for each completed future the count goes up, then the result is read;
      a raised exception ends the loop. */
  function Collect(items: seq<WorkItem>, order: seq<nat>, outcome: Analyzer): Collected
    requires InBounds(order, |items|)
    decreases |order|
  {
    if order == [] then Collected([], [], None)
    else
      var n := |order| - 1;
      var before := Collect(items, order[..n], outcome);
      if before.crash.Some? then before
      else
        match outcome(order[n])
        case Raised(e) => Collected(before.events, before.results, Some(e))
        case Finished(t, ms) =>
          var rec := NormalizeResult(t, ms);
          Collected(before.events + [PyProgress(|order|, |items|, Basename(items[order[n]].primary)), PyResult(rec)],
                    before.results + [rec], None)
  }

  /** How many futures, in completion order, finish before the first one
      that raised (all of them when none raised). */
  function FinishedPrefix(order: seq<nat>, outcome: Analyzer): (p: nat)
    ensures p <= |order|
    ensures forall k :: 0 <= k < p ==> outcome(order[k]).Finished?
    ensures p < |order| ==> outcome(order[p]).Raised?
    decreases |order|
  {
    if order == [] then 0
    else
      var n := |order| - 1;
      var p := FinishedPrefix(order[..n], outcome);
      assert forall k :: 0 <= k < p ==> order[..n][k] == order[k];
      if p < n then (assert order[..n][p] == order[p]; p)
      else if outcome(order[n]).Finished? then n + 1
      else n
  }

  /** The record payloads of the result events, in stream order. */
  function StreamedRecords(events: seq<PyEvent>): seq<Record> {
    if events == [] then []
    else (if events[0].PyResult? then [events[0].record] else []) + StreamedRecords(events[1..])
  }

  lemma {:induction false} CollectSnoc(items: seq<WorkItem>, order: seq<nat>, j: nat, outcome: Analyzer)
    requires InBounds(order, |items|) && j < |order|
    ensures InBounds(order[..j], |items|) && InBounds(order[..j + 1], |items|)
    ensures var before := Collect(items, order[..j], outcome);
      Collect(items, order[..j + 1], outcome)
      == if before.crash.Some? then before
         else match outcome(order[j])
           case Raised(e) => Collected(before.events, before.results, Some(e))
           case Finished(t, ms) =>
             Collected(before.events + [PyProgress(j + 1, |items|, Basename(items[order[j]].primary)),
                                        PyResult(NormalizeResult(t, ms))],
                       before.results + [NormalizeResult(t, ms)], None)
  {
    assert order[..j + 1][..j] == order[..j];
    assert order[..j + 1][j] == order[j];
  }

  /** Once the loop has stopped on an exception, later futures change nothing. */
  lemma {:induction false} CrashIsFinal(items: seq<WorkItem>, order: seq<nat>, j: nat, m: nat, outcome: Analyzer)
    requires InBounds(order, |items|) && j <= m <= |order|
    requires Collect(items, order[..j], outcome).crash.Some?
    ensures Collect(items, order[..m], outcome) == Collect(items, order[..j], outcome)
    decreases m - j
  {
    if j < m {
      CollectSnoc(items, order, j, outcome);
      CrashIsFinal(items, order, j + 1, m, outcome);
    }
  }

  /** The main-thread loop of `run_movie` / `run_series`. */
  method RunCollector(items: seq<WorkItem>, order: seq<nat>, outcome: Analyzer)
    returns (events: seq<PyEvent>, results: seq<Record>, crash: Option<string>)
    requires InBounds(order, |items|)
    ensures Collected(events, results, crash) == Collect(items, order, outcome)
  {
    var total := |items|;
    var processed := 0;
    events, results, crash := [], [], None;
    for j := 0 to |order|
      invariant processed == j
      invariant crash.None? && Collected(events, results, None) == Collect(items, order[..j], outcome)
    {
      processed := processed + 1;
      var i := order[j];
      CollectSnoc(items, order, j, outcome);
      match outcome(i) {
        case Raised(e) =>
          crash := Some(e);
          CrashIsFinal(items, order, j + 1, |order|, outcome);
          assert order[..|order|] == order;
          return;
        case Finished(t, ms) =>
          var normalized := NormalizeResult(t, ms);
          results := results + [normalized];
          events := events + [PyProgress(processed, total, Basename(items[i].primary)), PyResult(normalized)];
      }
    }
    assert order[..|order|] == order;
  }

  // ---- The whole runs ----------------------------------------------------

  /** The events and the uncaught exception, if any, of one batch. */
  datatype BatchRun = BatchRun(events: seq<PyEvent>, crash: Option<string>)

  const EMPTY_DONE: BatchRun := BatchRun([PyDone([])], None)

  /** An exception raised before any line was written. */
  function RaisedEarly(e: string): BatchRun {
    BatchRun([], Some(e))
  }

  /** The collector's events followed by the final `done`, which is written
      only when no worker raised. */
  function Batch(logs: seq<PyEvent>, c: Collected): BatchRun {
    BatchRun(logs + c.events + (if c.crash.None? then [PyDone(c.results)] else []), c.crash)
  }

  function MovieItems(videos: seq<string>, audio: string): (items: seq<WorkItem>)
    ensures |items| == |videos|
  {
    seq(|videos|, k requires 0 <= k < |videos| => WorkItem(videos[k], audio))
  }

  function ExplicitFiles(req: Request): seq<string> {
    req.videoFiles.GetOr([])
  }

  function MovieLogs(total: nat, audio: string): seq<PyEvent> {
    [PyLog("Movie mode: " + NatToString(total) + " video files queued."),
     PyLog("Audio file: " + Basename(audio))]
  }

  /** The part of `run_movie` after its guards: two log lines, then the batch. */
  function MovieBatch(audio: string, videos: seq<string>, schedule: Schedule, outcome: Analyzer): BatchRun
    requires ValidSchedule(schedule)
  {
    assert IsPermutation(schedule(|videos|), |videos|);
    Batch(MovieLogs(|videos|, audio), Collect(MovieItems(videos, audio), schedule(|videos|), outcome))
  }

  /** `run_movie`. */
  function MovieRun(req: Request, glob: Glob, schedule: Schedule, outcome: Analyzer): BatchRun
    requires ValidSchedule(schedule)
  {
    var explicit := ExplicitFiles(req);
    if req.segmentError.Some? then RaisedEarly(req.segmentError.value)
    else if !Truthy(req.audioFile) then EMPTY_DONE
    else if !Truthy(req.videoFolder) && explicit == [] then EMPTY_DONE
    else
      var videos := ListMovieVideos(req.videoFolder, explicit, glob);
      if |videos| == 0 then EMPTY_DONE
      else MovieBatch(req.audioFile.value, videos, schedule, outcome)
  }

  method RunMovie(req: Request, glob: Glob, schedule: Schedule, outcome: Analyzer) returns (run: BatchRun)
    requires ValidSchedule(schedule)
    ensures run == MovieRun(req, glob, schedule, outcome)
  {
    var explicit := req.videoFiles.GetOr([]);
    if req.segmentError.Some? {
      return BatchRun([], req.segmentError);
    }
    if !Truthy(req.audioFile) {
      return BatchRun([PyDone([])], None);
    }
    if !Truthy(req.videoFolder) && explicit == [] {
      return BatchRun([PyDone([])], None);
    }
    var videos := ListMovieVideos(req.videoFolder, explicit, glob);
    var total := |videos|;
    if total == 0 {
      return BatchRun([PyDone([])], None);
    }
    var events := [PyLog("Movie mode: " + NatToString(total) + " video files queued.")];
    events := events + [PyLog("Audio file: " + Basename(req.audioFile.value))];
    ghost var logs := MovieLogs(total, req.audioFile.value);
    assert events == logs;
    var order := schedule(total);
    assert IsPermutation(order, total);
    var items := MovieItems(videos, req.audioFile.value);
    var streamed, results, crash := RunCollector(items, order, outcome);
    events := events + streamed;
    if crash.None? {
      events := events + [PyDone(results)];
    }
    run := BatchRun(events, crash);
    assert run == Batch(logs, Collect(items, order, outcome));
    assert run == MovieBatch(req.audioFile.value, videos, schedule, outcome);
  }

  const NO_PAIRS_LOG: string := "No matching file pairs found."

  /** `series_logic.find_matching_files(video_folder, audio_folder, pattern)`:
      the matched pairs, or the text of the exception it raises. */
  type Matcher = (string, string, Option<string>) -> Result<seq<WorkItem>, string>

  function SeriesLogs(total: nat, videoFolder: string, audioFolder: string, pattern: Option<string>): seq<PyEvent> {
    [PyLog("Series mode: matched " + NatToString(total) + " file pairs."),
     PyLog("Video folder: " + videoFolder),
     PyLog("Audio folder: " + audioFolder)]
    + (if Truthy(pattern) then [PyLog("Match pattern: " + pattern.value)] else [])
  }

  /** `run_series`. */
  function SeriesRun(req: Request, matcher: Matcher, schedule: Schedule, outcome: Analyzer): BatchRun
    requires ValidSchedule(schedule)
  {
    if req.segmentError.Some? then RaisedEarly(req.segmentError.value)
    else if !Truthy(req.videoFolder) || !Truthy(req.audioFolder) then EMPTY_DONE
    else match matcher(req.videoFolder.value, req.audioFolder.value, req.matchPattern)
    case Err(e) => RaisedEarly(e)
    case Ok(pairs) =>
      var total := |pairs|;
      if total == 0 then BatchRun([PyLog(NO_PAIRS_LOG), PyDone([])], None)
      else
        assert IsPermutation(schedule(total), total);
        Batch(SeriesLogs(total, req.videoFolder.value, req.audioFolder.value, req.matchPattern),
              Collect(pairs, schedule(total), outcome))
  }

  method RunSeries(req: Request, matcher: Matcher, schedule: Schedule, outcome: Analyzer) returns (run: BatchRun)
    requires ValidSchedule(schedule)
    ensures run == SeriesRun(req, matcher, schedule, outcome)
  {
    if req.segmentError.Some? {
      return BatchRun([], req.segmentError);
    }
    if !Truthy(req.videoFolder) || !Truthy(req.audioFolder) {
      return BatchRun([PyDone([])], None);
    }
    var videoFolder, audioFolder := req.videoFolder.value, req.audioFolder.value;
    var matched := matcher(videoFolder, audioFolder, req.matchPattern);
    if matched.Err? {
      return BatchRun([], Some(matched.error));
    }
    var pairs := matched.value;
    var total := |pairs|;
    if total == 0 {
      return BatchRun([PyLog(NO_PAIRS_LOG), PyDone([])], None);
    }
    var events := [PyLog("Series mode: matched " + NatToString(total) + " file pairs.")];
    events := events + [PyLog("Video folder: " + videoFolder)];
    events := events + [PyLog("Audio folder: " + audioFolder)];
    if Truthy(req.matchPattern) {
      events := events + [PyLog("Match pattern: " + req.matchPattern.value)];
    }
    ghost var logs := SeriesLogs(total, videoFolder, audioFolder, req.matchPattern);
    assert events == logs;
    var order := schedule(total);
    assert IsPermutation(order, total);
    var streamed, results, crash := RunCollector(pairs, order, outcome);
    events := events + streamed;
    if crash.None? {
      events := events + [PyDone(results)];
    }
    run := BatchRun(events, crash);
    assert run == Batch(logs, Collect(pairs, order, outcome));
  }

  // ---- main --------------------------------------------------------------

  /** What the process leaves behind: its stdout events, its stderr text and
      its exit status. An uncaught exception's traceback is represented by
      the exception's text. */
  datatype Exit = Exit(events: seq<PyEvent>, stderr: string, code: nat)

  /** `json.loads` on the payload, read as a request, or the decoder's message. */
  type RequestParser = string -> Result<Request, string>

  /** `str(mode)` for the message about an unknown mode. */
  function ModeText(mode: Option<string>): string {
    match mode
    case None => "None"
    case Some(m) => m
  }

  function ExitOf(run: BatchRun): Exit {
    match run.crash
    case None => Exit(run.events, "", 0)
    case Some(e) => Exit(run.events, e, 1)
  }

  /** `main`: read the payload, parse it, dispatch on the mode. */
  function Process(payload: string, parse: RequestParser, glob: Glob, matcher: Matcher,
                   schedule: Schedule, outcome: Analyzer): Exit
    requires ValidSchedule(schedule)
  {
    if IsPythonBlank(payload) then Exit([], "No input provided.\n", 1)
    else
      match parse(payload)
      case Err(e) => Exit([], "Invalid JSON input: " + e + "\n", 1)
      case Ok(req) =>
        if req.mode == Some("movie") then ExitOf(MovieRun(req, glob, schedule, outcome))
        else if req.mode == Some("series") then ExitOf(SeriesRun(req, matcher, schedule, outcome))
        else Exit([], "Unknown mode: " + ModeText(req.mode) + "\n", 1)
  }

  method BridgeMain(payload: string, parse: RequestParser, glob: Glob, matcher: Matcher,
                    schedule: Schedule, outcome: Analyzer) returns (exit: Exit)
    requires ValidSchedule(schedule)
    ensures exit == Process(payload, parse, glob, matcher, schedule, outcome)
  {
    if IsPythonBlank(payload) {
      return Exit([], "No input provided.\n", 1);
    }
    var parsed := parse(payload);
    if parsed.Err? {
      return Exit([], "Invalid JSON input: " + parsed.error + "\n", 1);
    }
    var req := parsed.value;
    var run: BatchRun;
    if req.mode == Some("movie") {
      run := RunMovie(req, glob, schedule, outcome);
    } else if req.mode == Some("series") {
      run := RunSeries(req, matcher, schedule, outcome);
    } else {
      return Exit([], "Unknown mode: " + ModeText(req.mode) + "\n", 1);
    }
    if run.crash.Some? {
      return Exit(run.events, run.crash.value, 1);
    }
    exit := Exit(run.events, "", 0);
  }

  // ---- Properties: paths and records -------------------------------------

  /** The basename holds no '/' and is what follows the last '/'. */
  lemma {:induction false} BasenameIsLastComponent(p: string)
    ensures '/' !in Basename(p)
    ensures exists k :: 0 <= k <= |p| && Basename(p) == p[k..] && (k == 0 || p[k - 1] == '/')
  {
    assert Basename(p) == p[AfterLastSlash(p)..];
  }

  /** `normalize_result` keeps the delays and the error, reduces the two
      paths to their basenames and attaches the elapsed time. */
  lemma {:induction false} NormalizeResultFields(t: ResultTuple, elapsedMs: int)
    ensures var r := NormalizeResult(t, elapsedMs);
      && '/' !in r.videoFile && '/' !in r.audioFile
      && r.videoFile == Basename(t.primary) && r.audioFile == Basename(t.secondary)
      && r.startDelay == t.startDelay && r.endDelay == t.endDelay && r.error == t.error
      && r.elapsedMs == elapsedMs
  {
    BasenameIsLastComponent(t.primary);
    BasenameIsLastComponent(t.secondary);
  }

  /** Every globbed movie path is a match of one of the five patterns in the folder. */
  lemma {:induction false} GlobEachSources(folder: string, patterns: seq<string>, glob: Glob, path: string)
    ensures path in GlobEach(folder, patterns, glob) <==>
      exists k :: 0 <= k < |patterns| && path in glob(JoinPath(folder, patterns[k]))
  {
    if patterns != [] {
      GlobEachSources(folder, patterns[1..], glob, path);
      if exists k :: 0 <= k < |patterns| && path in glob(JoinPath(folder, patterns[k])) {
        var k :| 0 <= k < |patterns| && path in glob(JoinPath(folder, patterns[k]));
        if k > 0 {
          assert patterns[1..][k - 1] == patterns[k];
        }
      }
      if path in GlobEach(folder, patterns[1..], glob) {
        var k :| 0 <= k < |patterns[1..]| && path in glob(JoinPath(folder, patterns[1..][k]));
        assert patterns[k + 1] == patterns[1..][k];
      }
    }
  }

  /** Without an explicit list, the movie list is exactly the paths the five
      extension patterns match in the folder. */
  lemma {:induction false} GlobbedVideos(folder: string, glob: Glob, path: string)
    ensures path in ListMovieVideos(Some(folder), [], glob) <==>
      exists k :: 0 <= k < |MOVIE_PATTERNS| && path in glob(JoinPath(folder, MOVIE_PATTERNS[k]))
  {
    GlobEachSources(folder, MOVIE_PATTERNS, glob, path);
  }

  // ---- Properties: the collector -----------------------------------------

  /** The shape of what the loop produces. With p the number of futures that
      finish before the first one that raised: the loop wrote exactly p
      progress events, numbered 1..p, each followed at once by the result
      event of the same future; it kept those p records in completion order;
      and it crashed if and only if p falls short of the number of futures,
      with the error of the future it stopped on. */
  lemma {:induction false} CollectShape(items: seq<WorkItem>, order: seq<nat>, outcome: Analyzer)
    requires InBounds(order, |items|)
    ensures var c := Collect(items, order, outcome);
      var p := FinishedPrefix(order, outcome);
      && (c.crash.None? <==> p == |order|)
      && (c.crash.Some? ==> c.crash == Some(outcome(order[p]).error))
      && |c.results| == p && |c.events| == 2 * p
      && (forall k :: 0 <= k < p ==> c.results[k] == RecordOf(outcome(order[k])))
      && (forall k :: 0 <= k < p ==>
            c.events[2 * k] == PyProgress(k + 1, |items|, Basename(items[order[k]].primary))
            && c.events[2 * k + 1] == PyResult(c.results[k]))
    decreases |order|
  {
    if order != [] {
      var n := |order| - 1;
      var pre := order[..n];
      assert forall k :: 0 <= k < n ==> pre[k] == order[k];
      CollectShape(items, pre, outcome);
      var before := Collect(items, pre, outcome);
      var c := Collect(items, order, outcome);
      var pb := FinishedPrefix(pre, outcome);
      if before.crash.Some? {
        assert c == before;
        assert pb < n;
        assert FinishedPrefix(order, outcome) == pb;
      } else if outcome(order[n]).Raised? {
        assert pb == n;
        assert FinishedPrefix(order, outcome) == n;
        assert c == Collected(before.events, before.results, Some(outcome(order[n]).error));
      } else {
        assert pb == n;
        assert FinishedPrefix(order, outcome) == n + 1;
        CollectFinishedStep(items, order, outcome);
      }
    }
  }

  /** The step of CollectShape where the last future finishes. */
  lemma {:induction false} CollectFinishedStep(items: seq<WorkItem>, order: seq<nat>, outcome: Analyzer)
    requires InBounds(order, |items|) && order != []
    requires var n := |order| - 1; Collect(items, order[..n], outcome).crash.None? && outcome(order[n]).Finished?
    requires forall k :: 0 <= k < |order| ==> outcome(order[k]).Finished?
    requires var n := |order| - 1; var before := Collect(items, order[..n], outcome);
      && |before.results| == n && |before.events| == 2 * n
      && (forall k :: 0 <= k < n ==> before.results[k] == RecordOf(outcome(order[k])))
      && (forall k :: 0 <= k < n ==>
            before.events[2 * k] == PyProgress(k + 1, |items|, Basename(items[order[k]].primary))
            && before.events[2 * k + 1] == PyResult(before.results[k]))
    ensures var c := Collect(items, order, outcome); var n := |order| - 1;
      && c.crash.None?
      && |c.results| == n + 1 && |c.events| == 2 * (n + 1)
      && (forall k :: 0 <= k < n + 1 ==> c.results[k] == RecordOf(outcome(order[k])))
      && (forall k :: 0 <= k < n + 1 ==>
            c.events[2 * k] == PyProgress(k + 1, |items|, Basename(items[order[k]].primary))
            && c.events[2 * k + 1] == PyResult(c.results[k]))
  {
    var n := |order| - 1;
    var before := Collect(items, order[..n], outcome);
    var rec := RecordOf(outcome(order[n]));
    var c := Collect(items, order, outcome);
    assert c.results == before.results + [rec];
    assert c.events == before.events + [PyProgress(n + 1, |items|, Basename(items[order[n]].primary)), PyResult(rec)];
  }

  lemma {:induction false} StreamedRecordsAppend(a: seq<PyEvent>, b: seq<PyEvent>)
    ensures StreamedRecords(a + b) == StreamedRecords(a) + StreamedRecords(b)
  {
    if a == [] {
      assert a + b == b;
    } else {
      assert (a + b)[0] == a[0];
      assert (a + b)[1..] == a[1..] + b;
      StreamedRecordsAppend(a[1..], b);
    }
  }

  /** The records the loop keeps are exactly the payloads of the result
      events it wrote, in the same order. */
  lemma {:induction false} KeptIsStreamed(items: seq<WorkItem>, order: seq<nat>, outcome: Analyzer)
    requires InBounds(order, |items|)
    ensures StreamedRecords(Collect(items, order, outcome).events) == Collect(items, order, outcome).results
    decreases |order|
  {
    if order != [] {
      var n := |order| - 1;
      var before := Collect(items, order[..n], outcome);
      KeptIsStreamed(items, order[..n], outcome);
      if before.crash.None? && outcome(order[n]).Finished? {
        var rec := RecordOf(outcome(order[n]));
        var step := [PyProgress(|order|, |items|, Basename(items[order[n]].primary)), PyResult(rec)];
        StreamedRecordsAppend(before.events, step);
        assert StreamedRecords(step) == [rec] by {
          assert step[1..] == [PyResult(rec)];
          assert step[1..][1..] == [];
          assert StreamedRecords(step[1..]) == [rec] + StreamedRecords([]);
        }
      }
    }
  }

  /** `order` reindexed: the element of xs each position of order names. */
  function Permuted<T>(xs: seq<T>, order: seq<nat>): (r: seq<T>)
    requires InBounds(order, |xs|)
    ensures |r| == |order| && forall k :: 0 <= k < |order| ==> r[k] == xs[order[k]]
  {
    seq(|order|, k requires 0 <= k < |order| => xs[order[k]])
  }

  lemma {:induction false} PermutedAppend<T>(xs: seq<T>, a: seq<nat>, b: seq<nat>)
    requires InBounds(a, |xs|) && InBounds(b, |xs|)
    ensures InBounds(a + b, |xs|)
    ensures Permuted(xs, a + b) == Permuted(xs, a) + Permuted(xs, b)
  {
    assert forall k :: 0 <= k < |a + b| ==> (a + b)[k] == if k < |a| then a[k] else b[k - |a|];
  }

  /** Taking out the element at j. */
  lemma {:induction false} RemoveAt(t: seq<nat>, j: nat, n: nat)
    requires j < |t| && InBounds(t, n)
    ensures t == t[..j] + [t[j]] + t[j + 1..]
    ensures multiset(t[..j] + t[j + 1..]) == multiset(t) - multiset{t[j]}
    ensures InBounds(t[..j] + t[j + 1..], n)
  {
    var u := t[..j] + t[j + 1..];
    assert t == t[..j] + [t[j]] + t[j + 1..];
    forall k | 0 <= k < |u| ensures u[k] < n {
      if k < j { assert u[k] == t[k]; } else { assert u[k] == t[k + 1]; }
    }
  }

  /** Reindexing by t yields the element t[j] names plus the reindexing by
      t without position j. */
  lemma {:induction false} PermutedSplit<T>(xs: seq<T>, t: seq<nat>, j: nat)
    requires InBounds(t, |xs|) && j < |t|
    ensures InBounds(t[..j] + t[j + 1..], |xs|)
    ensures multiset(Permuted(xs, t)) == multiset{xs[t[j]]} + multiset(Permuted(xs, t[..j] + t[j + 1..]))
  {
    RemoveAt(t, j, |xs|);
    assert InBounds(t[..j], |xs|) && InBounds(t[j + 1..], |xs|) && InBounds([t[j]], |xs|);
    PermutedAppend(xs, t[..j], [t[j]]);
    PermutedAppend(xs, t[..j] + [t[j]], t[j + 1..]);
    PermutedAppend(xs, t[..j], t[j + 1..]);
    assert Permuted(xs, [t[j]]) == [xs[t[j]]];
  }

  lemma {:induction false} PermutedPreservesMultiset<T>(xs: seq<T>, s: seq<nat>, t: seq<nat>)
    requires InBounds(s, |xs|) && InBounds(t, |xs|)
    requires multiset(s) == multiset(t)
    ensures multiset(Permuted(xs, s)) == multiset(Permuted(xs, t))
    decreases |s|
  {
    if s == [] {
      assert |multiset(t)| == 0;
      assert t == [];
    } else {
      var x := s[0];
      assert x in multiset(t);
      var j :| 0 <= j < |t| && t[j] == x;
      var u := t[..j] + t[j + 1..];
      RemoveAt(t, j, |xs|);
      RemoveAt(s, 0, |xs|);
      assert s[..0] + s[1..] == s[1..];
      PermutedPreservesMultiset(xs, s[1..], u);
      PermutedSplit(xs, s, 0);
      PermutedSplit(xs, t, j);
    }
  }

  /** The record of every work item, in submission order. */
  function ItemRecords(outcome: Analyzer, n: nat): (r: seq<Record>)
    requires forall i :: 0 <= i < n ==> outcome(i).Finished?
    ensures |r| == n
  {
    seq(n, i requires 0 <= i < n => RecordOf(outcome(i)))
  }

  /** Where a permutation puts index i. */
  lemma {:induction false} PositionOf(order: seq<nat>, n: nat, i: nat) returns (k: nat)
    requires IsPermutation(order, n) && i < n
    ensures k < |order| && order[k] == i
  {
    assert Range(n)[i] == i;
    assert i in multiset(order);
    k :| 0 <= k < |order| && order[k] == i;
  }

  /** A loop that did not crash read every future's result, in order. */
  lemma {:induction false} CleanCollect(items: seq<WorkItem>, order: seq<nat>, outcome: Analyzer)
    requires InBounds(order, |items|)
    requires Collect(items, order, outcome).crash.None?
    ensures forall k :: 0 <= k < |order| ==> outcome(order[k]).Finished?
    ensures var c := Collect(items, order, outcome);
      |c.results| == |order| && forall k :: 0 <= k < |order| ==> c.results[k] == RecordOf(outcome(order[k]))
  {
    CollectShape(items, order, outcome);
  }

  /** When no worker raised, every item finished, and the kept records are
      the items' records in completion order: a permutation of the records
      in submission order, one per item. */
  lemma {:induction false} KeptIsPermutationOfItems(items: seq<WorkItem>, order: seq<nat>, outcome: Analyzer)
    requires IsPermutation(order, |items|)
    requires Collect(items, order, outcome).crash.None?
    ensures forall i :: 0 <= i < |items| ==> outcome(i).Finished?
    ensures Collect(items, order, outcome).results == Permuted(ItemRecords(outcome, |items|), order)
    ensures multiset(Collect(items, order, outcome).results) == multiset(ItemRecords(outcome, |items|))
  {
    var n := |items|;
    CleanCollect(items, order, outcome);
    forall i | 0 <= i < n
      ensures outcome(i).Finished?
    {
      var k := PositionOf(order, n, i);
    }
    var xs := ItemRecords(outcome, n);
    PermutedPreservesMultiset(xs, order, Range(n));
    assert Permuted(xs, Range(n)) == xs;
  }

  // ---- Properties: the runs ----------------------------------------------

  predicate NoDone(events: seq<PyEvent>) {
    forall k :: 0 <= k < |events| ==> !events[k].PyDone?
  }

  lemma {:induction false} CollectWritesNoDone(items: seq<WorkItem>, order: seq<nat>, outcome: Analyzer)
    requires InBounds(order, |items|)
    ensures NoDone(Collect(items, order, outcome).events)
  {
    CollectShape(items, order, outcome);
    var c := Collect(items, order, outcome);
    forall j | 0 <= j < |c.events|
      ensures !c.events[j].PyDone?
    {
      var k := j / 2;
      assert k < FinishedPrefix(order, outcome);
      if j == 2 * k {
        assert c.events[2 * k].PyProgress?;
      } else {
        assert j == 2 * k + 1;
        assert c.events[2 * k + 1] == PyResult(c.results[k]);
      }
    }
  }

  /** A batch that was set up (it logged and ran the collector) ends in a
      single `done` carrying exactly the streamed records when no worker
      raised, and writes no `done` at all when one did. */
  predicate WellFormedBatch(run: BatchRun) {
    if run.crash.Some? then NoDone(run.events)
    else
      && |run.events| > 0 && NoDone(run.events[..|run.events| - 1])
      && run.events[|run.events| - 1] == PyDone(StreamedRecords(run.events[..|run.events| - 1]))
  }

  lemma {:induction false} LogsStreamNothing(logs: seq<PyEvent>)
    requires forall k :: 0 <= k < |logs| ==> logs[k].PyLog?
    ensures StreamedRecords(logs) == [] && NoDone(logs)
  {
    if logs != [] {
      LogsStreamNothing(logs[1..]);
    }
  }

  lemma {:induction false} NoDoneAppend(a: seq<PyEvent>, b: seq<PyEvent>)
    requires NoDone(a) && NoDone(b)
    ensures NoDone(a + b)
  {
    forall k | 0 <= k < |a + b| ensures !(a + b)[k].PyDone? {
      if k >= |a| { assert (a + b)[k] == b[k - |a|]; }
    }
  }

  /** Events free of `done` followed by a `done` of exactly their records. */
  lemma {:induction false} ClosedBodyIsWellFormed(body: seq<PyEvent>)
    requires NoDone(body)
    ensures WellFormedBatch(BatchRun(body + [PyDone(StreamedRecords(body))], None))
  {
    var events := body + [PyDone(StreamedRecords(body))];
    assert events[..|events| - 1] == body;
  }

  lemma {:induction false} BatchIsWellFormed(logs: seq<PyEvent>, items: seq<WorkItem>, order: seq<nat>, outcome: Analyzer)
    requires forall k :: 0 <= k < |logs| ==> logs[k].PyLog?
    requires InBounds(order, |items|)
    ensures WellFormedBatch(Batch(logs, Collect(items, order, outcome)))
  {
    var c := Collect(items, order, outcome);
    LogsStreamNothing(logs);
    CollectWritesNoDone(items, order, outcome);
    NoDoneAppend(logs, c.events);
    if c.crash.None? {
      KeptIsStreamed(items, order, outcome);
      StreamedRecordsAppend(logs, c.events);
      assert StreamedRecords(logs + c.events) == [] + c.results == c.results;
      ClosedBodyIsWellFormed(logs + c.events);
      assert Batch(logs, c) == BatchRun((logs + c.events) + [PyDone(StreamedRecords(logs + c.events))], None);
    }
  }

  /** Every run of `run_movie` is well formed. A segment duration that
      `float()` rejects raises before any line is written. Its early returns write a
      single empty `done` and do no work, whatever the folder holds and
      whatever the analyzer would do: when the audio file is missing, when
      there is neither a folder nor an explicit list, or when no video is
      found. Otherwise it logs the count and the audio file's basename and
      the count matches the number of work items. */
  lemma {:induction false} MovieRunShape(req: Request, glob: Glob, schedule: Schedule, outcome: Analyzer)
    requires ValidSchedule(schedule)
    ensures var run := MovieRun(req, glob, schedule, outcome);
      && WellFormedBatch(run)
      && (req.segmentError.Some? ==> run == RaisedEarly(req.segmentError.value))
      && (req.segmentError.None? && !Truthy(req.audioFile) ==> run == EMPTY_DONE)
      && (req.segmentError.None? && !Truthy(req.videoFolder) && ExplicitFiles(req) == [] ==> run == EMPTY_DONE)
      && (req.segmentError.None? && Truthy(req.audioFile) && (Truthy(req.videoFolder) || ExplicitFiles(req) != []) ==>
            var videos := ListMovieVideos(req.videoFolder, ExplicitFiles(req), glob);
            if videos == [] then run == EMPTY_DONE
            else
              && |run.events| >= 2
              && run.events[0] == PyLog("Movie mode: " + NatToString(|videos|) + " video files queued.")
              && run.events[1] == PyLog("Audio file: " + Basename(req.audioFile.value)))
  {
    var explicit := ExplicitFiles(req);
    if req.segmentError.None? && Truthy(req.audioFile) && (Truthy(req.videoFolder) || explicit != []) {
      var videos := ListMovieVideos(req.videoFolder, explicit, glob);
      if videos != [] {
        var logs := [PyLog("Movie mode: " + NatToString(|videos|) + " video files queued."),
                     PyLog("Audio file: " + Basename(req.audioFile.value))];
        var items := MovieItems(videos, req.audioFile.value);
        assert IsPermutation(schedule(|videos|), |videos|);
        BatchIsWellFormed(logs, items, schedule(|videos|), outcome);
        assert MovieRun(req, glob, schedule, outcome) == Batch(logs, Collect(items, schedule(|videos|), outcome));
      }
    }
  }

  /** With a non-empty explicit list, the movie batch works on that list:
      one work item per listed path, in that order, each paired with the
      audio file. */
  lemma {:induction false} ExplicitFilesWin(req: Request, glob: Glob)
    requires Truthy(req.audioFile) && ExplicitFiles(req) != []
    ensures MovieItems(ListMovieVideos(req.videoFolder, ExplicitFiles(req), glob), req.audioFile.value)
         == seq(|ExplicitFiles(req)|, k requires 0 <= k < |ExplicitFiles(req)| => WorkItem(ExplicitFiles(req)[k], req.audioFile.value))
  {
  }

  /** Every run of `run_series` is well formed. A segment duration that
      `float()` rejects, or a matcher that raises, ends the run before any
      line is written; a missing folder gives a single empty `done`, no
      match logs the fact and then an empty `done`; the match pattern is
      logged only when it is non-empty. */
  lemma {:induction false} SeriesRunShape(req: Request, matcher: Matcher, schedule: Schedule, outcome: Analyzer)
    requires ValidSchedule(schedule)
    ensures var run := SeriesRun(req, matcher, schedule, outcome);
      && WellFormedBatch(run)
      && (req.segmentError.Some? ==> run == RaisedEarly(req.segmentError.value))
      && (req.segmentError.None? && (!Truthy(req.videoFolder) || !Truthy(req.audioFolder)) ==> run == EMPTY_DONE)
      && (req.segmentError.None? && Truthy(req.videoFolder) && Truthy(req.audioFolder) ==>
            var matched := matcher(req.videoFolder.value, req.audioFolder.value, req.matchPattern);
            if matched.Err? then run == RaisedEarly(matched.error)
            else if matched.value == [] then run == BatchRun([PyLog(NO_PAIRS_LOG), PyDone([])], None)
            else
              var logs := SeriesLogs(|matched.value|, req.videoFolder.value, req.audioFolder.value, req.matchPattern);
              && |logs| == (if Truthy(req.matchPattern) then 4 else 3)
              && run.events[..|logs|] == logs)
  {
    var matched := matcher(req.videoFolder.GetOr(""), req.audioFolder.GetOr(""), req.matchPattern);
    if req.segmentError.None? && Truthy(req.videoFolder) && Truthy(req.audioFolder) && matched.Ok? {
      var pairs := matched.value;
      if pairs == [] {
        var run := BatchRun([PyLog(NO_PAIRS_LOG), PyDone([])], None);
        assert run.events[..1] == [PyLog(NO_PAIRS_LOG)];
      } else {
        var logs := SeriesLogs(|pairs|, req.videoFolder.value, req.audioFolder.value, req.matchPattern);
        assert IsPermutation(schedule(|pairs|), |pairs|);
        BatchIsWellFormed(logs, pairs, schedule(|pairs|), outcome);
        var c := Collect(pairs, schedule(|pairs|), outcome);
        var run := Batch(logs, c);
        assert run.events == logs + (c.events + (if c.crash.None? then [PyDone(c.results)] else []));
      }
    } else if req.segmentError.None? && (!Truthy(req.videoFolder) || !Truthy(req.audioFolder)) {
      assert EMPTY_DONE.events[..0] == [];
    }
  }

  /** `main` writes nothing to stdout and exits with status 1, without
      running a batch, when the payload is blank, is not valid JSON or names
      no known mode. */
  lemma {:induction false} MainRejects(payload: string, parse: RequestParser, glob: Glob, matcher: Matcher,
                                       schedule: Schedule, outcome: Analyzer)
    requires ValidSchedule(schedule)
    requires || IsPythonBlank(payload)
             || parse(payload).Err?
             || (parse(payload).Ok? && parse(payload).value.mode != Some("movie") && parse(payload).value.mode != Some("series"))
    ensures var exit := Process(payload, parse, glob, matcher, schedule, outcome);
      && exit.code == 1 && exit.events == []
      && (IsPythonBlank(payload) ==> exit.stderr == "No input provided.\n")
      && (!IsPythonBlank(payload) && parse(payload).Err? ==>
            exit.stderr == "Invalid JSON input: " + parse(payload).error + "\n")
      && (!IsPythonBlank(payload) && parse(payload).Ok? ==>
            exit.stderr == "Unknown mode: " + ModeText(parse(payload).value.mode) + "\n")
  {
  }

  /** An exception raised while a known mode sets up its batch, before any
      job is submitted: the segment duration's `float()` conversion in either
      mode, or `find_matching_files` in series mode once both folders are
      given. `main` then writes nothing to stdout and exits with status 1,
      whatever the folder, the audio file or the listing hold. */
  lemma {:induction false} MainSetupRaises(payload: string, parse: RequestParser, glob: Glob, matcher: Matcher,
                                           schedule: Schedule, outcome: Analyzer)
    requires ValidSchedule(schedule)
    requires !IsPythonBlank(payload) && parse(payload).Ok?
    requires parse(payload).value.mode == Some("movie") || parse(payload).value.mode == Some("series")
    ensures var req := parse(payload).value;
      var exit := Process(payload, parse, glob, matcher, schedule, outcome);
      && (req.segmentError.Some? ==> exit == Exit([], req.segmentError.value, 1))
      && (req.segmentError.None? && req.mode == Some("series") && Truthy(req.videoFolder) && Truthy(req.audioFolder)
          && matcher(req.videoFolder.value, req.audioFolder.value, req.matchPattern).Err? ==>
            exit == Exit([], matcher(req.videoFolder.value, req.audioFolder.value, req.matchPattern).error, 1))
  {
    var req := parse(payload).value;
    if req.mode == Some("movie") {
      MovieRunShape(req, glob, schedule, outcome);
    } else {
      SeriesRunShape(req, matcher, schedule, outcome);
    }
  }

  /** `main` exits with status 0 exactly when a known mode ran to the end
      without an exception, and then its last line is a `done` carrying
      exactly the records streamed before it. */
  lemma {:induction false} MainExitZero(payload: string, parse: RequestParser, glob: Glob, matcher: Matcher,
                                        schedule: Schedule, outcome: Analyzer)
    requires ValidSchedule(schedule)
    ensures var exit := Process(payload, parse, glob, matcher, schedule, outcome);
      && (exit.code == 0 <==>
            !IsPythonBlank(payload) && parse(payload).Ok?
            && (var req := parse(payload).value;
                || (req.mode == Some("movie") && MovieRun(req, glob, schedule, outcome).crash.None?)
                || (req.mode == Some("series") && SeriesRun(req, matcher, schedule, outcome).crash.None?)))
      && (exit.code == 0 ==>
            && |exit.events| > 0
            && exit.events[|exit.events| - 1] == PyDone(StreamedRecords(exit.events[..|exit.events| - 1])))
  {
    if !IsPythonBlank(payload) && parse(payload).Ok? {
      var req := parse(payload).value;
      if req.mode == Some("movie") {
        MovieRunShape(req, glob, schedule, outcome);
      } else if req.mode == Some("series") {
        SeriesRunShape(req, matcher, schedule, outcome);
      }
    }
  }
}
