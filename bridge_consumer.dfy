/** The host side of a sync run (`run_bridge` in src-tauri/src/lib.rs): a fold
    over the lines the bridge process writes to its standard output. Each line
    is read together with the value of the shared cancel flag at that moment;
    decoding a line into a `BridgeMessage` is the JSON library's business and
    is a parameter here. */
module BridgeConsumer {
  import opened Wrappers
  import opened Text
  import opened HostTypes

  /** One line of the child's standard output, and whether the cancel flag
      was found set when the loop reached it. */
  datatype Observation = Observation(canceled: bool, line: string)

  /** What `child.wait()` gives once standard output is exhausted. */
  datatype ExitStatus = WaitFailed(reason: string) | Exited(success: bool)

  /** The events the host emits to the window while consuming the stream,
      one constructor per event name ("sync-log", "sync-progress", ...). */
  datatype HostEvent =
    | SyncLog(text: string)
    | SyncProgress(processed: U64, total: U64, current: Option<string>)
    | SyncFileStart(file: string)
    | SyncFileEnd(file: string, elapsed: U64)
    | SyncFileProgress(file: string, percent: U8)
    | SyncResultEvent(result: SyncResult)
    | SyncDone(results: seq<SyncResult>)

  /** `serde_json::from_str::<BridgeMessage>`, with the error's text. */
  type Decoder = string -> Result<BridgeMessage, string>

  /** What `run_bridge` returns, and every event it emitted on the way. */
  datatype BridgeRun = BridgeRun(outcome: Result<seq<SyncResult>, string>, emitted: seq<HostEvent>)

  const CANCELED: string := "Canceled"
  const CANCEL_LOG: string := "Sync canceled by user."
  const SYNC_FAILED: string := "Sync process failed"
  const INVALID_PREFIX: string := "Invalid bridge message: "

  /** The `SyncResult` built from a `Result` message: every field copied,
      `elapsed_ms` becoming `elapsedMs`. */
  function AsSyncResult(m: BridgeMessage): SyncResult
    requires m.ResultMsg?
  {
    SyncResult(m.videoFile, m.audioFile, m.startDelay, m.endDelay, m.error, m.elapsedMs)
  }

  /** The accumulator after one decoded message: `Result` pushes, `Done`
      replaces, everything else leaves it alone. */
  function Absorb(acc: seq<SyncResult>, m: BridgeMessage): seq<SyncResult> {
    match m
    case ResultMsg(_, _, _, _, _, _) => acc + [AsSyncResult(m)]
    case Done(finalResults) => finalResults
    case _ => acc
  }

  /** The event forwarded to the window for one decoded message. */
  function Announce(m: BridgeMessage): HostEvent {
    match m
    case Progress(p, t, c) => SyncProgress(p, t, c)
    case FileStart(f) => SyncFileStart(f)
    case FileEnd(f, e) => SyncFileEnd(f, e)
    case FileProgress(f, p) => SyncFileProgress(f, p)
    case Log(text) => SyncLog(text)
    case ResultMsg(_, _, _, _, _, _) => SyncResultEvent(AsSyncResult(m))
    case Done(finalResults) => SyncDone(finalResults)
  }

  /** The accumulator and the emitted events after one line read while the
      cancel flag was clear. */
  datatype Effect = Effect(results: seq<SyncResult>, emitted: seq<HostEvent>)

  function HandleLine(acc: seq<SyncResult>, line: string, decode: Decoder): Effect {
    var t := Trim(line);
    if t == [] then Effect(acc, [])
    else match decode(t)
      case Err(e) => Effect(acc, [SyncLog(INVALID_PREFIX + e)])
      case Ok(m) => Effect(Absorb(acc, m), [Announce(m)])
  }

  /** What one line read with the cancel flag clear does: a blank line
      does nothing; an undecodable one is logged; a `Result` appends exactly
      one `SyncResult` carrying all its fields and forwards it; a `Done`
      replaces the list and forwards it; any other message only forwards. */
  lemma {:induction false} LineEffects(acc: seq<SyncResult>, line: string, decode: Decoder)
    ensures Trim(line) == [] ==> HandleLine(acc, line, decode) == Effect(acc, [])
    ensures Trim(line) != [] && decode(Trim(line)).Err? ==>
      HandleLine(acc, line, decode) == Effect(acc, [SyncLog(INVALID_PREFIX + decode(Trim(line)).error)])
    ensures Trim(line) != [] && decode(Trim(line)).Ok? ==>
      var m := decode(Trim(line)).value;
      && (m.ResultMsg? ==>
            var r := SyncResult(m.videoFile, m.audioFile, m.startDelay, m.endDelay, m.error, m.elapsedMs);
            HandleLine(acc, line, decode) == Effect(acc + [r], [SyncResultEvent(r)]))
      && (m.Done? ==> HandleLine(acc, line, decode) == Effect(m.results, [SyncDone(m.results)]))
      && (!m.ResultMsg? && !m.Done? ==> HandleLine(acc, line, decode) == Effect(acc, [Announce(m)]))
  {
  }

  /** The value returned once the stream has ended. */
  function Finish(acc: seq<SyncResult>, status: ExitStatus): Result<seq<SyncResult>, string> {
    match status
    case WaitFailed(reason) => Err(reason)
    case Exited(success) => if success then Ok(acc) else Err(SYNC_FAILED)
  }

  /** The whole fold, from accumulator `acc` on. */
  function Consume(obs: seq<Observation>, acc: seq<SyncResult>, decode: Decoder, status: ExitStatus): BridgeRun
    decreases |obs|
  {
    if obs == [] then BridgeRun(Finish(acc, status), [])
    else if obs[0].canceled then BridgeRun(Err(CANCELED), [SyncLog(CANCEL_LOG)])
    else
      var e := HandleLine(acc, obs[0].line, decode);
      var rest := Consume(obs[1..], e.results, decode, status);
      BridgeRun(rest.outcome, e.emitted + rest.emitted)
  }

  function Prefixed(emitted: seq<HostEvent>, run: BridgeRun): BridgeRun {
    BridgeRun(run.outcome, emitted + run.emitted)
  }

  lemma {:induction false} ConsumeUnfold(obs: seq<Observation>, acc: seq<SyncResult>, decode: Decoder, status: ExitStatus)
    requires obs != [] && !obs[0].canceled
    ensures Consume(obs, acc, decode, status)
         == Prefixed(HandleLine(acc, obs[0].line, decode).emitted,
                     Consume(obs[1..], HandleLine(acc, obs[0].line, decode).results, decode, status))
  {
  }

  /** One step of the fold: a line read with the cancel flag clear moves its
      effect from the remaining fold into the part already done. */
  lemma {:induction false} ConsumeStep(obs: seq<Observation>, i: nat, acc: seq<SyncResult>, emitted: seq<HostEvent>,
                    decode: Decoder, status: ExitStatus)
    requires i < |obs| && !obs[i].canceled
    ensures Prefixed(emitted, Consume(obs[i..], acc, decode, status))
         == Prefixed(emitted + HandleLine(acc, obs[i].line, decode).emitted,
                     Consume(obs[i + 1..], HandleLine(acc, obs[i].line, decode).results, decode, status))
  {
    assert obs[i..][0] == obs[i] && obs[i..][1..] == obs[i + 1..];
    ConsumeUnfold(obs[i..], acc, decode, status);
    var e := HandleLine(acc, obs[i].line, decode);
    var rest := Consume(obs[i + 1..], e.results, decode, status);
    assert emitted + (e.emitted + rest.emitted) == (emitted + e.emitted) + rest.emitted;
  }

  lemma {:induction false} ConsumeCanceled(obs: seq<Observation>, i: nat, acc: seq<SyncResult>, decode: Decoder, status: ExitStatus)
    requires i < |obs| && obs[i].canceled
    ensures Consume(obs[i..], acc, decode, status) == BridgeRun(Err(CANCELED), [SyncLog(CANCEL_LOG)])
  {
    assert obs[i..][0] == obs[i];
  }

  lemma {:induction false} ConsumeEnd(obs: seq<Observation>, acc: seq<SyncResult>, decode: Decoder, status: ExitStatus)
    ensures Consume(obs[|obs|..], acc, decode, status) == BridgeRun(Finish(acc, status), [])
  {
    assert obs[|obs|..] == [];
  }

  /** The body of the loop of `run_bridge` for a line read with the cancel
      flag clear: trim, skip blanks, decode, dispatch on the message. */
  method HandleOneLine(results: seq<SyncResult>, emitted: seq<HostEvent>, raw: string, decode: Decoder)
    returns (results': seq<SyncResult>, emitted': seq<HostEvent>)
    ensures results' == HandleLine(results, raw, decode).results
    ensures emitted' == emitted + HandleLine(results, raw, decode).emitted
  {
    results', emitted' := results, emitted;
    var line := Trim(raw);
    if line == [] {
      return;
    }
    var message := decode(line);
    match message {
      case Err(e) =>
        emitted' := emitted' + [SyncLog(INVALID_PREFIX + e)];
      case Ok(m) =>
        match m {
          case ResultMsg(v, a, s, e, err, ms) =>
            var result := SyncResult(v, a, s, e, err, ms);
            results' := results' + [result];
            emitted' := emitted' + [SyncResultEvent(result)];
          case Done(finalResults) =>
            results' := finalResults;
            emitted' := emitted' + [SyncDone(results')];
          case _ =>
            emitted' := emitted' + [Announce(m)];
        }
    }
  }

  /** The loop of `run_bridge`, from the first line read to the value returned. */
  method RunBridge(obs: seq<Observation>, decode: Decoder, status: ExitStatus) returns (run: BridgeRun)
    ensures run == Consume(obs, [], decode, status)
  {
    var results: seq<SyncResult> := [];
    var emitted: seq<HostEvent> := [];
    var i := 0;
    while i < |obs|
      invariant 0 <= i <= |obs|
      invariant Consume(obs, [], decode, status) == Prefixed(emitted, Consume(obs[i..], results, decode, status))
    {
      if obs[i].canceled {
        ConsumeCanceled(obs, i, results, decode, status);
        emitted := emitted + [SyncLog(CANCEL_LOG)];
        return BridgeRun(Err(CANCELED), emitted);
      }
      ConsumeStep(obs, i, results, emitted, decode, status);
      results, emitted := HandleOneLine(results, emitted, obs[i].line, decode);
      i := i + 1;
    }
    ConsumeEnd(obs, results, decode, status);
    run := BridgeRun(Finish(results, status), emitted);
  }

  // ---------------------------------------------------------------------
  // What the fold computes
  // ---------------------------------------------------------------------

  predicate NoCancel(obs: seq<Observation>) {
    forall k :: 0 <= k < |obs| ==> !obs[k].canceled
  }

  /** The messages of the lines that are not blank after trimming and that
      decode, in stream order. */
  function Messages(obs: seq<Observation>, decode: Decoder): seq<BridgeMessage> {
    if obs == [] then [] else LineMessage(obs[0].line, decode) + Messages(obs[1..], decode)
  }

  /** The message a single line carries: none when it is blank after
      trimming or does not decode. */
  function LineMessage(line: string, decode: Decoder): seq<BridgeMessage> {
    var t := Trim(line);
    if t != [] && decode(t).Ok? then [decode(t).value] else []
  }

  /** A line that cannot change the accumulator: blank after trimming,
      undecodable, or a message other than `Result` and `Done`. */
  predicate Neutral(line: string, decode: Decoder) {
    var t := Trim(line);
    t == [] || decode(t).Err? || !(decode(t).value.ResultMsg? || decode(t).value.Done?)
  }

  /** The accumulator after a sequence of decoded messages. */
  function Replay(ms: seq<BridgeMessage>, acc: seq<SyncResult>): seq<SyncResult> {
    if ms == [] then acc else Replay(ms[1..], Absorb(acc, ms[0]))
  }

  /** The `SyncResult`s carried by the `Result` messages, in order. */
  function ResultsOf(ms: seq<BridgeMessage>): seq<SyncResult> {
    if ms == [] then []
    else (if ms[0].ResultMsg? then [AsSyncResult(ms[0])] else []) + ResultsOf(ms[1..])
  }

  predicate NoDone(ms: seq<BridgeMessage>) {
    forall k :: 0 <= k < |ms| ==> !ms[k].Done?
  }

  /** The position of the last `Done` message, if there is one. */
  function LastDone(ms: seq<BridgeMessage>): (r: Option<nat>)
    ensures r.Some? ==> r.value < |ms| && ms[r.value].Done? && NoDone(ms[r.value + 1..])
    ensures r.None? ==> NoDone(ms)
  {
    if ms == [] then None
    else if ms[|ms| - 1].Done? then Some(|ms| - 1)
    else
      var r := LastDone(ms[..|ms| - 1]);
      if r.Some? then
        assert forall k :: r.value + 1 <= k < |ms| - 1 ==> ms[..|ms| - 1][k] == ms[k];
        r
      else
        assert forall k :: 0 <= k < |ms| - 1 ==> ms[..|ms| - 1][k] == ms[k];
        r
  }

  /** The list a clean run returns, stated without the fold: the list of the
      last `Done`, followed by every `Result` after it; or every `Result`
      when no `Done` arrived. */
  function Expected(ms: seq<BridgeMessage>): seq<SyncResult> {
    match LastDone(ms)
    case None => ResultsOf(ms)
    case Some(i) => ms[i].results + ResultsOf(ms[i + 1..])
  }

  lemma {:induction false} ConsumeIsReplay(obs: seq<Observation>, acc: seq<SyncResult>, decode: Decoder, status: ExitStatus)
    requires NoCancel(obs)
    ensures Consume(obs, acc, decode, status).outcome == Finish(Replay(Messages(obs, decode), acc), status)
  {
    if obs != [] {
      ConsumeUnfold(obs, acc, decode, status);
      var e := HandleLine(acc, obs[0].line, decode);
      ConsumeIsReplay(obs[1..], e.results, decode, status);
      var t := Trim(obs[0].line);
      if t != [] && decode(t).Ok? {
        var m := decode(t).value;
        assert LineMessage(obs[0].line, decode) == [m];
        assert ([m] + Messages(obs[1..], decode))[1..] == Messages(obs[1..], decode);
      } else {
        assert LineMessage(obs[0].line, decode) == [];
        assert Messages(obs, decode) == Messages(obs[1..], decode);
        assert e.results == acc;
      }
    }
  }

  lemma {:induction false} ReplayWithoutDone(ms: seq<BridgeMessage>, acc: seq<SyncResult>)
    requires NoDone(ms)
    ensures Replay(ms, acc) == acc + ResultsOf(ms)
  {
    if ms != [] {
      var m := ms[0];
      var head: seq<SyncResult> := if m.ResultMsg? then [AsSyncResult(m)] else [];
      assert !m.Done?;
      assert Absorb(acc, m) == acc + head;
      assert NoDone(ms[1..]);
      ReplayWithoutDone(ms[1..], acc + head);
      assert (acc + head) + ResultsOf(ms[1..]) == acc + (head + ResultsOf(ms[1..]));
    }
  }

  lemma {:induction false} ReplayFromDone(ms: seq<BridgeMessage>, i: nat, acc: seq<SyncResult>)
    requires i < |ms| && ms[i].Done? && NoDone(ms[i + 1..])
    ensures Replay(ms, acc) == ms[i].results + ResultsOf(ms[i + 1..])
  {
    if i == 0 {
      ReplayWithoutDone(ms[1..], ms[0].results);
    } else {
      assert ms[1..][i - 1] == ms[i] && ms[1..][i..] == ms[i + 1..];
      ReplayFromDone(ms[1..], i - 1, Absorb(acc, ms[0]));
    }
  }

  lemma {:induction false} ReplayIsExpected(ms: seq<BridgeMessage>)
    ensures Replay(ms, []) == Expected(ms)
  {
    match LastDone(ms)
    case None => ReplayWithoutDone(ms, []);
    case Some(i) => ReplayFromDone(ms, i, []);
  }

  /** A run that is never canceled returns, when the child exits cleanly, the
      last `Done` list followed by the `Result`s after it (all `Result`s when
      there was no `Done`); otherwise the exit status decides the error. */
  lemma {:induction false} RunOutcome(obs: seq<Observation>, decode: Decoder, status: ExitStatus)
    requires NoCancel(obs)
    ensures status == Exited(true) ==> Consume(obs, [], decode, status).outcome == Ok(Expected(Messages(obs, decode)))
    ensures status == Exited(false) ==> Consume(obs, [], decode, status).outcome == Err(SYNC_FAILED)
    ensures status.WaitFailed? ==> Consume(obs, [], decode, status).outcome == Err(status.reason)
  {
    ConsumeIsReplay(obs, [], decode, status);
    ReplayIsExpected(Messages(obs, decode));
  }

  /** The first line read with the cancel flag set ends the run with
      "Canceled", whatever the line holds (blank or not), whatever follows it
      and whatever the exit status; the last event is the cancel log. */
  lemma {:induction false} CancelStopsRun(obs: seq<Observation>, k: nat, acc: seq<SyncResult>, decode: Decoder,
                                          status: ExitStatus, status': ExitStatus)
    requires k < |obs| && obs[k].canceled && NoCancel(obs[..k])
    ensures Consume(obs, acc, decode, status).outcome == Err(CANCELED)
    ensures Consume(obs, acc, decode, status) == Consume(obs[..k + 1], acc, decode, status')
    ensures var em := Consume(obs, acc, decode, status).emitted; |em| > 0 && em[|em| - 1] == SyncLog(CANCEL_LOG)
  {
    if k > 0 {
      assert obs[..k + 1][0] == obs[0] && obs[..k + 1][1..] == obs[1..][..k];
      assert !obs[..k][0].canceled;
      assert obs[1..][..k - 1] == obs[..k][1..];
      ConsumeUnfold(obs, acc, decode, status);
      ConsumeUnfold(obs[..k + 1], acc, decode, status');
      CancelStopsRun(obs[1..], k - 1, HandleLine(acc, obs[0].line, decode).results, decode, status, status');
    }
  }

  /** Deleting a line that cannot change the accumulator (blank, undecodable,
      or a progress, file or log message) never changes what the run returns. */
  lemma {:induction false} NeutralLineRemovable(pre: seq<Observation>, o: Observation, post: seq<Observation>,
                                                acc: seq<SyncResult>, decode: Decoder, status: ExitStatus)
    requires NoCancel(pre) && !o.canceled && Neutral(o.line, decode)
    ensures Consume(pre + [o] + post, acc, decode, status).outcome == Consume(pre + post, acc, decode, status).outcome
  {
    if pre == [] {
      assert pre + [o] + post == [o] + post && pre + post == post;
      ConsumeUnfold([o] + post, acc, decode, status);
      assert ([o] + post)[1..] == post;
    } else {
      var whole, short := pre + [o] + post, pre + post;
      assert whole[0] == pre[0] && whole[1..] == pre[1..] + [o] + post;
      assert short[0] == pre[0] && short[1..] == pre[1..] + post;
      ConsumeUnfold(whole, acc, decode, status);
      ConsumeUnfold(short, acc, decode, status);
      NeutralLineRemovable(pre[1..], o, post, HandleLine(acc, pre[0].line, decode).results, decode, status);
    }
  }

  /** The payloads of the "sync-result" events, in order. */
  function ResultPayloads(evs: seq<HostEvent>): seq<SyncResult> {
    if evs == [] then []
    else (if evs[0].SyncResultEvent? then [evs[0].result] else []) + ResultPayloads(evs[1..])
  }

  lemma {:induction false} ResultPayloadsAppend(a: seq<HostEvent>, b: seq<HostEvent>)
    ensures ResultPayloads(a + b) == ResultPayloads(a) + ResultPayloads(b)
  {
    if a == [] {
      assert a + b == b;
    } else {
      assert (a + b)[0] == a[0] && (a + b)[1..] == a[1..] + b;
      ResultPayloadsAppend(a[1..], b);
    }
  }

  lemma {:induction false} ResultsOfAppend(a: seq<BridgeMessage>, b: seq<BridgeMessage>)
    ensures ResultsOf(a + b) == ResultsOf(a) + ResultsOf(b)
  {
    if a == [] {
      assert a + b == b;
    } else {
      assert (a + b)[0] == a[0];
      assert (a + b)[1..] == a[1..] + b;
      ResultsOfAppend(a[1..], b);
    }
  }

  /** The results one line forwards are the results its message carries. */
  lemma {:induction false} LinePayloads(acc: seq<SyncResult>, line: string, decode: Decoder)
    ensures ResultPayloads(HandleLine(acc, line, decode).emitted) == ResultsOf(LineMessage(line, decode))
  {
    var t := Trim(line);
    if t != [] && decode(t).Ok? {
      var m := decode(t).value;
      assert ResultPayloads([Announce(m)]) == (if m.ResultMsg? then [AsSyncResult(m)] else []) + ResultPayloads([]);
      assert ResultsOf([m]) == (if m.ResultMsg? then [AsSyncResult(m)] else []) + ResultsOf([]);
    } else if t != [] {
      assert ResultPayloads([SyncLog(INVALID_PREFIX + decode(t).error)]) == [] + ResultPayloads([]);
    }
  }

  /** Every `Result` message is forwarded to the window as soon as it is read. */
  lemma {:induction false} StreamedResults(obs: seq<Observation>, acc: seq<SyncResult>, decode: Decoder, status: ExitStatus)
    requires NoCancel(obs)
    ensures ResultPayloads(Consume(obs, acc, decode, status).emitted) == ResultsOf(Messages(obs, decode))
  {
    if obs != [] {
      ConsumeUnfold(obs, acc, decode, status);
      var e := HandleLine(acc, obs[0].line, decode);
      var rest := Consume(obs[1..], e.results, decode, status);
      StreamedResults(obs[1..], e.results, decode, status);
      ResultPayloadsAppend(e.emitted, rest.emitted);
      LinePayloads(acc, obs[0].line, decode);
      ResultsOfAppend(LineMessage(obs[0].line, decode), Messages(obs[1..], decode));
    }
  }

  /** Without a `Done`, a clean run returns exactly the results it streamed. */
  lemma {:induction false} StreamedIsFinalWithoutDone(obs: seq<Observation>, decode: Decoder)
    requires NoCancel(obs) && NoDone(Messages(obs, decode))
    ensures Consume(obs, [], decode, Exited(true)).outcome
         == Ok(ResultPayloads(Consume(obs, [], decode, Exited(true)).emitted))
  {
    RunOutcome(obs, decode, Exited(true));
    StreamedResults(obs, [], decode, Exited(true));
  }

  lemma {:induction false} MessagesAppend(a: seq<Observation>, b: seq<Observation>, decode: Decoder)
    ensures Messages(a + b, decode) == Messages(a, decode) + Messages(b, decode)
  {
    if a == [] {
      assert a + b == b;
    } else {
      assert (a + b)[0] == a[0] && (a + b)[1..] == a[1..] + b;
      MessagesAppend(a[1..], b, decode);
    }
  }

  /** When the last line is a `Done`, a clean run returns that list, whatever
      came before it. */
  lemma {:induction false} EndsWithDone(obs: seq<Observation>, decode: Decoder, finalResults: seq<SyncResult>)
    requires NoCancel(obs) && |obs| > 0
    requires Trim(obs[|obs| - 1].line) != []
    requires decode(Trim(obs[|obs| - 1].line)) == Ok(Done(finalResults))
    ensures Consume(obs, [], decode, Exited(true)).outcome == Ok(finalResults)
  {
    var n := |obs|;
    MessagesOfLastLine(obs, decode, Done(finalResults));
    ExpectedEndingInDone(Messages(obs[..n - 1], decode), finalResults);
    RunOutcome(obs, decode, Exited(true));
  }

  lemma {:induction false} MessagesOfLastLine(obs: seq<Observation>, decode: Decoder, m: BridgeMessage)
    requires |obs| > 0 && LineMessage(obs[|obs| - 1].line, decode) == [m]
    ensures Messages(obs, decode) == Messages(obs[..|obs| - 1], decode) + [m]
  {
    var n := |obs|;
    assert obs == obs[..n - 1] + [obs[n - 1]];
    MessagesAppend(obs[..n - 1], [obs[n - 1]], decode);
    assert Messages([obs[n - 1]], decode) == [m] + Messages([], decode);
  }

  lemma {:induction false} ExpectedEndingInDone(ms: seq<BridgeMessage>, finalResults: seq<SyncResult>)
    ensures Expected(ms + [Done(finalResults)]) == finalResults
  {
    var all := ms + [Done(finalResults)];
    assert all[|all| - 1] == Done(finalResults);
    assert LastDone(all) == Some(|ms|);
    assert all[|ms| + 1..] == [];
  }
}
