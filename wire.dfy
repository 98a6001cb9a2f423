/** What the Rust host's `serde_json` decoding makes of the lines python/bridge.py
    writes, and what that means for a whole run: the Python batch of
    PyBridge fed, line by line, to the fold of BridgeConsumer. The JSON text
    itself is abstract: `encode` is `json.dumps` and `decode` is serde, and
    the lemmas assume only that decoding the written line gives what the
    field mapping below says. */
module Wire {
  import opened Wrappers
  import opened Text
  import opened HostTypes
  import opened PyBridge
  import BridgeConsumer

  /** serde's range check for a JSON integer read into a `u64` or `usize`. */
  function ToU64(n: int): (r: Option<U64>)
    ensures r.Some? <==> 0 <= n < TWO_TO_64
    ensures r.Some? ==> r.value == n
  {
    if 0 <= n < TWO_TO_64 then Some(n) else None
  }

  /** The `SyncResult` a record stands for, elapsed time included. */
  function ToSyncResult(r: Record): SyncResult {
    SyncResult(r.videoFile, r.audioFile, r.startDelay, r.endDelay, r.error, ToU64(r.elapsedMs))
  }

  function MapToSync(rs: seq<Record>): (r: seq<SyncResult>)
    ensures |r| == |rs| && forall k :: 0 <= k < |rs| ==> r[k] == ToSyncResult(rs[k])
  {
    seq(|rs|, k requires 0 <= k < |rs| => ToSyncResult(rs[k]))
  }

  /** A record of a `done` list as serde reads it today: the record carries
      its time under the key "elapsed_ms", which `SyncResult` does not have
      (serde skips it), and lacks "elapsedMs", which then reads as None. */
  function DoneEntryAsWritten(r: Record): SyncResult {
    SyncResult(r.videoFile, r.audioFile, r.startDelay, r.endDelay, r.error, None)
  }

  function MapAsWritten(rs: seq<Record>): (r: seq<SyncResult>)
    ensures |r| == |rs| && forall k :: 0 <= k < |rs| ==> r[k] == DoneEntryAsWritten(rs[k])
  {
    seq(|rs|, k requires 0 <= k < |rs| => DoneEntryAsWritten(rs[k]))
  }

  /** Whether a delay is a finite `f64`: one whose exponent bits are all set
      is an infinity or a NaN, which `json.dumps` writes as `Infinity`,
      `-Infinity` or `NaN`, and which serde refuses to read as a number. */
  predicate IsFinite(d: Delay) {
    d.bits & 0x7FF0_0000_0000_0000 != 0x7FF0_0000_0000_0000
  }

  predicate FiniteDelay(d: Option<Delay>) {
    d.None? || IsFinite(d.value)
  }

  predicate FiniteRecord(r: Record) {
    FiniteDelay(r.startDelay) && FiniteDelay(r.endDelay)
  }

  predicate AllFinite(rs: seq<Record>) {
    forall k :: 0 <= k < |rs| ==> FiniteRecord(rs[k])
  }

  predicate ElapsedInRange(rs: seq<Record>) {
    forall k :: 0 <= k < |rs| ==> 0 <= rs[k].elapsedMs < TWO_TO_64
  }

  /** A line serde rejects: the host logs it as an invalid message, keeps
      its list as it was, and the run ends exactly as if the line had never
      been written. */
  lemma {:induction false} RejectedLineIgnored(pre: seq<PyEvent>, e: PyEvent, post: seq<PyEvent>,
                                               encode: Encoder, decode: BridgeConsumer.Decoder,
                                               acc: seq<SyncResult>, status: BridgeConsumer.ExitStatus)
    requires DecodeAsWritten(e).None?
    requires Faithful(pre + [e] + post, encode, decode, DecodeAsWritten)
    ensures var t := Trim(encode(e));
      && decode(t).Err?
      && BridgeConsumer.HandleLine(acc, encode(e), decode)
         == BridgeConsumer.Effect(acc, [BridgeConsumer.SyncLog(BridgeConsumer.INVALID_PREFIX + decode(t).error)])
    ensures BridgeConsumer.Consume(Stdout(pre + [e] + post, encode), acc, decode, status).outcome
         == BridgeConsumer.Consume(Stdout(pre + post, encode), acc, decode, status).outcome
  {
    var events := pre + [e] + post;
    assert events[|pre|] == e;
    var o := BridgeConsumer.Observation(false, encode(e));
    assert Stdout(events, encode) == Stdout(pre, encode) + [o] + Stdout(post, encode);
    assert Stdout(pre + post, encode) == Stdout(pre, encode) + Stdout(post, encode);
    BridgeConsumer.NeutralLineRemovable(Stdout(pre, encode), o, Stdout(post, encode), acc, decode, status);
  }

  /** A `result` line whose elapsed time does not fit a `u64` (it is
      negative, or 2^64 or more), or whose
      delay is an infinity or a NaN, is logged as invalid and changes
      nothing in the run's outcome. */
  lemma {:induction false} RejectedResultIgnored(pre: seq<PyEvent>, r: Record, post: seq<PyEvent>,
                                                 encode: Encoder, decode: BridgeConsumer.Decoder,
                                                 acc: seq<SyncResult>, status: BridgeConsumer.ExitStatus)
    requires r.elapsedMs < 0 || r.elapsedMs >= TWO_TO_64 || !FiniteRecord(r)
    requires Faithful(pre + [PyResult(r)] + post, encode, decode, DecodeAsWritten)
    ensures var t := Trim(encode(PyResult(r)));
      && decode(t).Err?
      && BridgeConsumer.HandleLine(acc, encode(PyResult(r)), decode)
         == BridgeConsumer.Effect(acc, [BridgeConsumer.SyncLog(BridgeConsumer.INVALID_PREFIX + decode(t).error)])
    ensures BridgeConsumer.Consume(Stdout(pre + [PyResult(r)] + post, encode), acc, decode, status).outcome
         == BridgeConsumer.Consume(Stdout(pre + post, encode), acc, decode, status).outcome
  {
    RejectedLineIgnored(pre, PyResult(r), post, encode, decode, acc, status);
  }

  /** A `done` line whose list holds an infinite or NaN delay is logged as
      invalid; the host keeps the list it built from the streamed results. */
  lemma {:induction false} NonFiniteDoneIgnored(pre: seq<PyEvent>, rs: seq<Record>, post: seq<PyEvent>,
                                                encode: Encoder, decode: BridgeConsumer.Decoder,
                                                acc: seq<SyncResult>, status: BridgeConsumer.ExitStatus)
    requires !AllFinite(rs)
    requires Faithful(pre + [PyDone(rs)] + post, encode, decode, DecodeAsWritten)
    ensures var t := Trim(encode(PyDone(rs)));
      && decode(t).Err?
      && BridgeConsumer.HandleLine(acc, encode(PyDone(rs)), decode)
         == BridgeConsumer.Effect(acc, [BridgeConsumer.SyncLog(BridgeConsumer.INVALID_PREFIX + decode(t).error)])
    ensures BridgeConsumer.Consume(Stdout(pre + [PyDone(rs)] + post, encode), acc, decode, status).outcome
         == BridgeConsumer.Consume(Stdout(pre + post, encode), acc, decode, status).outcome
  {
    RejectedLineIgnored(pre, PyDone(rs), post, encode, decode, acc, status);
  }

  /** The exponent test: 0.0 and 1.5 are finite; +infinity and the quiet
      NaN Python produces are not. */
  lemma {:induction false} FinitenessExamples()
    ensures IsFinite(Delay(0)) && IsFinite(Delay(0x3FF8_0000_0000_0000))
    ensures !IsFinite(Delay(0x7FF0_0000_0000_0000)) && !IsFinite(Delay(0xFFF0_0000_0000_0000))
    ensures !IsFinite(Delay(0x7FF8_0000_0000_0000))
  {
  }

  /** The message serde decodes from the line written for a non-`done`
      event, or None when it rejects it (an integer outside the `u64` range, or a
      delay written as `NaN` or `Infinity`). The
      `result` event carries its time under "elapsed_ms", which is the name
      the `Result` variant reads. */
  function StreamMessage(e: PyEvent): Option<BridgeMessage>
    requires !e.PyDone?
  {
    match e
    case PyLog(m) => Some(Log(m))
    case PyProgress(p, t, c) => if p < TWO_TO_64 && t < TWO_TO_64 then Some(Progress(p, t, Some(c))) else None
    case PyResult(r) =>
      if 0 <= r.elapsedMs < TWO_TO_64 && FiniteRecord(r) then Some(ResultMsg(r.videoFile, r.audioFile, r.startDelay, r.endDelay, r.error, Some(r.elapsedMs)))
      else None
  }

  /** The decoding as the two sides are written. */
  function DecodeAsWritten(e: PyEvent): Option<BridgeMessage> {
    if e.PyDone? then (if AllFinite(e.results) then Some(Done(MapAsWritten(e.results))) else None)
    else StreamMessage(e)
  }

  /** The decoding once a `done` record reaches `SyncResult.elapsedMs`. */
  function DecodeCorrected(e: PyEvent): Option<BridgeMessage> {
    if e.PyDone? then (if ElapsedInRange(e.results) && AllFinite(e.results) then Some(Done(MapToSync(e.results))) else None)
    else StreamMessage(e)
  }

  /** `json.dumps` of an event, as one line. */
  type Encoder = PyEvent -> string

  /** The host reads the events' lines, with no cancellation. */
  function Stdout(events: seq<PyEvent>, encode: Encoder): (obs: seq<BridgeConsumer.Observation>)
    ensures |obs| == |events|
    ensures BridgeConsumer.NoCancel(obs)
  {
    seq(|events|, k requires 0 <= k < |events| => BridgeConsumer.Observation(false, encode(events[k])))
  }

  /** The JSON layer agrees with `wire`: every written line is non-blank once
      trimmed, and decodes to `wire`'s message, or fails where `wire` has none. */
  predicate Faithful(events: seq<PyEvent>, encode: Encoder, decode: BridgeConsumer.Decoder,
                     wire: PyEvent -> Option<BridgeMessage>) {
    forall k :: 0 <= k < |events| ==>
      var t := Trim(encode(events[k]));
      && t != []
      && (wire(events[k]).Some? ==> decode(t) == Ok(wire(events[k]).value))
      && (wire(events[k]).None? ==> decode(t).Err?)
  }

  predicate AllDecode(events: seq<PyEvent>, wire: PyEvent -> Option<BridgeMessage>) {
    forall k :: 0 <= k < |events| ==> wire(events[k]).Some?
  }

  lemma {:induction false} FaithfulTail(events: seq<PyEvent>, encode: Encoder, decode: BridgeConsumer.Decoder,
                                        wire: PyEvent -> Option<BridgeMessage>)
    requires events != [] && Faithful(events, encode, decode, wire)
    ensures Faithful(events[1..], encode, decode, wire)
    ensures Stdout(events[1..], encode) == Stdout(events, encode)[1..]
  {
    forall k | 0 <= k < |events[1..]| ensures events[1..][k] == events[k + 1] { }
  }

  /** The host reads one message off the first line. */
  lemma {:induction false} FirstLineMessage(events: seq<PyEvent>, encode: Encoder, decode: BridgeConsumer.Decoder,
                                            wire: PyEvent -> Option<BridgeMessage>)
    requires events != [] && Faithful(events, encode, decode, wire) && wire(events[0]).Some?
    ensures BridgeConsumer.Messages(Stdout(events, encode), decode)
         == [wire(events[0]).value] + BridgeConsumer.Messages(Stdout(events[1..], encode), decode)
  {
    var obs := Stdout(events, encode);
    FaithfulTail(events, encode, decode, wire);
    assert BridgeConsumer.LineMessage(obs[0].line, decode) == [wire(events[0]).value];
  }

  lemma {:induction false} ResultsOfCons(m: BridgeMessage, rest: seq<BridgeMessage>)
    ensures BridgeConsumer.ResultsOf([m] + rest)
         == (if m.ResultMsg? then [BridgeConsumer.AsSyncResult(m)] else []) + BridgeConsumer.ResultsOf(rest)
  {
    assert ([m] + rest)[0] == m;
    assert ([m] + rest)[1..] == rest;
  }

  lemma {:induction false} StreamedRecordsCons(e: PyEvent, rest: seq<PyEvent>)
    ensures MapToSync(StreamedRecords([e] + rest))
         == (if e.PyResult? then [ToSyncResult(e.record)] else []) + MapToSync(StreamedRecords(rest))
  {
    assert ([e] + rest)[0] == e;
    assert ([e] + rest)[1..] == rest;
    var head := if e.PyResult? then [e.record] else [];
    assert MapToSync(head + StreamedRecords(rest)) == MapToSync(head) + MapToSync(StreamedRecords(rest));
  }

  /** The `SyncResult`s the host streams for a run of non-`done` lines that
      all decode: the Python records of the result events, elapsed times
      included. */
  lemma {:induction false} StreamedSyncResults(events: seq<PyEvent>, encode: Encoder, decode: BridgeConsumer.Decoder)
    requires PyBridge.NoDone(events) && AllDecode(events, DecodeCorrected)
    requires Faithful(events, encode, decode, DecodeCorrected)
    ensures BridgeConsumer.ResultsOf(BridgeConsumer.Messages(Stdout(events, encode), decode))
         == MapToSync(StreamedRecords(events))
    ensures BridgeConsumer.NoDone(BridgeConsumer.Messages(Stdout(events, encode), decode))
    decreases |events|
  {
    if events != [] {
      var e := events[0];
      var tail := events[1..];
      FaithfulTail(events, encode, decode, DecodeCorrected);
      assert PyBridge.NoDone(tail) && AllDecode(tail, DecodeCorrected) by {
        forall k | 0 <= k < |tail| ensures tail[k] == events[k + 1] { }
      }
      StreamedSyncResults(tail, encode, decode);
      FirstLineMessage(events, encode, decode, DecodeCorrected);
      var m := DecodeCorrected(e).value;
      var rest := BridgeConsumer.Messages(Stdout(tail, encode), decode);
      ResultsOfCons(m, rest);
      assert events == [e] + tail;
      StreamedRecordsCons(e, tail);
      assert !e.PyDone?;
      if e.PyResult? {
        assert BridgeConsumer.AsSyncResult(m) == ToSyncResult(e.record);
      }
      assert BridgeConsumer.NoDone([m] + rest) by {
        forall k | 0 <= k < |[m] + rest| ensures !([m] + rest)[k].Done? {
          if k > 0 { assert ([m] + rest)[k] == rest[k - 1]; }
        }
      }
    }
  }

  /** A successful Python run, as `main` leaves it: the last line is a
      `done` carrying exactly the records streamed before it. */
  predicate CleanRun(events: seq<PyEvent>) {
    && |events| > 0 && PyBridge.NoDone(events[..|events| - 1])
    && events[|events| - 1] == PyDone(StreamedRecords(events[..|events| - 1]))
  }

  /** The host's final list and the results it streamed, for a clean run
      read with `wire`. */
  lemma {:induction false} HostSeesRun(events: seq<PyEvent>, encode: Encoder, decode: BridgeConsumer.Decoder,
                                       wire: PyEvent -> Option<BridgeMessage>, finalResults: seq<SyncResult>)
    requires CleanRun(events)
    requires AllDecode(events[..|events| - 1], wire) && wire(events[|events| - 1]) == Some(Done(finalResults))
    requires Faithful(events, encode, decode, wire)
    ensures BridgeConsumer.Consume(Stdout(events, encode), [], decode, BridgeConsumer.Exited(true)).outcome == Ok(finalResults)
  {
    var obs := Stdout(events, encode);
    BridgeConsumer.EndsWithDone(obs, decode, finalResults);
  }

  lemma {:induction false} StreamedOfCleanRun(events: seq<PyEvent>, encode: Encoder, decode: BridgeConsumer.Decoder,
                                              wire: PyEvent -> Option<BridgeMessage>)
    requires CleanRun(events)
    requires forall k :: 0 <= k < |events| - 1 ==> wire(events[k]) == DecodeCorrected(events[k])
    requires AllDecode(events[..|events| - 1], DecodeCorrected)
    requires Faithful(events, encode, decode, wire) && wire(events[|events| - 1]).Some?
    requires wire(events[|events| - 1]).value.Done?
    ensures var run := BridgeConsumer.Consume(Stdout(events, encode), [], decode, BridgeConsumer.Exited(true));
      BridgeConsumer.ResultPayloads(run.emitted) == MapToSync(StreamedRecords(events[..|events| - 1]))
  {
    var n := |events| - 1;
    var pre := events[..n];
    var obs := Stdout(events, encode);
    assert Faithful(pre, encode, decode, DecodeCorrected) by {
      forall k | 0 <= k < n ensures pre[k] == events[k] { }
    }
    StreamedSyncResults(pre, encode, decode);
    assert obs[..n] == Stdout(pre, encode);
    var m := wire(events[n]).value;
    assert BridgeConsumer.LineMessage(obs[n].line, decode) == [m];
    BridgeConsumer.MessagesOfLastLine(obs, decode, m);
    BridgeConsumer.StreamedResults(obs, [], decode, BridgeConsumer.Exited(true));
    assert BridgeConsumer.ResultsOf([m]) == [];
    BridgeConsumer.ResultsOfAppend(BridgeConsumer.Messages(obs[..n], decode), [m]);
  }

  /** As written: the host streams every result with its elapsed time, but
      the final list of a clean run is the `done` list, in which every
      elapsed time is gone. */
  lemma {:induction false} AsWrittenDropsElapsed(events: seq<PyEvent>, encode: Encoder, decode: BridgeConsumer.Decoder)
    requires CleanRun(events) && AllDecode(events, DecodeAsWritten)
    requires Faithful(events, encode, decode, DecodeAsWritten)
    ensures var run := BridgeConsumer.Consume(Stdout(events, encode), [], decode, BridgeConsumer.Exited(true));
      var streamed := StreamedRecords(events[..|events| - 1]);
      && run.outcome == Ok(MapAsWritten(streamed))
      && (forall k :: 0 <= k < |run.outcome.value| ==> run.outcome.value[k].elapsedMs == None)
      && BridgeConsumer.ResultPayloads(run.emitted) == MapToSync(streamed)
  {
    var n := |events| - 1;
    var streamed := StreamedRecords(events[..n]);
    assert AllDecode(events[..n], DecodeAsWritten);
    assert AllDecode(events[..n], DecodeCorrected) by {
      forall k | 0 <= k < n ensures DecodeCorrected(events[..n][k]).Some? {
        assert events[..n][k] == events[k];
        assert !events[k].PyDone?;
      }
    }
    assert forall k :: 0 <= k < n ==> DecodeAsWritten(events[k]) == DecodeCorrected(events[k]) by {
      forall k | 0 <= k < n ensures DecodeAsWritten(events[k]) == DecodeCorrected(events[k]) {
        assert events[..n][k] == events[k];
      }
    }
    HostSeesRun(events, encode, decode, DecodeAsWritten, MapAsWritten(streamed));
    StreamedOfCleanRun(events, encode, decode, DecodeAsWritten);
  }

  /** Corrected: the final list of a clean run is exactly the list of
      results the host streamed, elapsed times included. */
  lemma {:induction false} CorrectedKeepsStreamed(events: seq<PyEvent>, encode: Encoder, decode: BridgeConsumer.Decoder)
    requires CleanRun(events) && AllDecode(events, DecodeCorrected)
    requires Faithful(events, encode, decode, DecodeCorrected)
    ensures var run := BridgeConsumer.Consume(Stdout(events, encode), [], decode, BridgeConsumer.Exited(true));
      var streamed := StreamedRecords(events[..|events| - 1]);
      && run.outcome == Ok(MapToSync(streamed))
      && run.outcome == Ok(BridgeConsumer.ResultPayloads(run.emitted))
      && (forall k :: 0 <= k < |streamed| ==> run.outcome.value[k].elapsedMs == Some(streamed[k].elapsedMs))
  {
    var n := |events| - 1;
    var streamed := StreamedRecords(events[..n]);
    assert AllDecode(events[..n], DecodeCorrected) by {
      forall k | 0 <= k < n ensures DecodeCorrected(events[..n][k]).Some? {
        assert events[..n][k] == events[k];
      }
    }
    assert DecodeCorrected(events[n]) == Some(Done(MapToSync(streamed)));
    HostSeesRun(events, encode, decode, DecodeCorrected, MapToSync(streamed));
    StreamedOfCleanRun(events, encode, decode, DecodeCorrected);
  }

  /** One movie item that took 1500 ms: the host streams it with its time,
      and the batch it returns, as written, has lost it. */
  lemma {:induction false} ElapsedLostExample(encode: Encoder, decode: BridgeConsumer.Decoder, t: ResultTuple)
    requires FiniteDelay(t.startDelay) && FiniteDelay(t.endDelay)
    requires var r := NormalizeResult(t, 1500);
      Faithful([PyProgress(1, 1, Basename(t.primary)), PyResult(r), PyDone([r])], encode, decode, DecodeAsWritten)
    ensures var r := NormalizeResult(t, 1500);
      var run := BridgeConsumer.Consume(Stdout([PyProgress(1, 1, Basename(t.primary)), PyResult(r), PyDone([r])], encode),
                                        [], decode, BridgeConsumer.Exited(true));
      && |BridgeConsumer.ResultPayloads(run.emitted)| == 1
      && BridgeConsumer.ResultPayloads(run.emitted)[0].elapsedMs == Some(1500)
      && run.outcome.Ok? && |run.outcome.value| == 1 && run.outcome.value[0].elapsedMs == None
  {
    var r := NormalizeResult(t, 1500);
    var events := [PyProgress(1, 1, Basename(t.primary)), PyResult(r), PyDone([r])];
    var pre := events[..2];
    assert pre == [PyProgress(1, 1, Basename(t.primary)), PyResult(r)];
    assert StreamedRecords(pre) == [r] by {
      assert pre[1..] == [PyResult(r)];
      assert pre[1..][1..] == [];
      assert StreamedRecords(pre[1..]) == [r] + StreamedRecords([]);
      assert StreamedRecords(pre) == [] + StreamedRecords(pre[1..]);
    }
    assert CleanRun(events);
    assert AllDecode(events, DecodeAsWritten);
    AsWrittenDropsElapsed(events, encode, decode);
  }
}
