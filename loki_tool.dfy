/** The class-based Loki client (`BenchmarkTool` of the Loki tool): it keeps the base URL
    and the default labels, and its `bulk_ingest` pushes the documents of an iterable in
    batches of one stream.

    The HTTP session is not modelled; pushes, timestamp conversion and the clock are the
    oracles of `LokiIngestion`, and the `k`-th document is stamped with `now(k)` when it
    needs the clock. */
module LokiTool {
  import opened Base
  import opened JsonValue
  import opened Text
  import Stats
  import opened LokiIngestion

  const DefaultToolLabels: Labels := map["job" := "benchmark_tool"]
  const PushPath := "/loki/api/v1/push"

  /** The dict `bulk_ingest` returns; `failed` is -1 after an unexpected exception. */
  datatype ToolResult = ToolResult(successful: int, failed: int, time: real, rate: real)

  datatype ToolRun = ToolRun(result: ToolResult, pushes: seq<PushRecord>)

  /** The variables of `bulk_ingest`: the values of `current_batch`, `successful_docs`,
      `fail_count`, the pushes so far, and whether an exception left the loop. */
  datatype TState = TState(values: seq<Entry>, successful: int, failed: int, pushes: seq<PushRecord>, aborted: bool)

  /** The labels of one call: the given ones when non-empty, the tool's default otherwise. */
  function IngestLabels(labels: Option<Labels>, defaultLabels: Labels): (r: Labels)
    ensures labels.Some? && labels.value != map[] ==> r == labels.value
    ensures labels.None? || labels.value == map[] ==> r == defaultLabels
  {
    if labels.Some? && labels.value != map[] then labels.value else defaultLabels
  }

  /** The loop body for the `k`-th document: stamped, appended, and pushed with the batch
      when the batch reaches `batch_size` (`ToolTake`). An exception leaves the loop. */
  function ToolStep(s: TState, doc: Json, k: nat, labels: Labels, batchSize: int, parseTs: TsParser, now: Clock, push: PushOracle): TState {
    if s.aborted then s
    else
      match Stamp(doc, k, parseTs, now)
      case None => s.(aborted := true)
      case Some(ns) => ToolTake(s, Entry(ns, doc), labels, batchSize, push)
  }

  function ToolTake(s: TState, e: Entry, labels: Labels, batchSize: int, push: PushOracle): TState {
    var values := s.values + [e];
    if |values| < batchSize then s.(values := values) else ToolFlush(s, values, labels, batchSize, push)
  }

  /** Pushing the batch: a success or a `RequestException` counts its values and empties it;
      any other exception leaves the loop. After an emptied batch the progress test
      `(successful_docs + fail_count) % (batch_size * 10)` divides by zero when `batch_size`
      is 0, which also leaves the loop. */
  function ToolFlush(s: TState, values: seq<Entry>, labels: Labels, batchSize: int, push: PushOracle): TState {
    var payload := [Stream(labels, values)];
    var outcome := push(|s.pushes|, payload);
    var pushes := s.pushes + [PushRecord(payload, outcome, false)];
    match outcome
    case Pushed => TState([], s.successful + |values|, s.failed, pushes, batchSize == 0)
    case RequestFailed => TState([], s.successful, s.failed + |values|, pushes, batchSize == 0)
    case Unexpected => TState(values, s.successful, s.failed, pushes, true)
  }

  /** The state after the given documents. */
  function ToolLoop(docs: seq<Json>, labels: Labels, batchSize: int, parseTs: TsParser, now: Clock, push: PushOracle): TState
    decreases |docs|
  {
    if docs == [] then TState([], 0, 0, [], false)
    else
      var n := |docs| - 1;
      ToolStep(ToolLoop(docs[..n], labels, batchSize, parseTs, now, push), docs[n], n, labels, batchSize, parseTs, now, push)
  }

  /** After the loop: a non-empty batch is pushed once more; the result reports `failed` as
      -1 when an exception left the loop or the final push. */
  function ToolFinish(s: TState, labels: Labels, push: PushOracle, totalTime: real): ToolRun {
    if s.aborted || s.values == [] then
      ToolRun(ToolResult(s.successful, if s.aborted then -1 else s.failed, totalTime, Stats.Throughput(s.successful, totalTime)), s.pushes)
    else
      var payload := [Stream(labels, s.values)];
      var outcome := push(|s.pushes|, payload);
      var pushes := s.pushes + [PushRecord(payload, outcome, true)];
      var successful := if outcome.Pushed? then s.successful + |s.values| else s.successful;
      var failed := match outcome case Pushed => s.failed case RequestFailed => s.failed + |s.values| case Unexpected => -1;
      ToolRun(ToolResult(successful, failed, totalTime, Stats.Throughput(successful, totalTime)), pushes)
  }

  function ToolIngestion(docs: seq<Json>, labels: Labels, batchSize: int, parseTs: TsParser, now: Clock, push: PushOracle, totalTime: real): ToolRun {
    ToolFinish(ToolLoop(docs, labels, batchSize, parseTs, now, push), labels, push, totalTime)
  }

  // ---------------------------------------------------------------------------------------
  // Properties

  lemma ToolLoopSnoc(docs: seq<Json>, labels: Labels, batchSize: int, parseTs: TsParser, now: Clock, push: PushOracle)
    requires docs != []
    ensures ToolLoop(docs, labels, batchSize, parseTs, now, push)
         == ToolStep(ToolLoop(docs[..|docs| - 1], labels, batchSize, parseTs, now, push), docs[|docs| - 1], |docs| - 1,
                     labels, batchSize, parseTs, now, push)
  {
  }

  /** While the loop runs, the batch holds fewer values than the threshold, and every push
      is a loop push of the one stream holding exactly the threshold of values, answered by
      the oracle for its number. */
  predicate ToolShaped(s: TState, labels: Labels, batchSize: int, push: PushOracle) {
    && (forall k :: 0 <= k < |s.pushes| ==>
          && !s.pushes[k].final
          && |s.pushes[k].streams| == 1
          && s.pushes[k].streams[0].labels == labels
          && |s.pushes[k].streams[0].values| == Threshold(batchSize)
          && s.pushes[k].outcome == push(k, s.pushes[k].streams))
    && (!s.aborted ==> |s.values| < Threshold(batchSize))
  }

  /** `successful_docs` is the size of the successful pushes and, until an exception,
      `fail_count` is the size of the failed ones. */
  predicate ToolCounted(s: TState) {
    && s.successful == OkDocs(s.pushes)
    && (!s.aborted ==> s.failed == FailedDocs(s.pushes))
  }

  /** Until an exception, the pushed lines followed by the batch are the documents so far,
      in order. */
  predicate ToolOrdered(s: TState, docs: seq<Json>) {
    !s.aborted ==> Lines(s.pushes) + LinesOf(s.values) == docs
  }

  lemma ToolFlushEffect(s: TState, values: seq<Entry>, labels: Labels, batchSize: int, push: PushOracle)
    ensures var t := ToolFlush(s, values, labels, batchSize, push);
      && t.pushes == s.pushes + [PushRecord([Stream(labels, values)], push(|s.pushes|, [Stream(labels, values)]), false)]
      && Lines(t.pushes) == Lines(s.pushes) + LinesOf(values)
      && OkDocs(t.pushes) - t.successful == OkDocs(s.pushes) - s.successful
      && (!t.aborted ==> t.values == [] && FailedDocs(t.pushes) - t.failed == FailedDocs(s.pushes) - s.failed)
  {
    var t := ToolFlush(s, values, labels, batchSize, push);
    SingleStream(labels, values);
    assert t.pushes[..|t.pushes| - 1] == s.pushes;
  }

  lemma ToolTakeShaped(s: TState, e: Entry, labels: Labels, batchSize: int, push: PushOracle)
    requires ToolShaped(s, labels, batchSize, push) && !s.aborted
    ensures ToolShaped(ToolTake(s, e, labels, batchSize, push), labels, batchSize, push)
  {
    var values := s.values + [e];
    if |values| >= batchSize {
      var t := ToolFlush(s, values, labels, batchSize, push);
      assert |values| == Threshold(batchSize);
      assert t.pushes == s.pushes + [PushRecord([Stream(labels, values)], push(|s.pushes|, [Stream(labels, values)]), false)];
      assert forall k :: 0 <= k < |s.pushes| ==> t.pushes[k] == s.pushes[k];
    }
  }

  lemma ToolTakeCounted(s: TState, docs: seq<Json>, e: Entry, labels: Labels, batchSize: int, push: PushOracle)
    requires ToolCounted(s) && ToolOrdered(s, docs) && !s.aborted
    ensures ToolCounted(ToolTake(s, e, labels, batchSize, push))
    ensures ToolOrdered(ToolTake(s, e, labels, batchSize, push), docs + [e.line])
  {
    var values := s.values + [e];
    LinesOfSnoc(s.values, e);
    assert Lines(s.pushes) + (LinesOf(s.values) + [e.line]) == (Lines(s.pushes) + LinesOf(s.values)) + [e.line];
    if |values| >= batchSize {
      ToolFlushEffect(s, values, labels, batchSize, push);
      var t := ToolFlush(s, values, labels, batchSize, push);
      if !t.aborted {
        assert LinesOf(t.values) == [];
        assert Lines(t.pushes) + [] == Lines(t.pushes);
      }
    }
  }

  lemma ToolStepShaped(s: TState, doc: Json, k: nat, labels: Labels, batchSize: int, parseTs: TsParser, now: Clock, push: PushOracle)
    requires ToolShaped(s, labels, batchSize, push)
    ensures ToolShaped(ToolStep(s, doc, k, labels, batchSize, parseTs, now, push), labels, batchSize, push)
  {
    if !s.aborted {
      match Stamp(doc, k, parseTs, now) {
        case None =>
        case Some(ns) =>
          ToolTakeShaped(s, Entry(ns, doc), labels, batchSize, push);
      }
    }
  }

  lemma ToolStepCounted(s: TState, docs: seq<Json>, doc: Json, k: nat, labels: Labels, batchSize: int, parseTs: TsParser, now: Clock, push: PushOracle)
    requires ToolCounted(s) && ToolOrdered(s, docs)
    ensures var t := ToolStep(s, doc, k, labels, batchSize, parseTs, now, push);
      ToolCounted(t) && ToolOrdered(t, docs + [doc])
  {
    if !s.aborted {
      match Stamp(doc, k, parseTs, now) {
        case None =>
        case Some(ns) =>
          ToolTakeCounted(s, docs, Entry(ns, doc), labels, batchSize, push);
      }
    }
  }

  lemma {:induction false} ToolLoopShaped(docs: seq<Json>, labels: Labels, batchSize: int, parseTs: TsParser, now: Clock, push: PushOracle)
    ensures ToolShaped(ToolLoop(docs, labels, batchSize, parseTs, now, push), labels, batchSize, push)
  {
    if docs != [] {
      var n := |docs| - 1;
      var init := docs[..n];
      ToolLoopShaped(init, labels, batchSize, parseTs, now, push);
      ToolLoopSnoc(docs, labels, batchSize, parseTs, now, push);
      ToolStepShaped(ToolLoop(init, labels, batchSize, parseTs, now, push), docs[n], n, labels, batchSize, parseTs, now, push);
    }
  }

  lemma {:induction false} ToolLoopCounted(docs: seq<Json>, labels: Labels, batchSize: int, parseTs: TsParser, now: Clock, push: PushOracle)
    ensures var s := ToolLoop(docs, labels, batchSize, parseTs, now, push);
      ToolCounted(s) && ToolOrdered(s, docs)
  {
    if docs != [] {
      var n := |docs| - 1;
      var init := docs[..n];
      ToolLoopCounted(init, labels, batchSize, parseTs, now, push);
      ToolLoopSnoc(docs, labels, batchSize, parseTs, now, push);
      ToolStepCounted(ToolLoop(init, labels, batchSize, parseTs, now, push), init, docs[n], n, labels, batchSize, parseTs, now, push);
      assert init + [docs[n]] == docs;
    }
  }

  /** A call that meets no exception pushes every document exactly once, in order, counts
      each one as a success or a failure, and pushes in batches of exactly `batch_size`
      (one, for a negative size) followed by at most one smaller final batch. */
  lemma ToolCompleteRun(docs: seq<Json>, labels: Labels, batchSize: int, parseTs: TsParser, now: Clock, push: PushOracle, totalTime: real)
    requires ToolIngestion(docs, labels, batchSize, parseTs, now, push, totalTime).result.failed != -1
    ensures var run := ToolIngestion(docs, labels, batchSize, parseTs, now, push, totalTime);
      && Lines(run.pushes) == docs
      && run.result.successful + run.result.failed == |docs|
      && run.result.successful == OkDocs(run.pushes)
      && (forall k :: 0 <= k < |run.pushes| && !run.pushes[k].final ==> Size(run.pushes[k].streams) == Threshold(batchSize))
      && (forall k :: 0 <= k < |run.pushes| && run.pushes[k].final ==>
            k == |run.pushes| - 1 && 1 <= Size(run.pushes[k].streams) < Threshold(batchSize))
  {
    var s := ToolLoop(docs, labels, batchSize, parseTs, now, push);
    ToolLoopShaped(docs, labels, batchSize, parseTs, now, push);
    ToolLoopCounted(docs, labels, batchSize, parseTs, now, push);
    FinishCounted(s, docs, labels, push, totalTime);
    FinishShaped(s, labels, batchSize, push, totalTime);
  }

  /** The final push, if any, completes the lines and the counts kept by the loop. */
  lemma FinishCounted(s: TState, docs: seq<Json>, labels: Labels, push: PushOracle, totalTime: real)
    requires ToolCounted(s) && ToolOrdered(s, docs)
    requires ToolFinish(s, labels, push, totalTime).result.failed != -1
    ensures var run := ToolFinish(s, labels, push, totalTime);
      && Lines(run.pushes) == docs
      && run.result.successful + run.result.failed == |docs|
      && run.result.successful == OkDocs(run.pushes)
  {
    var run := ToolFinish(s, labels, push, totalTime);
    if s.values == [] {
      assert LinesOf(s.values) == [];
      assert Lines(s.pushes) + [] == Lines(s.pushes);
      LinesCount(s.pushes);
    } else {
      SingleStream(labels, s.values);
      assert run.pushes[..|run.pushes| - 1] == s.pushes;
      LinesCount(run.pushes);
    }
  }

  /** Loop pushes carry exactly the threshold of values; the final push, if any, is the last
      one and carries fewer, but at least one. */
  lemma FinishShaped(s: TState, labels: Labels, batchSize: int, push: PushOracle, totalTime: real)
    requires ToolShaped(s, labels, batchSize, push)
    requires ToolFinish(s, labels, push, totalTime).result.failed != -1
    ensures var run := ToolFinish(s, labels, push, totalTime);
      && (forall k :: 0 <= k < |run.pushes| && !run.pushes[k].final ==> Size(run.pushes[k].streams) == Threshold(batchSize))
      && (forall k :: 0 <= k < |run.pushes| && run.pushes[k].final ==>
            k == |run.pushes| - 1 && 1 <= Size(run.pushes[k].streams) < Threshold(batchSize))
  {
    var run := ToolFinish(s, labels, push, totalTime);
    forall k | 0 <= k < |s.pushes| ensures Size(s.pushes[k].streams) == Threshold(batchSize) {
      assert s.pushes[k].streams == [Stream(labels, s.pushes[k].streams[0].values)];
      SingleStream(labels, s.pushes[k].streams[0].values);
    }
    if s.values != [] {
      SingleStream(labels, s.values);
      assert forall k :: 0 <= k < |s.pushes| ==> run.pushes[k] == s.pushes[k];
    }
  }

  /** The number of log lines pushed is the number of successes plus failures. */
  lemma {:induction false} LinesCount(pushes: seq<PushRecord>)
    ensures |Lines(pushes)| == OkDocs(pushes) + FailedDocs(pushes)
  {
    if pushes != [] {
      LinesCount(pushes[..|pushes| - 1]);
      StreamLinesCount(pushes[|pushes| - 1].streams);
    }
  }

  lemma {:induction false} StreamLinesCount(streams: seq<Stream>)
    ensures |StreamLines(streams)| == Size(streams)
  {
    if streams != [] {
      StreamLinesCount(streams[..|streams| - 1]);
      LinesOfCount(streams[|streams| - 1].values);
    }
  }

  lemma {:induction false} LinesOfCount(values: seq<Entry>)
    ensures |LinesOf(values)| == |values|
  {
    if values != [] {
      LinesOfCount(values[..|values| - 1]);
    }
  }

  /** Once an exception has left the loop, no further document is taken. */
  lemma {:induction false} ToolAbortedStays(docs: seq<Json>, rest: seq<Json>, labels: Labels, batchSize: int, parseTs: TsParser, now: Clock, push: PushOracle)
    requires ToolLoop(docs, labels, batchSize, parseTs, now, push).aborted
    ensures ToolLoop(docs + rest, labels, batchSize, parseTs, now, push) == ToolLoop(docs, labels, batchSize, parseTs, now, push)
    decreases |rest|
  {
    if rest == [] {
      assert docs + rest == docs;
    } else {
      var r0 := rest[..|rest| - 1];
      var all := docs + rest;
      assert all[..|all| - 1] == docs + r0;
      ToolAbortedStays(docs, r0, labels, batchSize, parseTs, now, push);
      ToolLoopSnoc(all, labels, batchSize, parseTs, now, push);
    }
  }

  /** With `batch_size` 0 the first document is pushed alone and the progress test then
      divides by zero, so a call whose first document can be stamped reports `failed` as -1,
      whatever follows. */
  lemma ZeroBatchSizeFails(docs: seq<Json>, labels: Labels, parseTs: TsParser, now: Clock, push: PushOracle, totalTime: real)
    requires docs != [] && Stamp(docs[0], 0, parseTs, now).Some?
    ensures ToolIngestion(docs, labels, 0, parseTs, now, push, totalTime).result.failed == -1
    ensures |ToolIngestion(docs, labels, 0, parseTs, now, push, totalTime).pushes| == 1
  {
    ToolLoopSnoc([docs[0]], labels, 0, parseTs, now, push);
    assert [docs[0]][..0] == [];
    ToolAbortedStays([docs[0]], docs[1..], labels, 0, parseTs, now, push);
    assert [docs[0]] + docs[1..] == docs;
  }

  // ---------------------------------------------------------------------------------------
  // The class

  class BenchmarkTool {
    /** The base URL without trailing slashes. */
    const lokiUrl: string
    /** The labels used when a call gives none. */
    const defaultLabels: Labels

    /** The base URL does not end in `/`. */
    predicate Valid()
    {
      lokiUrl == [] || lokiUrl[|lokiUrl| - 1] != '/'
    }

    /** `BenchmarkTool(loki_url, default_labels)`; the readiness probe is not modelled. */
    constructor (lokiUrl: string, defaultLabels: Option<Labels>)
      ensures Valid()
      ensures this.lokiUrl == TrimEndChar(lokiUrl, '/')
      ensures this.defaultLabels == IngestLabels(defaultLabels, DefaultToolLabels)
    {
      this.lokiUrl := TrimEndChar(lokiUrl, '/');
      this.defaultLabels := IngestLabels(defaultLabels, DefaultToolLabels);
    }

    /** The push endpoint: the base URL, then the API path, joined by a single `/`. */
    function PushUrl(): (r: string)
      requires Valid()
      ensures |r| == |lokiUrl| + |PushPath| && r[..|lokiUrl|] == lokiUrl && r[|lokiUrl|..] == PushPath
      ensures r[|lokiUrl|] == '/' && (lokiUrl == [] || r[|lokiUrl| - 1] != '/')
    {
      lokiUrl + PushPath
    }

    /** `bulk_ingest`: the result and the pushes made. */
    method BulkIngest(docs: seq<Json>, batchSize: int, labels: Option<Labels>, parseTs: TsParser, now: Clock, push: PushOracle, totalTime: real)
      returns (result: ToolResult, pushes: seq<PushRecord>)
      ensures ToolRun(result, pushes) == ToolIngestion(docs, IngestLabels(labels, defaultLabels), batchSize, parseTs, now, push, totalTime)
    {
      var lbl := IngestLabels(labels, defaultLabels);
      var s := BatchLoop(docs, lbl, batchSize, parseTs, now, push);
      pushes := s.pushes;
      var successful, failed := s.successful, s.failed;
      if s.aborted {
        failed := -1;
      } else if s.values != [] {
        var payload := [Stream(lbl, s.values)];
        var outcome := push(|pushes|, payload);
        pushes := pushes + [PushRecord(payload, outcome, true)];
        match outcome {
          case Pushed =>
            successful := successful + |s.values|;
          case RequestFailed =>
            failed := failed + |s.values|;
          case Unexpected =>
            failed := -1;
        }
      }
      result := ToolResult(successful, failed, totalTime, Stats.Throughput(successful, totalTime));
    }
  }

  /** The `for doc in log_data_iterable` loop of `bulk_ingest`; it stops at the first
      exception. */
  method BatchLoop(docs: seq<Json>, lbl: Labels, batchSize: int, parseTs: TsParser, now: Clock, push: PushOracle)
    returns (s: TState)
    ensures s == ToolLoop(docs, lbl, batchSize, parseTs, now, push)
  {
    var values: seq<Entry> := [];
    var successful, failed := 0, 0;
    var pushes: seq<PushRecord> := [];
    var aborted := false;
    var i := 0;
    while i < |docs| && !aborted
      invariant 0 <= i <= |docs|
      invariant TState(values, successful, failed, pushes, aborted) == ToolLoop(docs[..i], lbl, batchSize, parseTs, now, push)
    {
      assert docs[..i + 1][..i] == docs[..i];
      match Stamp(docs[i], i, parseTs, now) {
        case None =>
          aborted := true;
        case Some(ns) =>
          values := values + [Entry(ns, docs[i])];
          if |values| >= batchSize {
            var payload := [Stream(lbl, values)];
            var outcome := push(|pushes|, payload);
            pushes := pushes + [PushRecord(payload, outcome, false)];
            match outcome {
              case Pushed =>
                successful := successful + |values|;
                values := [];
                aborted := batchSize == 0;
              case RequestFailed =>
                failed := failed + |values|;
                values := [];
                aborted := batchSize == 0;
              case Unexpected =>
                aborted := true;
            }
          }
      }
      i := i + 1;
    }
    s := TState(values, successful, failed, pushes, aborted);
    if aborted {
      ToolAbortedStays(docs[..i], docs[i..], lbl, batchSize, parseTs, now, push);
      assert docs[..i] + docs[i..] == docs;
    } else {
      assert docs[..i] == docs;
    }
  }
}
