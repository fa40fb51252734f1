/** The Loki ingestion benchmark (`read_ndjson` and `run_ingestion` of the Loki tool):
    documents read from an NDJSON file are stamped with a nanosecond timestamp, appended to
    the stream of the run's labels, and pushed when that stream holds `batch_size` values;
    the non-empty streams are pushed once more at the end.

    Oracles stand for what the model cannot see: `parse` for `json.loads`, `parseTs` for the
    `datetime` conversion of a timestamp value, `now(k)` for `time.time()` in nanoseconds
    while the `k`-th document is stamped, and `push(k, streams)` for the `k`-th HTTP push. */
module LokiIngestion {
  import opened Base
  import opened JsonValue
  import opened Text
  import Stats

  /** A label set. */
  type Labels = map<string, string>

  /** One `[timestamp_ns, log_line]` value; the log line is the document `json.dumps` writes. */
  datatype Entry = Entry(timestampNs: int, line: Json)

  /** One `{"stream": labels, "values": [...]}` entry of a push payload. */
  datatype Stream = Stream(labels: Labels, values: seq<Entry>)

  /** What a push did: succeeded, raised a `RequestException`, or raised anything else. */
  datatype PushOutcome = Pushed | RequestFailed | Unexpected

  type PushOracle = (nat, seq<Stream>) -> PushOutcome

  /** One push: its streams, its outcome, and whether it was the flush after the loop. */
  datatype PushRecord = PushRecord(streams: seq<Stream>, outcome: PushOutcome, final: bool)

  /** The entries of `error_details`; the exception text itself is not modelled. */
  datatype Detail =
    | RequestError
    | UnexpectedPushError
    | FinalRequestError
    | UnexpectedFinalPushError
    | LoopError
    | DataFileNotFound

  /** Converting a timestamp value: the nanoseconds, a `ValueError`, or another exception. */
  datatype TsParse = Stamped(ns: int) | BadValue | Crash

  type TsParser = Json -> TsParse
  type Clock = nat -> int
  type Parser = string -> Option<Json>

  /** The ingestion loop's variables; `aborted` is set when an exception leaves the loop.
      Every document gets the run's one label set, so the `streams` dict can only ever hold
      the stream for that key: `pending` is its list of values (empty also before the
      stream is created, which no output can tell apart). */
  datatype LState = LState(
    pending: seq<Entry>,
    totalDocs: nat,
    successful: int,
    errors: int,
    details: seq<Detail>,
    pushes: seq<PushRecord>,
    aborted: bool)

  /** The dict `run_ingestion` returns. */
  datatype LokiReport = LokiReport(
    totalDocsAttempted: nat,
    successfulDocs: int,
    totalTime: real,
    docsPerSec: real,
    errors: int,
    errorDetails: seq<Detail>)

  datatype LokiRun = LokiRun(report: LokiReport, pushes: seq<PushRecord>)

  const DefaultIngestLabels: Labels := map["job" := "benchmark_ingest"]
  const MaxDetails := 10

  // ---------------------------------------------------------------------------------------
  // Reading the data file

  /** What one line of the file yields: nothing for a blank line or one that does not parse. */
  function LineDocs(line: string, parse: Parser): seq<Json> {
    var l := Strip(line);
    if l == [] then [] else match parse(l) case None => [] case Some(doc) => [doc]
  }

  /** The documents `read_ndjson` yields: each line stripped, blank lines skipped, lines that
      do not parse skipped. */
  function NdjsonDocs(lines: seq<string>, parse: Parser): seq<Json>
    decreases |lines|
  {
    if lines == [] then [] else NdjsonDocs(lines[..|lines| - 1], parse) + LineDocs(lines[|lines| - 1], parse)
  }

  /** Reading two pieces of a file one after the other yields the documents of each, in
      order. */
  lemma {:induction false} NdjsonConcat(a: seq<string>, b: seq<string>, parse: Parser)
    ensures NdjsonDocs(a + b, parse) == NdjsonDocs(a, parse) + NdjsonDocs(b, parse)
    decreases |b|
  {
    if b == [] {
      assert a + b == a;
    } else {
      var b0 := b[..|b| - 1];
      var last := b[|b| - 1];
      assert (a + b)[..|a + b| - 1] == a + b0;
      assert (a + b)[|a + b| - 1] == last;
      NdjsonConcat(a, b0, parse);
      calc {
        NdjsonDocs(a + b, parse);
        NdjsonDocs(a + b0, parse) + LineDocs(last, parse);
        NdjsonDocs(a, parse) + NdjsonDocs(b0, parse) + LineDocs(last, parse);
        NdjsonDocs(a, parse) + (NdjsonDocs(b0, parse) + LineDocs(last, parse));
      }
    }
  }

  /** Every document read is the parse of a non-blank stripped line of the file. */
  lemma {:induction false} NdjsonFromLines(lines: seq<string>, parse: Parser)
    ensures forall d :: d in NdjsonDocs(lines, parse) ==>
      exists l :: l in lines && Strip(l) != [] && parse(Strip(l)) == Some(d)
    decreases |lines|
  {
    if lines != [] {
      var init := lines[..|lines| - 1];
      NdjsonFromLines(init, parse);
      forall d | d in NdjsonDocs(lines, parse)
        ensures exists l :: l in lines && Strip(l) != [] && parse(Strip(l)) == Some(d)
      {
        if d in NdjsonDocs(init, parse) {
          var l :| l in init && Strip(l) != [] && parse(Strip(l)) == Some(d);
          assert l in lines;
        } else {
          assert lines[|lines| - 1] in lines;
        }
      }
    }
  }

  /** `read_ndjson` as the generator loop. */
  method ReadNdjson(lines: seq<string>, parse: Parser) returns (docs: seq<Json>)
    ensures docs == NdjsonDocs(lines, parse)
  {
    docs := [];
    var i := 0;
    while i < |lines|
      invariant 0 <= i <= |lines|
      invariant docs == NdjsonDocs(lines[..i], parse)
    {
      assert lines[..i + 1][..i] == lines[..i];
      var line := Strip(lines[i]);
      if line != [] {
        match parse(line) {
          case None =>
          case Some(doc) =>
            docs := docs + [doc];
        }
      }
      i := i + 1;
    }
    assert lines[..i] == lines;
  }

  // ---------------------------------------------------------------------------------------
  // Timestamps

  /** Python `x or y`. */
  function Or(x: Json, y: Json): Json {
    if Truthy(x) then x else y
  }

  /** `doc.get('@timestamp') or doc.get('timestamp') or doc.get('time')`. */
  function ChooseTimestamp(fields: map<string, Json>): Json {
    Or(Or(Lookup(fields, "@timestamp"), Lookup(fields, "timestamp")), Lookup(fields, "time"))
  }

  /** The chosen value is the first truthy one of `@timestamp`, `timestamp` and `time`, and
      is falsy (so the clock is used) only when none of them is truthy. */
  lemma TimestampPriority(fields: map<string, Json>)
    ensures var ts := ChooseTimestamp(fields);
      var a, b, c := Lookup(fields, "@timestamp"), Lookup(fields, "timestamp"), Lookup(fields, "time");
      && (Truthy(a) ==> ts == a)
      && (!Truthy(a) && Truthy(b) ==> ts == b)
      && (!Truthy(a) && !Truthy(b) && Truthy(c) ==> ts == c)
      && (Truthy(ts) <==> Truthy(a) || Truthy(b) || Truthy(c))
  {
  }

  /** The nanosecond timestamp of the `k`-th document; `None` is an exception that leaves the
      loop: `.get` on a document that is not a dict, or a conversion error other than
      `ValueError`. */
  function Stamp(doc: Json, k: nat, parseTs: TsParser, now: Clock): Option<int> {
    if !doc.JObj? then None
    else
      var ts := ChooseTimestamp(doc.fields);
      if !Truthy(ts) then Some(now(k))
      else
        match parseTs(ts)
        case Stamped(ns) => Some(ns)
        case BadValue => Some(now(k))
        case Crash => None
  }

  /** The clock is used exactly when no timestamp key holds a truthy value or its value
      raises `ValueError`; the document is rejected exactly when it is not a dict or the
      conversion raises something else. */
  lemma StampCases(doc: Json, k: nat, parseTs: TsParser, now: Clock)
    ensures Stamp(doc, k, parseTs, now).None? <==>
      !doc.JObj? || (Truthy(ChooseTimestamp(doc.fields)) && parseTs(ChooseTimestamp(doc.fields)).Crash?)
    ensures doc.JObj? && !Truthy(ChooseTimestamp(doc.fields)) ==> Stamp(doc, k, parseTs, now) == Some(now(k))
    ensures doc.JObj? && Truthy(ChooseTimestamp(doc.fields)) ==>
      match parseTs(ChooseTimestamp(doc.fields))
      case Stamped(ns) => Stamp(doc, k, parseTs, now) == Some(ns)
      case BadValue => Stamp(doc, k, parseTs, now) == Some(now(k))
      case Crash => Stamp(doc, k, parseTs, now).None?
  {
  }

  // ---------------------------------------------------------------------------------------
  // The ingestion loop

  function InitialState(): LState {
    LState([], 0, 0, 0, [], [], false)
  }

  /** The loop body for one document. It is counted, stamped and appended to the stream for
      `labels` (`Admit`). An exception while stamping leaves the loop. */
  function Step(s: LState, doc: Json, labels: Labels, batchSize: int, parseTs: TsParser, now: Clock, push: PushOracle): LState {
    if s.aborted then s
    else Admit(s.(totalDocs := s.totalDocs + 1), Stamp(doc, s.totalDocs, parseTs, now), doc, labels, batchSize, push)
  }

  /** A counted document once stamped: no stamp is the exception that leaves the loop;
      otherwise its value is taken (`Take`). */
  function Admit(s: LState, stamp: Option<int>, doc: Json, labels: Labels, batchSize: int, push: PushOracle): LState {
    match stamp
    case None => s.(aborted := true)
    case Some(ns) => Take(s, Entry(ns, doc), labels, batchSize, push)
  }

  /** Appending a value to the stream for `labels`; when the stream then holds `batch_size`
      values it is pushed (`Flush`). */
  function Take(s: LState, e: Entry, labels: Labels, batchSize: int, push: PushOracle): LState {
    var values := s.pending + [e];
    if |values| < batchSize then s.(pending := values)
    else Flush(s, values, labels, push)
  }

  /** Pushing the stream for `labels` alone: its size is added to the successes or to the
      errors (with one detail per failed push), and the stream is emptied. */
  function Flush(s: LState, values: seq<Entry>, labels: Labels, push: PushOracle): LState {
    var payload := [Stream(labels, values)];
    var outcome := push(|s.pushes|, payload);
    var t := s.(pending := [], pushes := s.pushes + [PushRecord(payload, outcome, false)]);
    match outcome
    case Pushed => t.(successful := s.successful + |values|)
    case RequestFailed => t.(errors := s.errors + |values|, details := s.details + [RequestError])
    case Unexpected => t.(errors := s.errors + |values|, details := s.details + [UnexpectedPushError])
  }

  /** What a loop push changes: one more push record holding the values, and the stream
      emptied. */
  lemma FlushEffect(s: LState, values: seq<Entry>, labels: Labels, push: PushOracle)
    ensures var t := Flush(s, values, labels, push);
      && t.totalDocs == s.totalDocs && t.aborted == s.aborted
      && t.pushes == s.pushes + [PushRecord([Stream(labels, values)], push(|s.pushes|, [Stream(labels, values)]), false)]
      && t.pending == []
      && Lines(t.pushes) == Lines(s.pushes) + LinesOf(values)
  {
    var t := Flush(s, values, labels, push);
    SingleStream(labels, values);
    assert t.pushes[..|t.pushes| - 1] == s.pushes;
  }

  /** A loop push counts its values once, as successes or as errors, and adds one error
      detail when it fails. */
  lemma FlushCounts(s: LState, values: seq<Entry>, labels: Labels, push: PushOracle)
    ensures var t := Flush(s, values, labels, push);
      && t.totalDocs == s.totalDocs && t.aborted == s.aborted && t.pending == []
      && OkDocs(t.pushes) - t.successful == OkDocs(s.pushes) - s.successful
      && FailedDocs(t.pushes) - t.errors == FailedDocs(s.pushes) - s.errors
      && FailedPushes(t.pushes) - |t.details| == FailedPushes(s.pushes) - |s.details|
      && OkDocs(t.pushes) + FailedDocs(t.pushes) == OkDocs(s.pushes) + FailedDocs(s.pushes) + |values|
  {
    var payload := [Stream(labels, values)];
    var ok := push(|s.pushes|, payload).Pushed?;
    var t := Flush(s, values, labels, push);
    SingleStream(labels, values);
    assert t.pushes[..|t.pushes| - 1] == s.pushes;
    assert OkDocs(t.pushes) == OkDocs(s.pushes) + (if ok then |values| else 0);
    assert FailedDocs(t.pushes) == FailedDocs(s.pushes) + (if ok then 0 else |values|);
    assert FailedPushes(t.pushes) == FailedPushes(s.pushes) + (if ok then 0 else 1);
  }

  /** The loop's state after the given documents. */
  function Loop(docs: seq<Json>, labels: Labels, batchSize: int, parseTs: TsParser, now: Clock, push: PushOracle): LState
    decreases |docs|
  {
    if docs == [] then InitialState()
    else
      var n := |docs| - 1;
      Step(Loop(docs[..n], labels, batchSize, parseTs, now, push), docs[n], labels, batchSize, parseTs, now, push)
  }

  /** At most ten entries of a list: `error_details[:10] if len(error_details) > 10 else
      error_details`. */
  function Cap(details: seq<Detail>): (r: seq<Detail>)
    ensures |r| == if |details| > MaxDetails then MaxDetails else |details|
    ensures r == details[..|r|]
  {
    if |details| > MaxDetails then details[..MaxDetails] else details
  }

  function MakeReport(totalDocs: nat, successful: int, errors: int, details: seq<Detail>, totalTime: real): LokiReport {
    LokiReport(totalDocs, successful, totalTime, Stats.Throughput(successful, totalTime), errors, Cap(details))
  }

  /** After the loop. When it was left by an exception, the values still waiting are counted
      as errors and a loop-error detail is added. Otherwise the non-empty streams (here, the
      run's one stream when it holds values) are pushed together once, and their size is
      added to the successes or to the errors. */
  function Finish(s: LState, labels: Labels, push: PushOracle, totalTime: real): LokiRun {
    var pending := s.pending;
    if s.aborted then
      LokiRun(MakeReport(s.totalDocs, s.successful, s.errors + |pending|, s.details + [LoopError], totalTime), s.pushes)
    else if pending == [] then
      LokiRun(MakeReport(s.totalDocs, s.successful, s.errors, s.details, totalTime), s.pushes)
    else
      var payload := [Stream(labels, pending)];
      var outcome := push(|s.pushes|, payload);
      var pushes := s.pushes + [PushRecord(payload, outcome, true)];
      match outcome
      case Pushed =>
        LokiRun(MakeReport(s.totalDocs, s.successful + |pending|, s.errors, s.details, totalTime), pushes)
      case RequestFailed =>
        LokiRun(MakeReport(s.totalDocs, s.successful, s.errors + |pending|, s.details + [FinalRequestError], totalTime), pushes)
      case Unexpected =>
        LokiRun(MakeReport(s.totalDocs, s.successful, s.errors + |pending|, s.details + [UnexpectedFinalPushError], totalTime), pushes)
  }

  /** The labels used: the default set when none is given. */
  function RunLabels(labels: Option<Labels>): Labels {
    if labels.None? then DefaultIngestLabels else labels.value
  }

  /** The report for a missing data file. */
  const MissingFileReport := LokiReport(0, 0, 0.0, 0.0, 1, [DataFileNotFound])

  /** `run_ingestion` over a file (`None`: `FileNotFoundError`). */
  function Ingestion(file: Option<seq<string>>, parse: Parser, labels: Option<Labels>, batchSize: int,
                     parseTs: TsParser, now: Clock, push: PushOracle, totalTime: real): LokiRun
  {
    if file.None? then LokiRun(MissingFileReport, [])
    else
      var lbl := RunLabels(labels);
      Finish(Loop(NdjsonDocs(file.value, parse), lbl, batchSize, parseTs, now, push), lbl, push, totalTime)
  }

  // ---------------------------------------------------------------------------------------
  // Measures over the pushes

  /** The log lines of some values, in order. */
  function LinesOf(values: seq<Entry>): seq<Json>
    decreases |values|
  {
    if values == [] then [] else LinesOf(values[..|values| - 1]) + [values[|values| - 1].line]
  }

  /** The number of values in a payload. */
  function Size(streams: seq<Stream>): nat
    decreases |streams|
  {
    if streams == [] then 0 else Size(streams[..|streams| - 1]) + |streams[|streams| - 1].values|
  }

  /** The log lines of a payload, in order. */
  function StreamLines(streams: seq<Stream>): seq<Json>
    decreases |streams|
  {
    if streams == [] then [] else StreamLines(streams[..|streams| - 1]) + LinesOf(streams[|streams| - 1].values)
  }

  /** The log lines of all pushes, in order. */
  function Lines(pushes: seq<PushRecord>): seq<Json>
    decreases |pushes|
  {
    if pushes == [] then [] else Lines(pushes[..|pushes| - 1]) + StreamLines(pushes[|pushes| - 1].streams)
  }

  /** The values in the pushes that succeeded. */
  function OkDocs(pushes: seq<PushRecord>): nat
    decreases |pushes|
  {
    if pushes == [] then 0
    else OkDocs(pushes[..|pushes| - 1]) + (if pushes[|pushes| - 1].outcome.Pushed? then Size(pushes[|pushes| - 1].streams) else 0)
  }

  /** The values in the pushes that failed. */
  function FailedDocs(pushes: seq<PushRecord>): nat
    decreases |pushes|
  {
    if pushes == [] then 0
    else FailedDocs(pushes[..|pushes| - 1]) + (if pushes[|pushes| - 1].outcome.Pushed? then 0 else Size(pushes[|pushes| - 1].streams))
  }

  /** The number of pushes that failed. */
  function FailedPushes(pushes: seq<PushRecord>): nat
    decreases |pushes|
  {
    if pushes == [] then 0
    else FailedPushes(pushes[..|pushes| - 1]) + (if pushes[|pushes| - 1].outcome.Pushed? then 0 else 1)
  }

  lemma SingleStream(labels: Labels, values: seq<Entry>)
    ensures Size([Stream(labels, values)]) == |values|
    ensures StreamLines([Stream(labels, values)]) == LinesOf(values)
  {
    assert [Stream(labels, values)][..0] == [];
  }

  // ---------------------------------------------------------------------------------------
  // Properties of the loop

  /** One more document: the loop state is the step from the state before it. */
  lemma LoopSnoc(docs: seq<Json>, labels: Labels, batchSize: int, parseTs: TsParser, now: Clock, push: PushOracle)
    requires docs != []
    ensures Loop(docs, labels, batchSize, parseTs, now, push)
         == Step(Loop(docs[..|docs| - 1], labels, batchSize, parseTs, now, push), docs[|docs| - 1], labels, batchSize, parseTs, now, push)
  {
  }

  /** The shape of a loop state: the only stream is the one for `labels`, it holds fewer
      values than the threshold, and every push so far is a loop push of that stream alone,
      holding exactly the threshold of values, answered by the oracle for its number. */
  predicate Shaped(s: LState, labels: Labels, batchSize: int, push: PushOracle) {
    && |s.pending| < Threshold(batchSize)
    && (forall k :: 0 <= k < |s.pushes| ==>
          && !s.pushes[k].final
          && |s.pushes[k].streams| == 1
          && s.pushes[k].streams[0].labels == labels
          && |s.pushes[k].streams[0].values| == Threshold(batchSize)
          && s.pushes[k].outcome == push(k, s.pushes[k].streams))
  }

  lemma TakeShaped(s: LState, e: Entry, labels: Labels, batchSize: int, push: PushOracle)
    requires Shaped(s, labels, batchSize, push)
    ensures Shaped(Take(s, e, labels, batchSize, push), labels, batchSize, push)
  {
    var values := s.pending + [e];
    var t := Take(s, e, labels, batchSize, push);
    if |values| >= batchSize {
      assert t == Flush(s, values, labels, push);
      FlushEffect(s, values, labels, push);
      assert |values| == Threshold(batchSize);
      forall k | 0 <= k < |t.pushes|
        ensures && !t.pushes[k].final
                && |t.pushes[k].streams| == 1
                && t.pushes[k].streams[0].labels == labels
                && |t.pushes[k].streams[0].values| == Threshold(batchSize)
                && t.pushes[k].outcome == push(k, t.pushes[k].streams)
      {
        if k < |s.pushes| {
          assert t.pushes[k] == s.pushes[k];
        }
      }
    }
  }

  lemma StepShaped(s: LState, doc: Json, labels: Labels, batchSize: int, parseTs: TsParser, now: Clock, push: PushOracle)
    requires Shaped(s, labels, batchSize, push)
    ensures Shaped(Step(s, doc, labels, batchSize, parseTs, now, push), labels, batchSize, push)
  {
    if !s.aborted {
      var u := s.(totalDocs := s.totalDocs + 1);
      var stamp := Stamp(doc, s.totalDocs, parseTs, now);
      assert Step(s, doc, labels, batchSize, parseTs, now, push) == Admit(u, stamp, doc, labels, batchSize, push);
      if stamp.Some? {
        TakeShaped(u, Entry(stamp.value, doc), labels, batchSize, push);
      }
    }
  }

  lemma {:induction false} LoopShape(docs: seq<Json>, labels: Labels, batchSize: int, parseTs: TsParser, now: Clock, push: PushOracle)
    ensures Shaped(Loop(docs, labels, batchSize, parseTs, now, push), labels, batchSize, push)
  {
    if docs != [] {
      var init := docs[..|docs| - 1];
      LoopShape(init, labels, batchSize, parseTs, now, push);
      LoopSnoc(docs, labels, batchSize, parseTs, now, push);
      StepShaped(Loop(init, labels, batchSize, parseTs, now, push), docs[|docs| - 1], labels, batchSize, parseTs, now, push);
    }
  }

  /** The counters agree with the pushes: `successful_docs` is the size of the pushes that
      succeeded, `errors` that of the pushes that failed, `error_details` has one entry per
      failed push, and every counted document is in a push or still waiting, except the one
      whose exception left the loop. */
  predicate Accounted(s: LState, labels: Labels) {
    && s.successful == OkDocs(s.pushes)
    && s.errors == FailedDocs(s.pushes)
    && |s.details| == FailedPushes(s.pushes)
    && OkDocs(s.pushes) + FailedDocs(s.pushes) + |s.pending| == s.totalDocs - (if s.aborted then 1 else 0)
  }

  lemma StepAccounted(s: LState, doc: Json, labels: Labels, batchSize: int, parseTs: TsParser, now: Clock, push: PushOracle)
    requires Accounted(s, labels)
    requires s.aborted ==> s.totalDocs >= 1
    ensures var t := Step(s, doc, labels, batchSize, parseTs, now, push);
      Accounted(t, labels) && (t.aborted ==> t.totalDocs >= 1)
  {
    if !s.aborted {
      var stamp := Stamp(doc, s.totalDocs, parseTs, now);
      assert Step(s, doc, labels, batchSize, parseTs, now, push)
          == Admit(s.(totalDocs := s.totalDocs + 1), stamp, doc, labels, batchSize, push);
      AdmitAccounted(s, stamp, doc, labels, batchSize, push);
    }
  }

  lemma AdmitAccounted(s: LState, stamp: Option<int>, doc: Json, labels: Labels, batchSize: int, push: PushOracle)
    requires Accounted(s, labels) && !s.aborted
    ensures var t := Admit(s.(totalDocs := s.totalDocs + 1), stamp, doc, labels, batchSize, push);
      Accounted(t, labels) && (t.aborted ==> t.totalDocs >= 1)
  {
    if stamp.Some? {
      var u := s.(totalDocs := s.totalDocs + 1);
      var values := s.pending + [Entry(stamp.value, doc)];
      if |values| >= batchSize {
        FlushCounts(u, values, labels, push);
      }
    }
  }

  lemma {:induction false} LoopAccounted(docs: seq<Json>, labels: Labels, batchSize: int, parseTs: TsParser, now: Clock, push: PushOracle)
    ensures var s := Loop(docs, labels, batchSize, parseTs, now, push);
      Accounted(s, labels) && (s.aborted ==> s.totalDocs >= 1)
  {
    if docs != [] {
      var init := docs[..|docs| - 1];
      LoopAccounted(init, labels, batchSize, parseTs, now, push);
      LoopSnoc(docs, labels, batchSize, parseTs, now, push);
      StepAccounted(Loop(init, labels, batchSize, parseTs, now, push), docs[|docs| - 1], labels, batchSize, parseTs, now, push);
    }
  }

  /** How far the loop got: the number of documents taken from the file. */
  function Taken(s: LState): int {
    s.totalDocs - (if s.aborted then 1 else 0)
  }

  /** The log lines pushed so far, followed by those still waiting, are the documents the
      loop took, in file order; a loop that was not left early took every document. */
  predicate Ordered(s: LState, docs: seq<Json>, labels: Labels) {
    && 0 <= Taken(s) <= s.totalDocs <= |docs|
    && (!s.aborted ==> s.totalDocs == |docs|)
    && Lines(s.pushes) + LinesOf(s.pending) == docs[..Taken(s)]
  }

  lemma LinesOfSnoc(values: seq<Entry>, e: Entry)
    ensures LinesOf(values + [e]) == LinesOf(values) + [e.line]
  {
    assert (values + [e])[..|values|] == values;
  }

  /** Taking one value keeps the pushed lines followed by the waiting ones equal to the
      lines taken so far, now followed by the new one. */
  lemma TakeLines(s: LState, e: Entry, labels: Labels, batchSize: int, push: PushOracle)
    ensures var t := Take(s, e, labels, batchSize, push);
      && t.totalDocs == s.totalDocs && t.aborted == s.aborted
      && Lines(t.pushes) + LinesOf(t.pending)
         == Lines(s.pushes) + LinesOf(s.pending) + [e.line]
  {
    var values := s.pending + [e];
    LinesOfSnoc(s.pending, e);
    if |values| >= batchSize {
      FlushEffect(s, values, labels, push);
    }
  }

  lemma StepOrdered(all: seq<Json>, s: LState, labels: Labels, batchSize: int, parseTs: TsParser, now: Clock, push: PushOracle)
    requires all != []
    requires Ordered(s, all[..|all| - 1], labels)
    requires s.aborted ==> s.totalDocs >= 1
    ensures Ordered(Step(s, all[|all| - 1], labels, batchSize, parseTs, now, push), all, labels)
  {
    var docs, doc := all[..|all| - 1], all[|all| - 1];
    assert all == docs + [doc];
    if s.aborted {
      assert all[..Taken(s)] == docs[..Taken(s)];
    } else {
      var stamp := Stamp(doc, s.totalDocs, parseTs, now);
      assert Step(s, doc, labels, batchSize, parseTs, now, push)
          == Admit(s.(totalDocs := s.totalDocs + 1), stamp, doc, labels, batchSize, push);
      AdmitOrdered(docs, s, stamp, doc, labels, batchSize, push);
    }
  }

  lemma AdmitOrdered(docs: seq<Json>, s: LState, stamp: Option<int>, doc: Json, labels: Labels, batchSize: int, push: PushOracle)
    requires Ordered(s, docs, labels) && !s.aborted
    ensures Ordered(Admit(s.(totalDocs := s.totalDocs + 1), stamp, doc, labels, batchSize, push), docs + [doc], labels)
  {
    var all := docs + [doc];
    assert all[..|docs|] == docs;
    match stamp {
      case None =>
        assert all[..Taken(s)] == docs[..Taken(s)];
      case Some(ns) =>
        var u := s.(totalDocs := s.totalDocs + 1);
        TakeLines(u, Entry(ns, doc), labels, batchSize, push);
        assert all[..|docs| + 1] == docs + [doc];
    }
  }

  lemma {:induction false} LoopOrdered(docs: seq<Json>, labels: Labels, batchSize: int, parseTs: TsParser, now: Clock, push: PushOracle)
    ensures var s := Loop(docs, labels, batchSize, parseTs, now, push);
      Ordered(s, docs, labels) && (s.aborted ==> s.totalDocs >= 1)
  {
    if docs != [] {
      var init := docs[..|docs| - 1];
      var s0 := Loop(init, labels, batchSize, parseTs, now, push);
      LoopOrdered(init, labels, batchSize, parseTs, now, push);
      LoopSnoc(docs, labels, batchSize, parseTs, now, push);
      StepOrdered(docs, s0, labels, batchSize, parseTs, now, push);
    }
  }

  // ---------------------------------------------------------------------------------------
  // Properties of a whole run

  /** After a loop that was not left early, the waiting values are pushed exactly once when
      there are any, in one final push of the single stream, and not at all otherwise. */
  lemma FinalPush(docs: seq<Json>, labels: Labels, batchSize: int, parseTs: TsParser, now: Clock, push: PushOracle, totalTime: real)
    ensures var s := Loop(docs, labels, batchSize, parseTs, now, push);
      var run := Finish(s, labels, push, totalTime);
      var pending := s.pending;
      && run.pushes[..|s.pushes|] == s.pushes
      && |run.pushes| == |s.pushes| + (if s.aborted || pending == [] then 0 else 1)
      && (!s.aborted && pending != [] ==>
            && run.pushes[|s.pushes|].final
            && run.pushes[|s.pushes|].streams == [Stream(labels, pending)]
            && 1 <= |pending| < Threshold(batchSize))
  {
    LoopShape(docs, labels, batchSize, parseTs, now, push);
  }

  /** Error accounting of a whole run: every document taken from the file is either a
      success or an error, except the one whose exception left the loop; `errors` is the
      size of the failed pushes plus, after such an exception, the values left waiting; and
      before the cap there is one error detail per failed push, plus one after an
      exception. */
  lemma RunAccounting(docs: seq<Json>, labels: Labels, batchSize: int, parseTs: TsParser, now: Clock, push: PushOracle, totalTime: real)
    ensures var s := Loop(docs, labels, batchSize, parseTs, now, push);
      var r := Finish(s, labels, push, totalTime).report;
      var pushes := Finish(s, labels, push, totalTime).pushes;
      && r.totalDocsAttempted == s.totalDocs
      && r.successfulDocs == OkDocs(pushes)
      && r.errors == FailedDocs(pushes) + (if s.aborted then |s.pending| else 0)
      && r.successfulDocs + r.errors == s.totalDocs - (if s.aborted then 1 else 0)
      && (!s.aborted ==> r.totalDocsAttempted == |docs|)
      && r.docsPerSec == Stats.Throughput(r.successfulDocs, totalTime)
  {
    LoopAccounted(docs, labels, batchSize, parseTs, now, push);
    LoopOrdered(docs, labels, batchSize, parseTs, now, push);
    FinishAccounting(Loop(docs, labels, batchSize, parseTs, now, push), labels, push, totalTime);
  }

  lemma FinishAccounting(s: LState, labels: Labels, push: PushOracle, totalTime: real)
    requires Accounted(s, labels)
    ensures var run := Finish(s, labels, push, totalTime);
      var r := run.report;
      && r.totalDocsAttempted == s.totalDocs
      && r.successfulDocs == OkDocs(run.pushes)
      && r.errors == FailedDocs(run.pushes) + (if s.aborted then |s.pending| else 0)
      && r.successfulDocs + r.errors == s.totalDocs - (if s.aborted then 1 else 0)
      && r.docsPerSec == Stats.Throughput(r.successfulDocs, totalTime)
      && (!s.aborted ==> Lines(run.pushes) == Lines(s.pushes) + LinesOf(s.pending))
  {
    var pending := s.pending;
    if !s.aborted && pending != [] {
      var run := Finish(s, labels, push, totalTime);
      SingleStream(labels, pending);
      assert run.pushes[..|run.pushes| - 1] == s.pushes;
    }
  }

  /** The error details before the cap: one per failed push, plus one after an exception. */
  function UncappedDetails(docs: seq<Json>, labels: Labels, batchSize: int, parseTs: TsParser, now: Clock, push: PushOracle): nat {
    var s := Loop(docs, labels, batchSize, parseTs, now, push);
    var pending := s.pending;
    var finalFails := !s.aborted && pending != [] && !push(|s.pushes|, [Stream(labels, pending)]).Pushed?;
    FailedPushes(s.pushes) + (if s.aborted || finalFails then 1 else 0)
  }

  /** The reported details are the first ten of the collected ones, which number one per
      failed push, plus one after an exception. */
  lemma RunDetails(docs: seq<Json>, labels: Labels, batchSize: int, parseTs: TsParser, now: Clock, push: PushOracle, totalTime: real)
    ensures var run := Finish(Loop(docs, labels, batchSize, parseTs, now, push), labels, push, totalTime);
      var n := UncappedDetails(docs, labels, batchSize, parseTs, now, push);
      |run.report.errorDetails| == if n > MaxDetails then MaxDetails else n
  {
    LoopAccounted(docs, labels, batchSize, parseTs, now, push);
  }

  /** On a run that is not left early, the log lines pushed are exactly the documents read,
      in file order, and `successful_docs + errors == total_docs_attempted`. */
  lemma CompleteRun(docs: seq<Json>, labels: Labels, batchSize: int, parseTs: TsParser, now: Clock, push: PushOracle, totalTime: real)
    requires !Loop(docs, labels, batchSize, parseTs, now, push).aborted
    ensures var run := Finish(Loop(docs, labels, batchSize, parseTs, now, push), labels, push, totalTime);
      && Lines(run.pushes) == docs
      && run.report.successfulDocs + run.report.errors == run.report.totalDocsAttempted == |docs|
  {
    var s := Loop(docs, labels, batchSize, parseTs, now, push);
    LoopAccounted(docs, labels, batchSize, parseTs, now, push);
    LoopOrdered(docs, labels, batchSize, parseTs, now, push);
    FinishAccounting(s, labels, push, totalTime);
    assert docs[..Taken(s)] == docs;
  }

  /** A document that is not a dict ends the loop: it is counted, nothing of it is pushed,
      and no later document is read. */
  lemma NonDictStops(docs: seq<Json>, doc: Json, rest: seq<Json>, labels: Labels, batchSize: int, parseTs: TsParser, now: Clock, push: PushOracle)
    requires !doc.JObj?
    requires !Loop(docs, labels, batchSize, parseTs, now, push).aborted
    ensures var s := Loop(docs, labels, batchSize, parseTs, now, push);
      Loop(docs + [doc] + rest, labels, batchSize, parseTs, now, push) == s.(totalDocs := s.totalDocs + 1, aborted := true)
  {
    AbortedStays(docs + [doc], rest, labels, batchSize, parseTs, now, push);
    assert (docs + [doc])[..|docs|] == docs;
  }

  /** Once left, the loop takes no further document. */
  lemma {:induction false} AbortedStays(docs: seq<Json>, rest: seq<Json>, labels: Labels, batchSize: int, parseTs: TsParser, now: Clock, push: PushOracle)
    requires Loop(docs, labels, batchSize, parseTs, now, push).aborted
    ensures Loop(docs + rest, labels, batchSize, parseTs, now, push) == Loop(docs, labels, batchSize, parseTs, now, push)
    decreases |rest|
  {
    if rest == [] {
      assert docs + rest == docs;
    } else {
      var r0 := rest[..|rest| - 1];
      var all := docs + rest;
      assert all[..|all| - 1] == docs + r0;
      AbortedStays(docs, r0, labels, batchSize, parseTs, now, push);
      LoopSnoc(all, labels, batchSize, parseTs, now, push);
    }
  }

  // ---------------------------------------------------------------------------------------
  // The imperative loop

  /** The document loop of `run_ingestion`, from fresh variables; it stops at the first
      exception. */
  method DocumentLoop(docs: seq<Json>, lbl: Labels, batchSize: int, parseTs: TsParser, now: Clock, push: PushOracle)
    returns (s: LState)
    ensures s == Loop(docs, lbl, batchSize, parseTs, now, push)
  {
    s := InitialState();
    var i := 0;
    while i < |docs| && !s.aborted
      invariant 0 <= i <= |docs|
      invariant s == Loop(docs[..i], lbl, batchSize, parseTs, now, push)
    {
      assert docs[..i + 1][..i] == docs[..i];
      s := TakeDocument(s, docs[i], lbl, batchSize, parseTs, now, push);
      i := i + 1;
    }
    if s.aborted {
      AbortedStays(docs[..i], docs[i..], lbl, batchSize, parseTs, now, push);
      assert docs[..i] + docs[i..] == docs;
    } else {
      assert docs[..i] == docs;
    }
  }

  /** One turn of the document loop: the document is counted and stamped, its value
      appended to the stream, and a full stream pushed. */
  method TakeDocument(s: LState, doc: Json, lbl: Labels, batchSize: int, parseTs: TsParser, now: Clock, push: PushOracle)
    returns (t: LState)
    requires !s.aborted
    ensures t == Step(s, doc, lbl, batchSize, parseTs, now, push)
  {
    var k := s.totalDocs;
    match Stamp(doc, k, parseTs, now) {
      case None =>
        t := s.(totalDocs := k + 1, aborted := true);
      case Some(ns) =>
        var values := s.pending + [Entry(ns, doc)];
        if |values| < batchSize {
          t := s.(totalDocs := k + 1, pending := values);
        } else {
          var successful, errors, details, pushes := PushStream(values, lbl, push, s.successful, s.errors, s.details, s.pushes);
          t := LState([], k + 1, successful, errors, details, pushes, false);
        }
    }
  }

  /** The `try` block that pushes a full stream, with its two handlers: the counters and
      the pushes after it. */
  method PushStream(values: seq<Entry>, lbl: Labels, push: PushOracle,
                    successful: int, errors: int, details: seq<Detail>, pushes: seq<PushRecord>)
    returns (successful': int, errors': int, details': seq<Detail>, pushes': seq<PushRecord>)
    ensures var t := Flush(LState([], 0, successful, errors, details, pushes, false), values, lbl, push);
      successful' == t.successful && errors' == t.errors && details' == t.details && pushes' == t.pushes
  {
    var payload := [Stream(lbl, values)];
    var outcome := push(|pushes|, payload);
    pushes' := pushes + [PushRecord(payload, outcome, false)];
    successful', errors', details' := successful, errors, details;
    match outcome {
      case Pushed =>
        successful' := successful + |values|;
      case RequestFailed =>
        errors' := errors + |values|;
        details' := details + [RequestError];
      case Unexpected =>
        errors' := errors + |values|;
        details' := details + [UnexpectedPushError];
    }
  }

  /** `run_ingestion`: the report and the pushes made. */
  method RunIngestion(file: Option<seq<string>>, parse: Parser, labels: Option<Labels>, batchSize: int,
                      parseTs: TsParser, now: Clock, push: PushOracle, totalTime: real)
    returns (report: LokiReport, pushes: seq<PushRecord>)
    ensures LokiRun(report, pushes) == Ingestion(file, parse, labels, batchSize, parseTs, now, push, totalTime)
  {
    if file.None? {
      return MissingFileReport, [];
    }
    var lbl := RunLabels(labels);
    var docs := ReadNdjson(file.value, parse);
    var s := DocumentLoop(docs, lbl, batchSize, parseTs, now, push);
    report, pushes := AfterLoop(s, lbl, push, totalTime);
  }

  /** What follows the document loop: the loop-error accounting, or the final push. */
  method AfterLoop(s: LState, lbl: Labels, push: PushOracle, totalTime: real) returns (report: LokiReport, pushes: seq<PushRecord>)
    ensures LokiRun(report, pushes) == Finish(s, lbl, push, totalTime)
  {
    var pending := s.pending;
    pushes := s.pushes;
    if s.aborted {
      report := MakeReport(s.totalDocs, s.successful, s.errors + |pending|, s.details + [LoopError], totalTime);
      return;
    }
    var successful, errors, details := s.successful, s.errors, s.details;
    if pending != [] {
      var payload := [Stream(lbl, pending)];
      var outcome := push(|pushes|, payload);
      pushes := pushes + [PushRecord(payload, outcome, true)];
      match outcome {
        case Pushed =>
          successful := successful + |pending|;
        case RequestFailed =>
          errors := errors + |pending|;
          details := details + [FinalRequestError];
        case Unexpected =>
          errors := errors + |pending|;
          details := details + [UnexpectedFinalPushError];
      }
    }
    report := MakeReport(s.totalDocs, successful, errors, details, totalTime);
  }
}
