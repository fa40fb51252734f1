/** `run_ingestion` of the generic benchmark script: NDJSON lines are parsed one by one, good
    documents collect in a batch that is handed to the client's `bulk_ingest` once it holds
    `batch_size` documents, a non-empty leftover is handed over after the last line, and the
    `(ingested, errors)` pairs the client returns are summed.

    The client is an oracle: the `k`-th call of `bulk_ingest` with a batch answers
    `bulk(k, batch)`, either a pair or an exception. JSON parsing is the oracle `parse`.
    Every call the loop makes is recorded as a `Dispatch`, so that properties of the batches
    handed to the client can be stated. */
module ScriptIngestion {
  import opened Base
  import opened JsonValue
  import opened Text
  import Stats

  /** What one call of `bulk_ingest` did: return `(ingested, errors)`, or raise. */
  datatype Outcome = Ingested(ingested: int, errors: int) | Raised

  /** One call of `bulk_ingest`: the batch handed over, what came back, and whether it was
      the flush after the loop. */
  datatype Dispatch = Dispatch(batch: seq<Json>, outcome: Outcome, final: bool)

  /** The loop's local variables: `batch`, `total_docs`, `total_errors`, and the calls so far. */
  datatype Progress = Progress(batch: seq<Json>, totalDocs: int, totalErrors: int, calls: seq<Dispatch>)

  /** The dict `run_ingestion` returns. */
  datatype Report = Report(totalDocs: int, totalErrors: int, totalTimeSec: real, docsPerSec: real)

  /** The result of a run: the report (`None` when the function returns `None`) and every
      call made to the client, in order. */
  datatype Run = Run(report: Option<Report>, calls: seq<Dispatch>)

  /** `json.loads`; `None` is a `JSONDecodeError`. */
  type Parser = string -> Option<Json>

  /** The client's `bulk_ingest`, by call number and batch. */
  type BulkOracle = (nat, seq<Json>) -> Outcome

  /** The placeholder clients' `bulk_ingest`: every document ingested, no error. */
  function PlaceholderBulkIngest(k: nat, documents: seq<Json>): (o: Outcome)
    ensures o == Ingested(|documents|, 0)
  {
    Ingested(|documents|, 0)
  }

  function Initial(): Progress {
    Progress([], 0, 0, [])
  }

  /** The body of the `for line in f` loop. A line that does not parse counts one error.
      A parsed document is appended; when the batch reaches `batch_size` it is handed to the
      client. If the client raises, the error is counted once and the batch is kept, so the
      next parsed line re-sends it one document longer. Otherwise the pair is added and the
      batch emptied; the progress test `total_docs % (batch_size * 10)` then divides by zero
      when `batch_size` is 0, which the same handler counts as one more error. */
  function Step(p: Progress, line: string, batchSize: int, parse: Parser, bulk: BulkOracle): Progress {
    match parse(Strip(line))
    case None => p.(totalErrors := p.totalErrors + 1)
    case Some(doc) =>
      var batch := p.batch + [doc];
      if |batch| < batchSize then p.(batch := batch)
      else
        var outcome := bulk(|p.calls|, batch);
        var calls := p.calls + [Dispatch(batch, outcome, false)];
        match outcome
        case Raised => Progress(batch, p.totalDocs, p.totalErrors + 1, calls)
        case Ingested(n, e) =>
          Progress([], p.totalDocs + n, p.totalErrors + e + (if batchSize == 0 then 1 else 0), calls)
  }

  /** The loop's state after the given lines. */
  function Ingest(lines: seq<string>, batchSize: int, parse: Parser, bulk: BulkOracle): Progress
    decreases |lines|
  {
    if lines == [] then Initial()
    else Step(Ingest(lines[..|lines| - 1], batchSize, parse, bulk), lines[|lines| - 1], batchSize, parse, bulk)
  }

  function MakeReport(totalDocs: int, totalErrors: int, totalTime: real): Report {
    Report(totalDocs, totalErrors, totalTime, Stats.Throughput(totalDocs, totalTime))
  }

  /** After the loop: a non-empty leftover batch is handed over once. If that call raises,
      the outer handler makes the whole function return `None`. */
  function Finish(p: Progress, bulk: BulkOracle, totalTime: real): Run {
    if p.batch == [] then Run(Some(MakeReport(p.totalDocs, p.totalErrors, totalTime)), p.calls)
    else
      var outcome := bulk(|p.calls|, p.batch);
      var calls := p.calls + [Dispatch(p.batch, outcome, true)];
      match outcome
      case Raised => Run(None, calls)
      case Ingested(n, e) => Run(Some(MakeReport(p.totalDocs + n, p.totalErrors + e, totalTime)), calls)
  }

  /** A whole run over the lines of an existing file. */
  function Ingestion(lines: seq<string>, batchSize: int, parse: Parser, bulk: BulkOracle, totalTime: real): Run {
    Finish(Ingest(lines, batchSize, parse, bulk), bulk, totalTime)
  }

  // ---------------------------------------------------------------------------------------
  // Measures over the lines and over the recorded calls

  /** The documents the lines parse to, in order. */
  function Parsed(lines: seq<string>, parse: Parser): seq<Json>
    decreases |lines|
  {
    if lines == [] then []
    else
      var rest := Parsed(lines[..|lines| - 1], parse);
      match parse(Strip(lines[|lines| - 1]))
      case None => rest
      case Some(doc) => rest + [doc]
  }

  /** How many lines fail to parse. */
  function ParseFailures(lines: seq<string>, parse: Parser): nat
    decreases |lines|
  {
    if lines == [] then 0
    else ParseFailures(lines[..|lines| - 1], parse) + (if parse(Strip(lines[|lines| - 1])).None? then 1 else 0)
  }

  /** The documents of the batches the client accepted (did not raise on), in order. */
  function Accepted(calls: seq<Dispatch>): seq<Json>
    decreases |calls|
  {
    if calls == [] then []
    else Accepted(calls[..|calls| - 1]) + (if calls[|calls| - 1].outcome.Ingested? then calls[|calls| - 1].batch else [])
  }

  /** Every batch handed over, in order, re-sent ones included. */
  function AllSent(calls: seq<Dispatch>): seq<Json>
    decreases |calls|
  {
    if calls == [] then [] else AllSent(calls[..|calls| - 1]) + calls[|calls| - 1].batch
  }

  /** The sum of the `ingested` counts the client returned. */
  function SumIngested(calls: seq<Dispatch>): int
    decreases |calls|
  {
    if calls == [] then 0
    else SumIngested(calls[..|calls| - 1]) + (match calls[|calls| - 1].outcome case Ingested(n, _) => n case Raised => 0)
  }

  /** The sum of the `errors` counts the client returned. */
  function SumErrors(calls: seq<Dispatch>): int
    decreases |calls|
  {
    if calls == [] then 0
    else SumErrors(calls[..|calls| - 1]) + (match calls[|calls| - 1].outcome case Ingested(_, e) => e case Raised => 0)
  }

  /** How many calls raised. */
  function Raises(calls: seq<Dispatch>): nat
    decreases |calls|
  {
    if calls == [] then 0 else Raises(calls[..|calls| - 1]) + (if calls[|calls| - 1].outcome.Raised? then 1 else 0)
  }

  /** How many calls returned a pair. */
  function Returns(calls: seq<Dispatch>): nat
    decreases |calls|
  {
    if calls == [] then 0 else Returns(calls[..|calls| - 1]) + (if calls[|calls| - 1].outcome.Ingested? then 1 else 0)
  }

  /** No call raised. */
  predicate NoneRaised(calls: seq<Dispatch>) {
    forall k :: 0 <= k < |calls| ==> calls[k].outcome.Ingested?
  }

  // ---------------------------------------------------------------------------------------
  // Properties of the loop

  /** A line that does not parse adds exactly one error and changes nothing else: it never
      enters a batch and causes no call. */
  lemma ParseFailureOnlyCounts(lines: seq<string>, line: string, batchSize: int, parse: Parser, bulk: BulkOracle)
    requires parse(Strip(line)).None?
    ensures var before := Ingest(lines, batchSize, parse, bulk);
      Ingest(lines + [line], batchSize, parse, bulk) == before.(totalErrors := before.totalErrors + 1)
  {
    assert (lines + [line])[..|lines|] == lines;
  }

  /** One more line: the loop state is the step from the state before it. */
  lemma IngestSnoc(lines: seq<string>, batchSize: int, parse: Parser, bulk: BulkOracle)
    requires lines != []
    ensures Ingest(lines, batchSize, parse, bulk)
         == Step(Ingest(lines[..|lines| - 1], batchSize, parse, bulk), lines[|lines| - 1], batchSize, parse, bulk)
  {
  }

  /** The size of the `k`-th batch handed over in the loop: the threshold, or, right after a
      call that raised, the refused batch plus the one document that triggered the re-send. */
  function ExpectedSize(calls: seq<Dispatch>, k: nat, batchSize: int): nat
    requires k < |calls|
  {
    if k > 0 && calls[k - 1].outcome.Raised? then |calls[k - 1].batch| + 1 else Threshold(batchSize)
  }

  /** The calls of the loop: each is a loop call answered by the oracle for its number, and
      holds at least the threshold and exactly its expected size. */
  predicate CallsShaped(calls: seq<Dispatch>, batchSize: int, bulk: BulkOracle) {
    && (forall k :: 0 <= k < |calls| ==> !calls[k].final && calls[k].outcome == bulk(k, calls[k].batch))
    && (forall k :: 0 <= k < |calls| ==> |calls[k].batch| >= Threshold(batchSize))
    && (forall k :: 0 <= k < |calls| ==> |calls[k].batch| == ExpectedSize(calls, k, batchSize))
  }

  /** The last call raised. */
  predicate LastRaised(calls: seq<Dispatch>) {
    calls != [] && calls[|calls| - 1].outcome.Raised?
  }

  /** The shape of the hand-offs, as a property of a loop state (see `LoopDispatches`). */
  predicate Disciplined(p: Progress, batchSize: int, bulk: BulkOracle) {
    && CallsShaped(p.calls, batchSize, bulk)
    && (if LastRaised(p.calls) then p.batch == p.calls[|p.calls| - 1].batch
        else |p.batch| < Threshold(batchSize))
  }

  lemma AppendShaped(calls: seq<Dispatch>, batch: seq<Json>, batchSize: int, bulk: BulkOracle)
    requires CallsShaped(calls, batchSize, bulk)
    requires |batch| == if LastRaised(calls) then |calls[|calls| - 1].batch| + 1 else Threshold(batchSize)
    ensures CallsShaped(calls + [Dispatch(batch, bulk(|calls|, batch), false)], batchSize, bulk)
  {
    var q := calls + [Dispatch(batch, bulk(|calls|, batch), false)];
    forall k | 0 <= k < |q|
      ensures !q[k].final && q[k].outcome == bulk(k, q[k].batch)
      ensures |q[k].batch| >= Threshold(batchSize) && |q[k].batch| == ExpectedSize(q, k, batchSize)
    {
      if k > 0 {
        assert q[k - 1] == calls[k - 1];
      }
      if k < |calls| {
        assert q[k] == calls[k];
        assert ExpectedSize(q, k, batchSize) == ExpectedSize(calls, k, batchSize);
      } else if LastRaised(calls) {
        assert |calls[|calls| - 1].batch| >= Threshold(batchSize);
      }
    }
  }

  lemma StepDisciplined(p: Progress, line: string, batchSize: int, parse: Parser, bulk: BulkOracle)
    requires Disciplined(p, batchSize, bulk)
    ensures Disciplined(Step(p, line, batchSize, parse, bulk), batchSize, bulk)
  {
    match parse(Strip(line)) {
      case None =>
      case Some(doc) =>
        var batch := p.batch + [doc];
        if LastRaised(p.calls) {
          assert |p.calls[|p.calls| - 1].batch| >= Threshold(batchSize);
        }
        if |batch| >= batchSize {
          AppendShaped(p.calls, batch, batchSize, bulk);
        }
    }
  }

  /** How the loop hands batches over. Every call in the loop is a loop call answered by the
      oracle for its number; it holds exactly `batch_size` documents (one, for a batch size
      below one) unless the call before it raised, in which case it re-sends that batch with
      one more document. Between calls the pending batch stays below the threshold, except
      after a raise, when it is the batch that was refused. */
  lemma {:induction false} LoopDispatches(lines: seq<string>, batchSize: int, parse: Parser, bulk: BulkOracle)
    ensures Disciplined(Ingest(lines, batchSize, parse, bulk), batchSize, bulk)
  {
    if lines != [] {
      var init := lines[..|lines| - 1];
      LoopDispatches(init, batchSize, parse, bulk);
      IngestSnoc(lines, batchSize, parse, bulk);
      StepDisciplined(Ingest(init, batchSize, parse, bulk), lines[|lines| - 1], batchSize, parse, bulk);
    }
  }

  lemma StepPartition(p: Progress, line: string, batchSize: int, parse: Parser, bulk: BulkOracle)
    ensures var q := Step(p, line, batchSize, parse, bulk);
      Accepted(q.calls) + q.batch
        == Accepted(p.calls) + p.batch + (match parse(Strip(line)) case None => [] case Some(doc) => [doc])
  {
    var q := Step(p, line, batchSize, parse, bulk);
    match parse(Strip(line)) {
      case None =>
      case Some(doc) =>
        var batch := p.batch + [doc];
        if |batch| >= batchSize {
          var d := Dispatch(batch, bulk(|p.calls|, batch), false);
          assert q.calls == p.calls + [d];
          assert q.calls[..|q.calls| - 1] == p.calls;
        }
    }
  }

  /** The accepted batches followed by the pending batch are exactly the parsed documents,
      in file order: nothing is lost, nothing duplicated, and no failed line gets in. */
  lemma {:induction false} LoopPartition(lines: seq<string>, batchSize: int, parse: Parser, bulk: BulkOracle)
    ensures var p := Ingest(lines, batchSize, parse, bulk);
      Accepted(p.calls) + p.batch == Parsed(lines, parse)
  {
    if lines != [] {
      var init := lines[..|lines| - 1];
      LoopPartition(init, batchSize, parse, bulk);
      IngestSnoc(lines, batchSize, parse, bulk);
      StepPartition(Ingest(init, batchSize, parse, bulk), lines[|lines| - 1], batchSize, parse, bulk);
    }
  }

  /** The counter identity of `LoopCounters`, apart from the parse failures. */
  function Unexplained(p: Progress, batchSize: int): int {
    p.totalErrors - SumErrors(p.calls) - Raises(p.calls) - (if batchSize == 0 then Returns(p.calls) else 0)
  }

  lemma StepCounters(p: Progress, line: string, batchSize: int, parse: Parser, bulk: BulkOracle)
    ensures var q := Step(p, line, batchSize, parse, bulk);
      && q.totalDocs - SumIngested(q.calls) == p.totalDocs - SumIngested(p.calls)
      && Unexplained(q, batchSize) == Unexplained(p, batchSize) + (if parse(Strip(line)).None? then 1 else 0)
  {
    var q := Step(p, line, batchSize, parse, bulk);
    match parse(Strip(line)) {
      case None =>
      case Some(doc) =>
        var batch := p.batch + [doc];
        if |batch| >= batchSize {
          var d := Dispatch(batch, bulk(|p.calls|, batch), false);
          assert q.calls == p.calls + [d];
          assert q.calls[..|q.calls| - 1] == p.calls;
        }
    }
  }

  /** `total_docs` is the sum of the `ingested` counts; `total_errors` is the sum of the
      `errors` counts plus one per unparsable line, one per raising call, and, when
      `batch_size` is 0, one per returning call. */
  predicate CountersHold(p: Progress, failures: int, batchSize: int) {
    p.totalDocs == SumIngested(p.calls) && Unexplained(p, batchSize) == failures
  }

  lemma {:induction false} LoopCounters(lines: seq<string>, batchSize: int, parse: Parser, bulk: BulkOracle)
    ensures CountersHold(Ingest(lines, batchSize, parse, bulk), ParseFailures(lines, parse), batchSize)
  {
    if lines == [] {
      return;
    }
    var init := lines[..|lines| - 1];
    var line := lines[|lines| - 1];
    var p0 := Ingest(init, batchSize, parse, bulk);
    IngestSnoc(lines, batchSize, parse, bulk);
    LoopCounters(init, batchSize, parse, bulk);
    StepCounters(p0, line, batchSize, parse, bulk);
  }

  // ---------------------------------------------------------------------------------------
  // Properties of a whole run

  /** After the loop the leftover batch is handed over exactly once when it is non-empty,
      as the last call, and not at all when it is empty. */
  lemma FinalFlush(lines: seq<string>, batchSize: int, parse: Parser, bulk: BulkOracle, totalTime: real)
    ensures var p := Ingest(lines, batchSize, parse, bulk);
      var run := Ingestion(lines, batchSize, parse, bulk, totalTime);
      && |run.calls| == |p.calls| + (if p.batch == [] then 0 else 1)
      && run.calls[..|p.calls|] == p.calls
      && (p.batch != [] ==> run.calls[|run.calls| - 1] == Dispatch(p.batch, bulk(|p.calls|, p.batch), true))
      && (run.report.None? <==> p.batch != [] && bulk(|p.calls|, p.batch).Raised?)
  {
  }

  lemma FinishCounters(p: Progress, bulk: BulkOracle, totalTime: real)
    ensures var run := Finish(p, bulk, totalTime);
      run.report.Some? ==>
        && run.report.value.totalDocs - SumIngested(run.calls) == p.totalDocs - SumIngested(p.calls)
        && run.report.value.totalErrors - SumErrors(run.calls) == p.totalErrors - SumErrors(p.calls)
  {
    var run := Finish(p, bulk, totalTime);
    if p.batch != [] {
      assert run.calls[..|run.calls| - 1] == p.calls;
    }
  }

  /** The reported totals are the sums of what the client returned over all calls, the final
      one included, plus the errors the loop counts itself; the rate is the guarded
      throughput of the reported documents. */
  lemma RunCounters(lines: seq<string>, batchSize: int, parse: Parser, bulk: BulkOracle, totalTime: real)
    ensures var run := Ingestion(lines, batchSize, parse, bulk, totalTime);
      var p := Ingest(lines, batchSize, parse, bulk);
      run.report.Some? ==>
        && run.report.value.totalDocs == SumIngested(run.calls)
        && run.report.value.totalErrors == SumErrors(run.calls) + ParseFailures(lines, parse) + Raises(p.calls)
                                           + (if batchSize == 0 then Returns(p.calls) else 0)
        && run.report.value.docsPerSec == Stats.Throughput(run.report.value.totalDocs, totalTime)
  {
    var p := Ingest(lines, batchSize, parse, bulk);
    var run := Finish(p, bulk, totalTime);
    assert run == Ingestion(lines, batchSize, parse, bulk, totalTime);
    LoopCounters(lines, batchSize, parse, bulk);
    FinishCounters(p, bulk, totalTime);
  }

  lemma FinishClean(p: Progress, batchSize: int, bulk: BulkOracle, totalTime: real)
    requires Disciplined(p, batchSize, bulk)
    requires NoneRaised(Finish(p, bulk, totalTime).calls)
    ensures var run := Finish(p, bulk, totalTime);
      && run.report.Some?
      && AllSent(run.calls) == Accepted(p.calls) + p.batch
      && (forall k :: 0 <= k < |run.calls| && !run.calls[k].final ==> |run.calls[k].batch| == Threshold(batchSize))
      && (forall k :: 0 <= k < |run.calls| && run.calls[k].final ==>
            k == |run.calls| - 1 && 1 <= |run.calls[k].batch| <= Threshold(batchSize))
  {
    var run := Finish(p, bulk, totalTime);
    assert NoneRaised(p.calls) by {
      forall k | 0 <= k < |p.calls| ensures p.calls[k].outcome.Ingested? {
        assert run.calls[k] == p.calls[k];
      }
    }
    AcceptedAllSent(p.calls);
    forall k | 0 <= k < |p.calls| ensures |p.calls[k].batch| == Threshold(batchSize) {
      assert |p.calls[k].batch| == ExpectedSize(p.calls, k, batchSize);
      if k > 0 {
        assert p.calls[k - 1].outcome.Ingested?;
      }
    }
    if p.batch != [] {
      assert run.calls[..|run.calls| - 1] == p.calls;
      assert run.calls[|p.calls|].outcome.Ingested?;
      assert forall k :: 0 <= k < |p.calls| ==> run.calls[k] == p.calls[k];
    }
  }

  /** When the client never raises, the documents handed over are exactly the parsed
      documents in order; every loop batch holds exactly the threshold (`batch_size` for a
      positive size), and the final one between one and the threshold. */
  lemma CleanRunBatches(lines: seq<string>, batchSize: int, parse: Parser, bulk: BulkOracle, totalTime: real)
    requires NoneRaised(Ingestion(lines, batchSize, parse, bulk, totalTime).calls)
    ensures var run := Ingestion(lines, batchSize, parse, bulk, totalTime);
      && run.report.Some?
      && AllSent(run.calls) == Parsed(lines, parse)
      && (forall k :: 0 <= k < |run.calls| && !run.calls[k].final ==> |run.calls[k].batch| == Threshold(batchSize))
      && (forall k :: 0 <= k < |run.calls| && run.calls[k].final ==>
            k == |run.calls| - 1 && 1 <= |run.calls[k].batch| <= Threshold(batchSize))
  {
    LoopDispatches(lines, batchSize, parse, bulk);
    LoopPartition(lines, batchSize, parse, bulk);
    FinishClean(Ingest(lines, batchSize, parse, bulk), batchSize, bulk, totalTime);
  }

  lemma {:induction false} AcceptedAllSent(calls: seq<Dispatch>)
    requires NoneRaised(calls)
    ensures Accepted(calls) == AllSent(calls)
  {
    if calls != [] {
      AcceptedAllSent(calls[..|calls| - 1]);
    }
  }

  /** With the placeholder clients every parsed document is counted as ingested and the only
      errors are the unparsable lines (for a non-zero batch size). */
  lemma PlaceholderRun(lines: seq<string>, batchSize: int, parse: Parser, totalTime: real)
    requires batchSize != 0
    ensures var run := Ingestion(lines, batchSize, parse, PlaceholderBulkIngest, totalTime);
      && run.report.Some?
      && run.report.value.totalDocs == |Parsed(lines, parse)|
      && run.report.value.totalErrors == ParseFailures(lines, parse)
  {
    var bulk := PlaceholderBulkIngest;
    var run := Ingestion(lines, batchSize, parse, bulk, totalTime);
    var p := Ingest(lines, batchSize, parse, bulk);
    LoopCounters(lines, batchSize, parse, bulk);
    LoopPartition(lines, batchSize, parse, bulk);
    LoopDispatches(lines, batchSize, parse, bulk);
    PlaceholderSums(p.calls);
    if p.batch != [] {
      assert run.calls[..|run.calls| - 1] == p.calls;
    }
  }

  lemma {:induction false} PlaceholderSums(calls: seq<Dispatch>)
    requires forall k :: 0 <= k < |calls| ==> calls[k].outcome == PlaceholderBulkIngest(k, calls[k].batch)
    ensures SumIngested(calls) == |Accepted(calls)| && SumErrors(calls) == 0 && Raises(calls) == 0
  {
    if calls != [] {
      PlaceholderSums(calls[..|calls| - 1]);
    }
  }

  /** Three valid lines with a batch size of two: one batch of two and one of one are handed
      over; if the first is fully ingested and the second fully refused, two documents and
      one error are reported. */
  lemma ThreeLineExample(a: string, b: string, c: string, parse: Parser, bulk: BulkOracle, totalTime: real)
    requires parse(Strip(a)).Some? && parse(Strip(b)).Some? && parse(Strip(c)).Some?
    requires forall batch :: bulk(0, batch) == Ingested(|batch|, 0)
    requires forall batch :: bulk(1, batch) == Ingested(0, |batch|)
    ensures var run := Ingestion([a, b, c], 2, parse, bulk, totalTime);
      && |run.calls| == 2 && |run.calls[0].batch| == 2 && |run.calls[1].batch| == 1
      && run.report.Some? && run.report.value.totalDocs == 2 && run.report.value.totalErrors == 1
  {
    IngestSnoc([a], 2, parse, bulk);
    assert [a][..0] == [];
    var p1 := Ingest([a], 2, parse, bulk);
    assert p1 == Progress([parse(Strip(a)).value], 0, 0, []);
    IngestSnoc([a, b], 2, parse, bulk);
    assert [a, b][..1] == [a];
    var p2 := Ingest([a, b], 2, parse, bulk);
    assert p2.batch == [] && p2.totalDocs == 2 && p2.totalErrors == 0 && |p2.calls| == 1 && |p2.calls[0].batch| == 2;
    IngestSnoc([a, b, c], 2, parse, bulk);
    assert [a, b, c][..2] == [a, b];
    var p3 := Ingest([a, b, c], 2, parse, bulk);
    assert p3 == p2.(batch := [parse(Strip(c)).value]);
  }

  // ---------------------------------------------------------------------------------------
  // The imperative loop

  /** The `for line in f` loop of `run_ingestion`, from fresh variables. */
  method LineLoop(lines: seq<string>, batchSize: int, parse: Parser, bulk: BulkOracle) returns (p: Progress)
    ensures p == Ingest(lines, batchSize, parse, bulk)
  {
    var batch: seq<Json> := [];
    var totalDocs, totalErrors := 0, 0;
    var calls: seq<Dispatch> := [];
    var i := 0;
    while i < |lines|
      invariant 0 <= i <= |lines|
      invariant Progress(batch, totalDocs, totalErrors, calls) == Ingest(lines[..i], batchSize, parse, bulk)
    {
      assert lines[..i + 1][..i] == lines[..i];
      match parse(Strip(lines[i])) {
        case None =>
          totalErrors := totalErrors + 1;
        case Some(doc) =>
          batch := batch + [doc];
          if |batch| >= batchSize {
            var outcome := bulk(|calls|, batch);
            calls := calls + [Dispatch(batch, outcome, false)];
            match outcome {
              case Raised =>
                totalErrors := totalErrors + 1;
              case Ingested(n, e) =>
                totalDocs := totalDocs + n;
                totalErrors := totalErrors + e;
                batch := [];
                if batchSize == 0 {
                  totalErrors := totalErrors + 1;
                }
            }
          }
      }
      i := i + 1;
    }
    assert lines[..i] == lines;
    p := Progress(batch, totalDocs, totalErrors, calls);
  }

  /** `run_ingestion` over a data file; `None` for the file stands for `FileNotFoundError`.
      It returns the report and the calls made to the client. */
  method RunIngestion(file: Option<seq<string>>, batchSize: int, parse: Parser, bulk: BulkOracle, totalTime: real)
    returns (report: Option<Report>, calls: seq<Dispatch>)
    ensures file.None? ==> report.None? && calls == []
    ensures file.Some? ==> Run(report, calls) == Ingestion(file.value, batchSize, parse, bulk, totalTime)
  {
    if file.None? {
      return None, [];
    }
    var p := LineLoop(file.value, batchSize, parse, bulk);
    var batch, totalDocs, totalErrors := p.batch, p.totalDocs, p.totalErrors;
    calls := p.calls;
    if batch != [] {
      var outcome := bulk(|calls|, batch);
      calls := calls + [Dispatch(batch, outcome, true)];
      match outcome {
        case Raised =>
          return None, calls;
        case Ingested(n, e) =>
          totalDocs := totalDocs + n;
          totalErrors := totalErrors + e;
      }
    }
    report := Some(MakeReport(totalDocs, totalErrors, totalTime));
  }
}
