# Log-store benchmark drivers, modelled in Dafny

The repository benchmarks log stores (Elasticsearch, Grafana Loki and several search
engines) by driving them from Python. This project models the parts of those drivers that
decide what is sent and what is reported:

- the generic benchmark script (`scripts/benchmark.py`):
  - `run_ingestion` parses NDJSON lines, hands batches to a client's `bulk_ingest`, and sums
    the `(ingested, errors)` pairs it gets back;
  - `run_queries` sends each query, records a latency and a hit count per query, and
    summarises them;
  - the placeholder clients' `bulk_ingest` and their canned query responses;
- the Loki tool (`benchmarks/grafana-loki-benchmark-tool/src/benchmark.py`):
  - `read_ndjson`, `run_ingestion` (timestamps, one stream per label set, pushes of
    `batch_size` values, a final push, error accounting);
  - `run_queries` (LogQL range queries, latencies, errors);
  - the class `BenchmarkTool`: its constructor and `bulk_ingest`;
- `parse_labels` of the Loki command line
  (`benchmarks/grafana-loki-benchmark-tool/src/cli.py`);
- the Elasticsearch tool (`benchmarks/elasticsearch-benchmark-tool/src/benchmark.py`):
  `ensure_index`, `bulk_ingest` (one index action per log, sent in slices of
  `batch_size`), `search_logs` and `run_benchmark`.

Everything the drivers cannot decide themselves is a parameter:
- the JSON parser;
- the timestamp conversion;
- the clock;
- the HTTP push, query and bulk calls, each numbered by the order of the calls.

For the Elasticsearch tool, the client is a `Cluster` object. It keeps the set of existing
indices and the log of the client calls made on it, and every method updates them. A
`helpers.bulk` call is one entry of that log, however many HTTP requests the library makes
for it. Two oracles of the `Cluster`, indexed by the position of the call in the log, decide
whether a call raises and what a search returns. The tool catches no exception, so the first
call that raises ends `run_benchmark`.

The module layout:

| file | module | what |
|---|---|---|
| `base.dfy` | `Base` | `Option`, `Result`, the batch threshold |
| `json.dfy` | `JsonValue` | JSON values, Python truthiness, `dict.get` |
| `text.dfy` | `Text` | `strip`, `rstrip`, `split`, `startswith` |
| `stats.dfy` | `Stats` | mean, min, max, throughput |
| `ingest_script.dfy` | `ScriptIngestion` | `run_ingestion` of the script |
| `queries_script.dfy` | `ScriptQueries` | `run_queries` of the script, hit-count extraction |
| `loki_ingest.dfy` | `LokiIngestion` | `read_ndjson`, `run_ingestion` of the Loki tool |
| `loki_queries.dfy` | `LokiQueries` | `run_queries` of the Loki tool |
| `loki_tool.dfy` | `LokiTool` | the Loki `BenchmarkTool` class |
| `loki_cli.dfy` | `LokiCli` | `parse_labels` |
| `es_tool.dfy` | `EsBenchmark` | the Elasticsearch `BenchmarkTool` class |

Every `for` or `while` statement of the source is a `method` with a `while` loop. Each loop
is proved to compute a left fold written as a function. The list comprehensions of the
source (the script's query loading, the Elasticsearch actions) are functions only. The properties the code promises are proved
about those functions as lemmas.

## Model

| member | source | states |
|---|---|---|
| Base.Threshold | scripts/benchmark.py:285 | the batch length at which `len(batch) >= batch_size` first holds: it holds there, and at the length before it (when there is one) it does not; so `batch_size` when it is positive, 1 otherwise |
| JsonValue.Get | scripts/benchmark.py:389 | `j.get(key, default)` is defined exactly on dicts; it returns the value for a present key and the default for an absent one |
| Text.TrimEndChar | benchmarks/grafana-loki-benchmark-tool/src/benchmark.py:234 | `rstrip('/')` gives a prefix that does not end in `/`, and only `/` characters were removed |
| Text.TrimStartSpec | benchmarks/grafana-loki-benchmark-tool/src/cli.py:24-25 | removing leading whitespace gives a suffix that starts with no whitespace, and every removed character is whitespace |
| Text.TrimEndSpec | benchmarks/grafana-loki-benchmark-tool/src/cli.py:24-25 | removing trailing whitespace gives a prefix that ends with no whitespace, and every removed character is whitespace |
| Text.StripIsSlice | benchmarks/grafana-loki-benchmark-tool/src/cli.py:24-25 | `strip()` is a contiguous slice, and it is empty or starts and ends with non-whitespace |
| Text.StripKeeps | benchmarks/grafana-loki-benchmark-tool/src/cli.py:24 | stripping whitespace keeps every non-space character, so `'='` is in the stripped pair iff it is in the pair |
| Text.StripStripped | benchmarks/grafana-loki-benchmark-tool/src/cli.py:24-25 | `strip()` leaves unchanged a string that neither starts nor ends with whitespace |
| Text.Split | benchmarks/grafana-loki-benchmark-tool/src/cli.py:23 | `split(',')` gives at least one piece; no piece holds a comma; joining the pieces with commas gives back the input |
| Text.SplitWithout | benchmarks/grafana-loki-benchmark-tool/src/cli.py:23 | a string without the separator splits into itself alone |
| Text.SplitTrailing | benchmarks/grafana-loki-benchmark-tool/src/cli.py:23 | a trailing separator adds one empty last piece |
| Text.SplitOnce | benchmarks/grafana-loki-benchmark-tool/src/cli.py:24 | `split('=', 1)` has two parts iff `'='` occurs; the parts joined by `'='` give the input; the first part holds no `'='` |
| Text.SplitOnceAt | benchmarks/grafana-loki-benchmark-tool/src/cli.py:24 | splitting `k + "=" + v` with `k` free of `'='` gives back exactly `k` and `v` |
| Stats.Min | scripts/benchmark.py:412 | `min(xs)` is an element of `xs` and no larger than any element |
| Stats.Max | scripts/benchmark.py:413 | `max(xs)` is an element of `xs` and no smaller than any element |
| Stats.SumBetween | scripts/benchmark.py:411 | bounds on every sample bound `sum(xs)` by the count times the bounds |
| Stats.MeanBounds | scripts/benchmark.py:411 | bounds on every sample bound `sum(xs) / len(xs)` |
| Stats.MeanBetween | scripts/benchmark.py:411-413 | the mean lies between `min` and `max` |
| Stats.Throughput | scripts/benchmark.py:316 | `count / seconds` when the duration is positive, 0 otherwise, and never negative for a non-negative count |
| ScriptIngestion.PlaceholderBulkIngest | scripts/benchmark.py:72-77 | the placeholder `bulk_ingest` reports every document ingested and no error |
| ScriptIngestion.Step | scripts/benchmark.py:281-297 | one turn of the `for line in f` loop: a parse failure counts one error; a parsed document is appended, and a batch that reaches `batch_size` is handed over; a raise counts one error and keeps the batch; a returned pair is added and the batch emptied, with one more error when the progress test divides by zero |
| ScriptIngestion.Ingest | scripts/benchmark.py:279-297 | the loop state after the given lines, one `Step` per line from empty variables |
| ScriptIngestion.Finish | scripts/benchmark.py:300-329 | after the loop: a non-empty batch is handed over once more; a raise there returns `None`; otherwise the report with the guarded rate |
| ScriptIngestion.Ingestion | scripts/benchmark.py:258-329 | a whole run over the lines of an existing file: `Ingest`, then `Finish` |
| ScriptIngestion.ParseFailureOnlyCounts | scripts/benchmark.py:292-294 | a line that does not parse adds exactly one error and changes neither the batch, the document total nor the calls |
| ScriptIngestion.IngestSnoc | scripts/benchmark.py:280-297 | the loop state after one more line is one loop step from the state before it |
| ScriptIngestion.AppendShaped | scripts/benchmark.py:285-286 | appending a call of the expected size keeps every loop call of the expected size |
| ScriptIngestion.StepDisciplined | scripts/benchmark.py:280-297 | one loop step keeps the hand-off discipline of `LoopDispatches` |
| ScriptIngestion.LoopDispatches | scripts/benchmark.py:280-297 | every loop call holds exactly the threshold of documents, or, after a call that raised, that refused batch plus one document; the pending batch stays below the threshold except after a raise |
| ScriptIngestion.StepPartition | scripts/benchmark.py:283-290 | one loop step keeps the accepted batches followed by the pending batch equal to the parsed documents |
| ScriptIngestion.LoopPartition | scripts/benchmark.py:280-297 | the batches the client accepted, followed by the pending batch, are exactly the parsed documents, in file order |
| ScriptIngestion.StepCounters | scripts/benchmark.py:283-297 | one loop step keeps the counter identity of `LoopCounters` |
| ScriptIngestion.LoopCounters | scripts/benchmark.py:280-297 | `total_docs` is the sum of the `ingested` counts; `total_errors` is the sum of the `errors` counts plus one per unparsable line and one per raising call, plus one per returning call when `batch_size` is 0 |
| ScriptIngestion.FinalFlush | scripts/benchmark.py:300-312 | the leftover batch is handed over exactly once, as the last call, when it is non-empty, and not at all when it is empty; the function returns `None` iff that call raises |
| ScriptIngestion.FinishCounters | scripts/benchmark.py:300-312 | when a report is returned, the final call has added its `(ingested, errors)` pair to the loop's totals and nothing else |
| ScriptIngestion.RunCounters | scripts/benchmark.py:258-329 | the reported totals are the client's sums over all calls plus the errors the loop counts itself; the rate is the guarded throughput |
| ScriptIngestion.FinishClean | scripts/benchmark.py:300-303 | when no call raises, a report is returned; the documents handed over are the loop's accepted ones followed by the leftover; loop batches hold exactly the threshold, and the final batch, the last call, between one and the threshold |
| ScriptIngestion.CleanRunBatches | scripts/benchmark.py:280-303 | when the client never raises, the documents handed over are exactly the parsed documents in order; loop batches hold exactly the threshold, and the final batch holds between one and the threshold |
| ScriptIngestion.AcceptedAllSent | scripts/benchmark.py:285-289 | when no call raised, the accepted documents are all the documents sent |
| ScriptIngestion.PlaceholderRun | scripts/benchmark.py:72-77 | for a non-zero batch size, with the placeholder clients every parsed document is counted as ingested, and the only errors are the unparsable lines (with batch size 0 each dispatch also counts the `ZeroDivisionError` of the progress modulo, as `LoopCounters` states) |
| ScriptIngestion.PlaceholderSums | scripts/benchmark.py:72-77 | placeholder calls sum to the accepted documents, with no errors and no raise |
| ScriptIngestion.ThreeLineExample | scripts/benchmark.py:280-303 | three valid lines with batch size 2 give one call of two and one of one; ingesting the first and refusing the second reports 2 documents and 1 error |
| ScriptIngestion.LineLoop | scripts/benchmark.py:280-297 | the `for line in f` loop computes the left fold `Ingest` |
| ScriptIngestion.RunIngestion | scripts/benchmark.py:258-329 | `run_ingestion` returns `None` and makes no call for a missing file, and otherwise the run `Ingestion` |
| ScriptQueries.HitCount | scripts/benchmark.py:389-392 | the extraction chain as written: `hits.total.value` with `{}` and `0` for missing levels, then `found`, `estimatedTotalHits` and `response.numFound` while the count is 0 and the key is present; a `.get` on a non-dict raises |
| ScriptQueries.Pick | scripts/benchmark.py:389-392 | the scan of the hit-count sources succeeds when no source raises |
| ScriptQueries.PickStops | scripts/benchmark.py:389-392 | the scan returns the source where it stops: the first one that raises or is non-zero, or the last |
| ScriptQueries.StopExists | scripts/benchmark.py:389-392 | every non-empty list of sources has a stopping point |
| ScriptQueries.HitCountPicks | scripts/benchmark.py:389-392 | the extraction chain as written is the scan of `hits.total.value`, `found`, `estimatedTotalHits` and `response.numFound` in order; it raises on a response that is not a dict |
| ScriptQueries.PickCons | scripts/benchmark.py:389-392 | the scan stops at its first source unless that source is a zero followed by more sources |
| ScriptQueries.HitCountFixed | scripts/benchmark.py:389-392 | the corrected extraction: a bare number at `hits.total` is the count itself, a level that is not a dict counts as 0, and nothing raises |
| ScriptQueries.FixedCandidates | scripts/benchmark.py:389-392 | the corrected sources are as many as the sources, and none raises |
| ScriptQueries.PickAgrees | scripts/benchmark.py:389-392 | sources that agree wherever the first list does not raise give the same successful scan |
| ScriptQueries.FixedCandidatesExtend | scripts/benchmark.py:389-392 | the corrected sources agree with the sources wherever those do not raise |
| ScriptQueries.FixedAgrees | scripts/benchmark.py:389-392 | wherever the chain as written yields a count, the corrected extraction yields the same count |
| ScriptQueries.FixedExtractor | scripts/benchmark.py:389-392 | the corrected extraction never fails |
| ScriptQueries.PlaceholderHits | scripts/benchmark.py:83-241 | the chain reads 10 hits from the OpenSearch, Typesense, Meilisearch and Solr canned responses and raises on ZincSearch's; the corrected extraction reads 10 from it |
| ScriptQueries.LoadQueries | scripts/benchmark.py:344 | the stripped lines that are not blank, in file order |
| ScriptQueries.LoadQueriesMembers | scripts/benchmark.py:344 | a text is a query iff it is not blank and is the stripped form of some line |
| ScriptQueries.LoadQueriesConcat | scripts/benchmark.py:344 | loading two pieces of a file in turn gives the queries of each, in order: every kept line is kept once, in file order |
| ScriptQueries.LoadQueriesLine | scripts/benchmark.py:344 | one line gives its stripped text when that is not blank, and nothing otherwise |
| ScriptQueries.QueryStep | scripts/benchmark.py:380-403 | one query: a failed call records the handler's latency, -1 and an error; an answered call records its latency and the extracted count, or, when extraction raises, a second latency, -1 and an error |
| ScriptQueries.Sampled | scripts/benchmark.py:371-404 | the latencies, counts and errors after the given queries, one `QueryStep` per query in order |
| ScriptQueries.SampleShape | scripts/benchmark.py:371-404 | one hit count per query, in order: the extracted count, or -1 for a query that ends in the handler; `total_errors` counts those queries; one latency per query plus one per answered query whose extraction raised |
| ScriptQueries.OneSamplePerQuery | scripts/benchmark.py:380-393 | with an extractor that never fails, there is exactly one latency per query, in order, each the one measured after its call |
| ScriptQueries.QueryRun | scripts/benchmark.py:340-438 | the report: `None` for a missing file or no queries, the short form when no latency was recorded, otherwise the full form with the statistics over all latencies |
| ScriptQueries.QueryReportShape | scripts/benchmark.py:344-438 | no report iff there are no queries; otherwise the full report, with min <= avg <= max over all latencies, and the counts as in `SampleShape` |
| ScriptQueries.ZincRecordedTwice | scripts/benchmark.py:380-403 | a ZincSearch-shaped response records two latencies, a -1 and one error for a single query |
| ScriptQueries.ZincRecordedOnce | scripts/benchmark.py:380-393 | with the corrected extraction the same query records one latency, 10 hits and no error |
| ScriptQueries.RunQueries | scripts/benchmark.py:331-438 | `run_queries` returns the report `QueryRun` |
| LokiIngestion.NdjsonDocs | benchmarks/grafana-loki-benchmark-tool/src/benchmark.py:15-28 | the documents `read_ndjson` yields: lines stripped, blank and unparsable lines skipped, in file order |
| LokiIngestion.NdjsonConcat | benchmarks/grafana-loki-benchmark-tool/src/benchmark.py:15-28 | reading two pieces of a file in turn yields the documents of each, in order |
| LokiIngestion.NdjsonFromLines | benchmarks/grafana-loki-benchmark-tool/src/benchmark.py:19-25 | every document yielded parses from a non-blank stripped line of the file |
| LokiIngestion.ReadNdjson | benchmarks/grafana-loki-benchmark-tool/src/benchmark.py:15-28 | the generator loop yields `NdjsonDocs`: stripped lines, blank and unparsable lines skipped |
| LokiIngestion.ChooseTimestamp | benchmarks/grafana-loki-benchmark-tool/src/benchmark.py:61 | `doc.get('@timestamp') or doc.get('timestamp') or doc.get('time')` |
| LokiIngestion.TimestampPriority | benchmarks/grafana-loki-benchmark-tool/src/benchmark.py:61 | the timestamp is the first truthy one of `@timestamp`, `timestamp`, `time`, and is falsy only when none is truthy |
| LokiIngestion.Stamp | benchmarks/grafana-loki-benchmark-tool/src/benchmark.py:61-73 | the nanosecond timestamp: the converted value, the clock for a falsy value or a `ValueError`, or an exception that leaves the loop |
| LokiIngestion.StampCases | benchmarks/grafana-loki-benchmark-tool/src/benchmark.py:61-73 | the clock is used iff no timestamp is truthy or its conversion raises `ValueError`; the loop is left iff the document is not a dict or the conversion raises anything else |
| LokiIngestion.Step | benchmarks/grafana-loki-benchmark-tool/src/benchmark.py:60-101 | one turn of the document loop: the document is counted, stamped and its value taken; an exception while stamping leaves the loop |
| LokiIngestion.Admit | benchmarks/grafana-loki-benchmark-tool/src/benchmark.py:61-81 | a counted document with its stamp: no stamp leaves the loop, otherwise its value is appended |
| LokiIngestion.Take | benchmarks/grafana-loki-benchmark-tool/src/benchmark.py:81-99 | the value is appended to the stream, and a stream that reaches `batch_size` values is pushed |
| LokiIngestion.Flush | benchmarks/grafana-loki-benchmark-tool/src/benchmark.py:84-99 | a push of the stream alone: its size is added to the successes or, with one error detail per handler, to the errors, and the stream is emptied |
| LokiIngestion.Loop | benchmarks/grafana-loki-benchmark-tool/src/benchmark.py:58-101 | the loop state after the given documents, one `Step` per document from empty variables |
| LokiIngestion.FlushEffect | benchmarks/grafana-loki-benchmark-tool/src/benchmark.py:83-99 | a loop push adds one push record with the stream's values, empties the stream, and appends the values' lines to the lines pushed |
| LokiIngestion.FlushCounts | benchmarks/grafana-loki-benchmark-tool/src/benchmark.py:85-97 | a loop push counts its values once, as successes or as errors, and adds one error detail when it fails |
| LokiIngestion.Finish | benchmarks/grafana-loki-benchmark-tool/src/benchmark.py:103-147 | after the loop: after an exception, the waiting values are errors and a loop-error detail is added; otherwise a non-empty stream is pushed once more and counted; then the report |
| LokiIngestion.Ingestion | benchmarks/grafana-loki-benchmark-tool/src/benchmark.py:31-147 | a whole run: the missing-file report, or the documents of the file through `Loop` and `Finish` with the default labels when none are given |
| LokiIngestion.Cap | benchmarks/grafana-loki-benchmark-tool/src/benchmark.py:146 | the reported details are the first `min(10, n)` ones |
| LokiIngestion.SingleStream | benchmarks/grafana-loki-benchmark-tool/src/benchmark.py:84 | a payload of one stream holds that stream's values and lines |
| LokiIngestion.LoopSnoc | benchmarks/grafana-loki-benchmark-tool/src/benchmark.py:59-101 | the loop state after one more document is one step from the state before it |
| LokiIngestion.TakeShaped | benchmarks/grafana-loki-benchmark-tool/src/benchmark.py:81-99 | appending a value keeps the stream below the threshold and every push of exactly the threshold |
| LokiIngestion.StepShaped | benchmarks/grafana-loki-benchmark-tool/src/benchmark.py:59-101 | one loop step keeps the shape of `LoopShape` |
| LokiIngestion.LoopShape | benchmarks/grafana-loki-benchmark-tool/src/benchmark.py:59-101 | during the loop, the stream stays below the threshold; every push is a loop push of that one stream, holding exactly `batch_size` values (one for a size below one) |
| LokiIngestion.StepAccounted | benchmarks/grafana-loki-benchmark-tool/src/benchmark.py:59-101 | one loop step keeps the counters in agreement with the pushes |
| LokiIngestion.AdmitAccounted | benchmarks/grafana-loki-benchmark-tool/src/benchmark.py:75-101 | appending a stamped value keeps the counters in agreement with the pushes |
| LokiIngestion.LoopAccounted | benchmarks/grafana-loki-benchmark-tool/src/benchmark.py:59-101 | `successful_docs` is the size of the successful pushes, `errors` that of the failed ones, with one detail per failed push; every counted document is pushed or waiting, except the one whose exception left the loop |
| LokiIngestion.LinesOfSnoc | benchmarks/grafana-loki-benchmark-tool/src/benchmark.py:81 | appending a value appends its log line |
| LokiIngestion.TakeLines | benchmarks/grafana-loki-benchmark-tool/src/benchmark.py:81-99 | appending a value keeps the pushed lines, followed by the waiting ones, equal to the documents taken so far |
| LokiIngestion.StepOrdered | benchmarks/grafana-loki-benchmark-tool/src/benchmark.py:59-101 | one loop step keeps the lines in file order |
| LokiIngestion.AdmitOrdered | benchmarks/grafana-loki-benchmark-tool/src/benchmark.py:75-101 | a stamped document's line follows the lines taken before it |
| LokiIngestion.LoopOrdered | benchmarks/grafana-loki-benchmark-tool/src/benchmark.py:59-101 | the lines pushed, followed by the waiting ones, are the documents taken, in file order; a loop not left early takes every document |
| LokiIngestion.FinalPush | benchmarks/grafana-loki-benchmark-tool/src/benchmark.py:103-121 | after a loop not left early, waiting values are pushed exactly once, in one final push of the single stream, and otherwise not at all |
| LokiIngestion.RunAccounting | benchmarks/grafana-loki-benchmark-tool/src/benchmark.py:58-135 | `successful_docs + errors` is the documents taken, minus the one that left the loop; `errors` counts failed pushes plus, after a loop exception, the values left waiting |
| LokiIngestion.FinishAccounting | benchmarks/grafana-loki-benchmark-tool/src/benchmark.py:103-135 | the final push or the loop-exception handler completes the counts kept by the loop |
| LokiIngestion.RunDetails | benchmarks/grafana-loki-benchmark-tool/src/benchmark.py:93-146 | the reported details number `min(10, n)`; `n` is one per failed push, plus one after a loop exception |
| LokiIngestion.CompleteRun | benchmarks/grafana-loki-benchmark-tool/src/benchmark.py:58-147 | a run not left early pushes exactly the documents read, in order, and `successful_docs + errors == total_docs_attempted` |
| LokiIngestion.NonDictStops | benchmarks/grafana-loki-benchmark-tool/src/benchmark.py:58-129 | a document that is not a dict is counted and ends the loop; no later document is read |
| LokiIngestion.AbortedStays | benchmarks/grafana-loki-benchmark-tool/src/benchmark.py:125-129 | once an exception has left the loop, no further document is taken |
| LokiIngestion.DocumentLoop | benchmarks/grafana-loki-benchmark-tool/src/benchmark.py:58-101 | the document loop computes the left fold `Loop` and stops at the first exception |
| LokiIngestion.TakeDocument | benchmarks/grafana-loki-benchmark-tool/src/benchmark.py:60-101 | one turn of the loop is one `Step` |
| LokiIngestion.PushStream | benchmarks/grafana-loki-benchmark-tool/src/benchmark.py:84-99 | the push and its two handlers update the counters, details and pushes as `Flush` does |
| LokiIngestion.RunIngestion | benchmarks/grafana-loki-benchmark-tool/src/benchmark.py:31-147 | `run_ingestion` returns the report and the pushes of `Ingestion`: the missing-file report, or the loop followed by `Finish` |
| LokiIngestion.AfterLoop | benchmarks/grafana-loki-benchmark-tool/src/benchmark.py:103-147 | the code after the loop computes `Finish` |
| LokiQueries.LoadQueries | benchmarks/grafana-loki-benchmark-tool/src/benchmark.py:165-172 | the stripped lines that are neither blank nor start with `#`, in file order |
| LokiQueries.LoadQueriesMembers | benchmarks/grafana-loki-benchmark-tool/src/benchmark.py:165-172 | a text is a query iff it is not blank, does not start with `#`, and is the stripped form of some line |
| LokiQueries.LoadQueriesConcat | benchmarks/grafana-loki-benchmark-tool/src/benchmark.py:165-172 | loading two pieces of a file in turn gives the queries of each, in order: every kept line is kept once, in file order |
| LokiQueries.ReadQueries | benchmarks/grafana-loki-benchmark-tool/src/benchmark.py:167-171 | the `for line in f` loop appends the stripped lines that are neither blank nor `#` comments, in file order: it computes `LoadQueries` |
| LokiQueries.LoadQueriesLine | benchmarks/grafana-loki-benchmark-tool/src/benchmark.py:168-171 | one line gives its stripped text when that is neither blank nor a `#` comment, and nothing otherwise |
| LokiQueries.Run | benchmarks/grafana-loki-benchmark-tool/src/benchmark.py:193-210 | the latencies of the successful queries, in order, and the number of failures |
| LokiQueries.RunCounts | benchmarks/grafana-loki-benchmark-tool/src/benchmark.py:193-210 | each query is a success with one latency or an error: `successful + errors == total`, and `successful` is the number of succeeding queries |
| LokiQueries.SuccessesSnoc | benchmarks/grafana-loki-benchmark-tool/src/benchmark.py:193-210 | one more query adds one success exactly when it succeeds |
| LokiQueries.RunLatencies | benchmarks/grafana-loki-benchmark-tool/src/benchmark.py:199-202 | every recorded latency is that of a successful query |
| LokiQueries.SuccessIndices | benchmarks/grafana-loki-benchmark-tool/src/benchmark.py:193-210 | the positions of the queries that succeed, in query order |
| LokiQueries.SuccessIndicesSpec | benchmarks/grafana-loki-benchmark-tool/src/benchmark.py:193-210 | those positions are in range and strictly increasing, and a query is among them iff it succeeds |
| LokiQueries.RunInOrder | benchmarks/grafana-loki-benchmark-tool/src/benchmark.py:199-202 | the latencies recorded are those of the succeeding queries, one each, in query order |
| LokiQueries.Report | benchmarks/grafana-loki-benchmark-tool/src/benchmark.py:150-228 | the report: errors 1 for a missing file, the short form for no queries, otherwise the full form with the statistics over the latencies |
| LokiQueries.ReportShape | benchmarks/grafana-loki-benchmark-tool/src/benchmark.py:173-228 | the short report iff there are no queries; otherwise successes plus errors are the queries, min <= avg <= max, and all three are 0 when nothing succeeded |
| LokiQueries.RunQueries | benchmarks/grafana-loki-benchmark-tool/src/benchmark.py:150-228 | `run_queries` returns `Report`, with the error report for a missing file |
| LokiTool.IngestLabels | benchmarks/grafana-loki-benchmark-tool/src/benchmark.py:266 | the given labels when non-empty, the default labels otherwise |
| LokiTool.ToolStep | benchmarks/grafana-loki-benchmark-tool/src/benchmark.py:277-305 | one turn of the loop: the document is stamped and its value taken; an exception while stamping leaves the loop |
| LokiTool.ToolTake | benchmarks/grafana-loki-benchmark-tool/src/benchmark.py:292-305 | the value is appended to the batch, and a batch that reaches `batch_size` values is pushed |
| LokiTool.ToolFlush | benchmarks/grafana-loki-benchmark-tool/src/benchmark.py:294-305 | a push of the batch: a success or a `RequestException` counts its values and empties it; any other exception, or the progress test dividing by zero, leaves the loop |
| LokiTool.ToolLoop | benchmarks/grafana-loki-benchmark-tool/src/benchmark.py:276-305 | the loop state after the given documents, the `k`-th stamped with `now(k)` |
| LokiTool.ToolFinish | benchmarks/grafana-loki-benchmark-tool/src/benchmark.py:307-327 | after the loop: a non-empty batch is pushed once more; `failed` is -1 after an exception in the loop or in that push |
| LokiTool.ToolIngestion | benchmarks/grafana-loki-benchmark-tool/src/benchmark.py:256-327 | a whole call: `ToolLoop`, then `ToolFinish` |
| LokiTool.ToolLoopSnoc | benchmarks/grafana-loki-benchmark-tool/src/benchmark.py:277-305 | the loop state after one more document is one step from the state before it |
| LokiTool.ToolFlushEffect | benchmarks/grafana-loki-benchmark-tool/src/benchmark.py:294-305 | a batch push records one push, empties the batch, and counts its values as successes or failures, unless the loop is left |
| LokiTool.ToolTakeShaped | benchmarks/grafana-loki-benchmark-tool/src/benchmark.py:292-303 | appending a value keeps the batch below the threshold and every push of exactly the threshold |
| LokiTool.ToolTakeCounted | benchmarks/grafana-loki-benchmark-tool/src/benchmark.py:292-303 | appending a value keeps the counts equal to the pushes' sizes, and the lines in document order |
| LokiTool.ToolStepShaped | benchmarks/grafana-loki-benchmark-tool/src/benchmark.py:277-305 | one loop step keeps the batch and push shape |
| LokiTool.ToolStepCounted | benchmarks/grafana-loki-benchmark-tool/src/benchmark.py:277-305 | one loop step keeps the counts and the line order |
| LokiTool.ToolLoopShaped | benchmarks/grafana-loki-benchmark-tool/src/benchmark.py:277-305 | during the loop, every push holds exactly the threshold of values and the batch stays below it |
| LokiTool.ToolLoopCounted | benchmarks/grafana-loki-benchmark-tool/src/benchmark.py:277-305 | `successful_docs` and `fail_count` are the sizes of the successful and failed pushes, and the pushed lines followed by the batch are the documents, in order |
| LokiTool.ToolCompleteRun | benchmarks/grafana-loki-benchmark-tool/src/benchmark.py:256-327 | a call that meets no exception pushes every document exactly once, in order, counts each one as a success or a failure, and pushes full batches followed by at most one smaller final batch |
| LokiTool.FinishCounted | benchmarks/grafana-loki-benchmark-tool/src/benchmark.py:307-315 | the final push completes the lines and the counts of the loop |
| LokiTool.FinishShaped | benchmarks/grafana-loki-benchmark-tool/src/benchmark.py:307-315 | the final push is the last one and holds between one and fewer than the threshold of values |
| LokiTool.LinesCount | benchmarks/grafana-loki-benchmark-tool/src/benchmark.py:299-302 | the number of lines pushed is the successes plus the failures |
| LokiTool.StreamLinesCount | benchmarks/grafana-loki-benchmark-tool/src/benchmark.py:295 | a payload holds as many lines as values |
| LokiTool.LinesOfCount | benchmarks/grafana-loki-benchmark-tool/src/benchmark.py:292 | one line per value |
| LokiTool.ToolAbortedStays | benchmarks/grafana-loki-benchmark-tool/src/benchmark.py:317-319 | once an exception has left the loop, no further document is taken |
| LokiTool.ZeroBatchSizeFails | benchmarks/grafana-loki-benchmark-tool/src/benchmark.py:294-319 | with `batch_size` 0, the first stampable document is pushed alone; the progress test then divides by zero, so `failed` is -1 |
| LokiTool.BenchmarkTool.constructor | benchmarks/grafana-loki-benchmark-tool/src/benchmark.py:232-235 | the URL without trailing slashes, so that the stored URL does not end in `/` (`Valid`), and the given default labels or `{"job": "benchmark_tool"}` |
| LokiTool.BenchmarkTool.PushUrl | benchmarks/grafana-loki-benchmark-tool/src/benchmark.py:265 | the push endpoint is the base URL followed by `/loki/api/v1/push`; since the stored URL does not end in `/`, the junction is a single `/` |
| LokiTool.BenchmarkTool.BulkIngest | benchmarks/grafana-loki-benchmark-tool/src/benchmark.py:256-327 | `bulk_ingest` returns the result and pushes of `ToolIngestion` with the call's labels |
| LokiTool.BatchLoop | benchmarks/grafana-loki-benchmark-tool/src/benchmark.py:276-305 | the document loop computes the left fold `ToolLoop` |
| LokiCli.Labeled | benchmarks/grafana-loki-benchmark-tool/src/cli.py:17-28 | the result of `parse_labels`: `{}` for no or an empty string, otherwise the dict of the pairs or the format error |
| LokiCli.Insert | benchmarks/grafana-loki-benchmark-tool/src/cli.py:23-27 | the pairs assigned in order into an empty dict, or a failure at the first pair without `=` |
| LokiCli.ParsePair | benchmarks/grafana-loki-benchmark-tool/src/cli.py:23-27 | a pair parses iff it holds `=` |
| LokiCli.InsertFails | benchmarks/grafana-loki-benchmark-tool/src/cli.py:23-27 | the pairs are rejected iff one of them lacks `=` |
| LokiCli.RejectedIff | benchmarks/grafana-loki-benchmark-tool/src/cli.py:17-28 | a non-empty label string is rejected iff one of its comma-separated pairs lacks `=` |
| LokiCli.TrailingCommaRejected | benchmarks/grafana-loki-benchmark-tool/src/cli.py:23-27 | a trailing comma leaves an empty pair, so the string is rejected |
| LokiCli.ValueKeepsEquals | benchmarks/grafana-loki-benchmark-tool/src/cli.py:24-25 | a pair splits at its first `=` only: `k=v` maps `k` to all of `v`, even when `v` holds `=` |
| LokiCli.InsertStripped | benchmarks/grafana-loki-benchmark-tool/src/cli.py:24-25 | every key and every value of the result is stripped |
| LokiCli.InsertSnoc | benchmarks/grafana-loki-benchmark-tool/src/cli.py:23-25 | an accepted pair updates the dict of the pairs before it |
| LokiCli.KeyValues | benchmarks/grafana-loki-benchmark-tool/src/cli.py:24-25 | one key and value per pair, each the parse of that pair |
| LokiCli.InsertAssigns | benchmarks/grafana-loki-benchmark-tool/src/cli.py:23-25 | an accepted string gives the dict of its keys and values, assigned in order |
| LokiCli.AssignLast | benchmarks/grafana-loki-benchmark-tool/src/cli.py:25 | the last assignment to a key decides its value |
| LokiCli.LastOccurrenceWins | benchmarks/grafana-loki-benchmark-tool/src/cli.py:23-25 | a repeated key keeps the value of its last pair |
| LokiCli.KeysFromPairs | benchmarks/grafana-loki-benchmark-tool/src/cli.py:23-25 | every key of the dict comes from some pair |
| LokiCli.InsertStep | benchmarks/grafana-loki-benchmark-tool/src/cli.py:23-27 | one loop turn: a pair without `=` rejects the whole string, otherwise its key and value are assigned |
| LokiCli.ParseLabels | benchmarks/grafana-loki-benchmark-tool/src/cli.py:17-28 | `parse_labels` gives `{}` for no or an empty string, the labels of the pairs, or the format error |
| EsBenchmark.Actions | benchmarks/elasticsearch-benchmark-tool/src/benchmark.py:25-31 | one action per log, in order, each addressed to the index with the log as its source |
| EsBenchmark.SourcesOfActions | benchmarks/elasticsearch-benchmark-tool/src/benchmark.py:25-31 | the actions' sources are the logs |
| EsBenchmark.Chunks | benchmarks/elasticsearch-benchmark-tool/src/benchmark.py:33-34 | the slices `actions[i:i + batch_size]` for `i` in `range(0, len(actions), batch_size)` |
| EsBenchmark.ChunksFlatten | benchmarks/elasticsearch-benchmark-tool/src/benchmark.py:33-35 | the slices put back together are the actions: none is lost, repeated or moved |
| EsBenchmark.ChunkSizes | benchmarks/elasticsearch-benchmark-tool/src/benchmark.py:33-35 | every slice but the last holds `batch_size` actions and the last between one and `batch_size`; no actions, no slice |
| EsBenchmark.ChunkCount | benchmarks/elasticsearch-benchmark-tool/src/benchmark.py:33 | `n` actions make `ceil(n / batch_size)` slices |
| EsBenchmark.ChunkSlice | benchmarks/elasticsearch-benchmark-tool/src/benchmark.py:33-34 | the `k`-th slice is `actions[k*batch_size : k*batch_size + batch_size]` |
| EsBenchmark.ChunkAt | benchmarks/elasticsearch-benchmark-tool/src/benchmark.py:33-34 | the same, with the slice start counted one slice at a time |
| EsBenchmark.ChunksCons | benchmarks/elasticsearch-benchmark-tool/src/benchmark.py:33-34 | the slices are the first slice followed by the slices of the rest |
| EsBenchmark.ChunksFrom | benchmarks/elasticsearch-benchmark-tool/src/benchmark.py:33-34 | the slices from a start are the slice there followed by those from the next start |
| EsBenchmark.SendStep | benchmarks/elasticsearch-benchmark-tool/src/benchmark.py:33-35 | one loop turn sends the next slice, and the slices left start one batch later |
| EsBenchmark.OffsetQuotient | benchmarks/elasticsearch-benchmark-tool/src/benchmark.py:38 | the `k`-th slice start divided by `batch_size` is `k` |
| EsBenchmark.OffsetDiv | benchmarks/elasticsearch-benchmark-tool/src/benchmark.py:33-38 | the `k`-th slice start is `k * batch_size` |
| EsBenchmark.BulkLog | benchmarks/elasticsearch-benchmark-tool/src/benchmark.py:35 | one bulk request per slice, in order |
| EsBenchmark.Numbering | benchmarks/elasticsearch-benchmark-tool/src/benchmark.py:38 | the printed batch numbers are `1, 2, ...`, one per slice |
| EsBenchmark.EnsureLog | benchmarks/elasticsearch-benchmark-tool/src/benchmark.py:18-21 | `ensure_index` sends the existence check, then a creation only when the index does not exist |
| EsBenchmark.EnsureTwice | benchmarks/elasticsearch-benchmark-tool/src/benchmark.py:18-21 | a second `ensure_index` sends only the existence check and changes no index |
| EsBenchmark.HitsOf | benchmarks/elasticsearch-benchmark-tool/src/benchmark.py:46 | `response['hits']['hits']` is defined iff both levels exist, and is their value |
| EsBenchmark.Passed | benchmarks/elasticsearch-benchmark-tool/src/benchmark.py:48-53 | the number of calls that return before the first one that raises is at most the number of calls |
| EsBenchmark.PassedSpec | benchmarks/elasticsearch-benchmark-tool/src/benchmark.py:48-53 | every call before the `Passed`-th returns, and that one, if there is one, raises |
| EsBenchmark.PassedUnique | benchmarks/elasticsearch-benchmark-tool/src/benchmark.py:48-53 | any count with those two properties is `Passed` |
| EsBenchmark.PassedConcat | benchmarks/elasticsearch-benchmark-tool/src/benchmark.py:48-53 | calls after a sequence of calls are reached only when every call of that sequence returns |
| EsBenchmark.AttemptedConcat | benchmarks/elasticsearch-benchmark-tool/src/benchmark.py:48-53 | the calls made for two sequences: all of the first and then those of the second, or only those of the first when one of its calls raises |
| EsBenchmark.AttemptedShape | benchmarks/elasticsearch-benchmark-tool/src/benchmark.py:48-53 | the calls made are a prefix of the calls; all of them iff none raises; otherwise they end with the only one that raised |
| EsBenchmark.StopsIn | benchmarks/elasticsearch-benchmark-tool/src/benchmark.py:48-53 | when a call of the first sequence raises, the second sequence is not reached and the whole ends with an exception |
| EsBenchmark.ContinuesAfter | benchmarks/elasticsearch-benchmark-tool/src/benchmark.py:48-53 | when every call of the first sequence returns, the second is attempted next, and the whole returns iff the second does |
| EsBenchmark.RaisedInFirst | benchmarks/elasticsearch-benchmark-tool/src/benchmark.py:50 | an exception in `ensure_index` ends `run_benchmark` with no bulk or search call |
| EsBenchmark.RaisedInSecond | benchmarks/elasticsearch-benchmark-tool/src/benchmark.py:51 | an exception in `bulk_ingest` ends `run_benchmark` with no search call |
| EsBenchmark.ReachedLast | benchmarks/elasticsearch-benchmark-tool/src/benchmark.py:52 | after `ensure_index` and `bulk_ingest` return, the search is the next call, and the run returns iff the search does |
| EsBenchmark.PassedOne | benchmarks/elasticsearch-benchmark-tool/src/benchmark.py:43 | a single call is made and returns unless it raises |
| EsBenchmark.BulkStep | benchmarks/elasticsearch-benchmark-tool/src/benchmark.py:33-36 | after bulk calls that all returned, the next bulk call either returns or is the first to raise |
| EsBenchmark.SliceStep | benchmarks/elasticsearch-benchmark-tool/src/benchmark.py:33-38 | one loop turn sends the next slice as the next call, and the number it prints is the count of slices sent |
| EsBenchmark.SendOutcome | benchmarks/elasticsearch-benchmark-tool/src/benchmark.py:33-38 | when the loop stops, the calls it made are the `Attempted` prefix of one call per slice, and it returned normally iff all of them returned |
| EsBenchmark.NothingRaises | benchmarks/elasticsearch-benchmark-tool/src/benchmark.py:48-53 | on a cluster where no call raises, every planned call is made and returns |
| EsBenchmark.Cluster.constructor | benchmarks/elasticsearch-benchmark-tool/src/benchmark.py:14-16 | a fresh client knows the given indices and its oracles, and has had no call |
| EsBenchmark.Cluster.Exists | benchmarks/elasticsearch-benchmark-tool/src/benchmark.py:20 | `indices.exists` answers membership, or raises as its oracle says; the call is logged and no index changes |
| EsBenchmark.Cluster.Create | benchmarks/elasticsearch-benchmark-tool/src/benchmark.py:21 | `indices.create` adds the index unless it raises; the call is logged |
| EsBenchmark.Cluster.Bulk | benchmarks/elasticsearch-benchmark-tool/src/benchmark.py:36 | `helpers.bulk` is logged as one call with the slice, and returns unless it raises (as `BulkIndexError` does) |
| EsBenchmark.Cluster.Search | benchmarks/elasticsearch-benchmark-tool/src/benchmark.py:43 | `search` is logged and returns its oracle's response, unless it raises |
| EsBenchmark.BenchmarkTool.constructor | benchmarks/elasticsearch-benchmark-tool/src/benchmark.py:8-12 | the tool keeps its host, port, index name and the client it connected to, which is passed in |
| EsBenchmark.BenchmarkTool.EnsureIndex | benchmarks/elasticsearch-benchmark-tool/src/benchmark.py:18-21 | the existence check, then a creation only when the index is absent, up to the first call that raises; afterwards the index exists unless a call raised |
| EsBenchmark.BenchmarkTool.BulkIngest | benchmarks/elasticsearch-benchmark-tool/src/benchmark.py:23-38 | one bulk call per slice of the actions, in order, up to the first call that raises; the numbers printed are `1, 2, ...`, one per call that returned; `batch_size` 0 raises before any call; a negative one makes no call |
| EsBenchmark.BenchmarkTool.SearchLogs | benchmarks/elasticsearch-benchmark-tool/src/benchmark.py:40-46 | one search call; the result is the hits of its response, or none when the call raises or the response lacks `hits.hits` |
| EsBenchmark.BenchmarkTool.RunBenchmark | benchmarks/elasticsearch-benchmark-tool/src/benchmark.py:48-53 | `ensure_index`, the bulk calls and one search of size 10, up to the first call that raises (a zero batch size raises after `ensure_index`); the hits of the search when no call raised; the indices afterwards are the old ones plus the index when `ensure_index` returned, and the old ones otherwise |
| EsBenchmark.SendChunks | benchmarks/elasticsearch-benchmark-tool/src/benchmark.py:33-38 | the slicing loop sends the slices in order until a bulk call raises; every call but the last returned, the last too when the loop finished, and the numbers printed are `1, 2, ...` for the calls that returned |
| EsBenchmark.SendSlice | benchmarks/elasticsearch-benchmark-tool/src/benchmark.py:34-38 | one loop turn: the next slice is sent as one call, and its number is printed only when the call returns |

## Left out

- Network, HTTP sessions and the readiness probe of the Loki tool (`_connect`): Loki pushes and queries, the Elasticsearch responses and which Elasticsearch calls raise, and the clock are oracles. Timeouts and the session's connection reuse are not modelled.
- `time.perf_counter`, `time.sleep` and logging: durations are real parameters, and log output is left out.
- Floating point: latencies and durations are reals. Python's `int` and `float` are one numeric kind in `Json`. The exact text of `str(int(dt.timestamp() * 1e9))` is not modelled: the timestamp is an integer from the conversion oracle.
- `json.dumps`: a log line is the document itself.
- Exception texts in error details: each detail is one constructor per handler.
- The Loki `streams` dict: every document of a run carries the same label set, so the dict only ever holds that one stream. The model keeps that stream's list of values.
- `ensure_index` in the script's `run_ingestion`: the placeholder clients' versions do nothing, and its exception is swallowed before the file is read.
- `main` and argument parsing of both tools, `loki_client.py`, `es_client.py` and the Elasticsearch command line: only `parse_labels` of the Loki command line is modelled.
- The Loki tool's `search_logs` and `close_session`.
- Connecting to Elasticsearch (`_connect`): the client is given to the tool's constructor.
- The parallel query execution that `scripts/benchmark.py` sketches in comments is not part of this model; only the sequential loop it runs is.
- The Elasticsearch timings and their output: only the printed batch numbers are kept.
- How the cluster handles a bulk call: the model records the call but changes no document. A bulk call that indexes some documents and then raises (a partial `BulkIndexError`) is modelled as a raise.
- Which exception ends `run_benchmark`: the model says only that one did. A response without `hits.hits` (a `KeyError` in `search_logs`) is reported like a raised search.
- `strip()` removes the ASCII whitespace characters only; Unicode whitespace is not modelled.
- ScriptIngestion.RunIngestion: the file is a list of already decoded lines. An error other than `FileNotFoundError` while opening or reading it makes `run_ingestion` return `None`; the model does not produce that case.
- ScriptQueries.RunQueries: the queries file is a list of already decoded lines. An error other than `FileNotFoundError` while opening or reading it escapes `run_queries`; the model does not produce that case.
- LokiQueries.RunQueries: the queries file is a list of already decoded lines. An error other than `FileNotFoundError` while opening or reading it escapes `run_queries`; the model does not produce that case.
- LokiIngestion.ReadNdjson: the file is a list of already decoded lines. An error other than `FileNotFoundError` while opening or reading it reaches the ingestion loop's `except Exception` handler; the model does not produce that case.
- LokiIngestion.PushStream: states the new counters as `Flush` computes them and no more; the properties of a push are proved about `Flush` (`FlushEffect`, `FlushCounts`).

## Findings

| source | as written | input that shows it | evidently intended | confidence | as-written member | corrected member |
|---|---|---|---|---|---|---|
| scripts/benchmark.py:389 (with the ZincSearch placeholder at 124-130) | `result.get("hits", {}).get("total", {}).get("value", 0)` calls `.get` on `hits.total`; the ZincSearch placeholder returns that as the number 10, so the call raises after the latency has been appended | one query answered with `{"hits": {"total": 10}}` | read 10 hits, record one latency and no error | not executed | ScriptQueries.ZincRecordedTwice | ScriptQueries.ZincRecordedOnce |
