/** `run_queries` of the generic benchmark script: the non-blank lines of the queries file are
    sent one by one, and a latency and a hit count are recorded per query.

    The client is an oracle: the `k`-th query answers `query(k, text)`, either a response
    with the latency measured right after the call and the one the error handler would
    measure, or an exception with the handler's latency. The hit count is pulled out of the
    response by an extractor: `HitCount` is the chain the script writes, `HitCountFixed` the
    corrected one (see `ZincRecordedTwice`). */
module ScriptQueries {
  import opened Base
  import opened JsonValue
  import opened Text
  import Stats

  /** One call of `client.query`. `latency` is `end_time - start_time` taken right after the
      call returned; `handlerLatency` is the one the `except` block takes if the extraction
      that follows raises. */
  datatype QueryCall =
    | Answered(response: Json, latency: real, handlerLatency: real)
    | Failed(latency: real)

  type QueryOracle = (nat, string) -> QueryCall

  /** Hit-count extraction; `None` is an exception raised while extracting. */
  type Extractor = Json -> Option<Json>

  /** `query_times`, `query_results_count` and `total_errors`. */
  datatype Samples = Samples(times: seq<real>, counts: seq<Json>, errors: int)

  /** The dict `run_queries` returns: the short form when no latency was recorded, the full
      form otherwise. */
  datatype QueryReport =
    | Summary(totalQueries: nat, totalErrors: int)
    | Full(totalQueries: nat, totalErrors: int, avgTime: real, minTime: real, maxTime: real,
           times: seq<real>, counts: seq<Json>)

  const MinusOne: Json := JNum(-1.0)
  const Empty: Json := JObj(map[])
  const Zero: Json := JNum(0.0)

  // ---------------------------------------------------------------------------------------
  // Hit-count extraction

  /** The chain the script applies to a response: `hits.total.value` (each missing level
      read as `{}`, the last as `0`), then `found`, `estimatedTotalHits` and
      `response.numFound`, each consulted only while the count still equals 0 and the key is
      present. `.get` on a value that is not a dict raises. */
  function HitCount(result: Json): Option<Json> {
    match Get(result, "hits", Empty)
    case None => None
    case Some(hits) =>
      match Get(hits, "total", Empty)
      case None => None
      case Some(total) =>
        match Get(total, "value", Zero)
        case None => None
        case Some(v1) =>
          var v2 := if IsZero(v1) && Has(result, "found") then result.fields["found"] else v1;
          var v3 := if IsZero(v2) && Has(result, "estimatedTotalHits") then result.fields["estimatedTotalHits"] else v2;
          if IsZero(v3) && Has(result, "response") then Get(result.fields["response"], "numFound", Zero)
          else Some(v3)
  }

  /** A nested `.get` with `{}` for every missing intermediate level and `0` for the last. */
  function Path(j: Json, keys: seq<string>): Option<Json>
    requires keys != []
    decreases |keys|
  {
    if |keys| == 1 then Get(j, keys[0], Zero)
    else
      match Get(j, keys[0], Empty)
      case None => None
      case Some(next) => Path(next, keys[1..])
  }

  /** The sources of a hit count, in the order the script consults them; an absent key is
      not a source, and `None` is a source whose lookup raises. */
  function Candidates(fields: map<string, Json>): seq<Option<Json>> {
    [Path(JObj(fields), ["hits", "total", "value"])]
    + (if "found" in fields then [Some(fields["found"])] else [])
    + (if "estimatedTotalHits" in fields then [Some(fields["estimatedTotalHits"])] else [])
    + (if "response" in fields then [Path(fields["response"], ["numFound"])] else [])
  }

  /** The first source that raises or is not zero; the last source when all are zero. */
  function Pick(c: seq<Option<Json>>): (r: Option<Json>)
    requires c != []
    ensures (forall i :: 0 <= i < |c| ==> c[i].Some?) ==> r.Some?
    decreases |c|
  {
    if c[0].None? || |c| == 1 || !IsZero(c[0].value) then c[0] else Pick(c[1..])
  }

  /** `i` is where a scan of the sources stops. */
  predicate StopsAt(c: seq<Option<Json>>, i: int) {
    && 0 <= i < |c|
    && (forall j :: 0 <= j < i ==> c[j].Some? && IsZero(c[j].value))
    && (c[i].None? || !IsZero(c[i].value) || i == |c| - 1)
  }

  /** `Pick` returns the source where the scan stops. */
  lemma {:induction false} PickStops(c: seq<Option<Json>>, i: int)
    requires StopsAt(c, i)
    ensures Pick(c) == c[i]
    decreases i
  {
    if i > 0 {
      assert c[0].Some? && IsZero(c[0].value);
      assert StopsAt(c[1..], i - 1) by {
        forall j | 0 <= j < i - 1 ensures c[1..][j].Some? && IsZero(c[1..][j].value) {
          assert c[1..][j] == c[j + 1];
        }
      }
      PickStops(c[1..], i - 1);
    }
  }

  /** Every non-empty list of sources has a stopping point. */
  lemma {:induction false} StopExists(c: seq<Option<Json>>)
    requires c != []
    ensures exists i :: StopsAt(c, i)
    decreases |c|
  {
    if c[0].None? || |c| == 1 || !IsZero(c[0].value) {
      assert StopsAt(c, 0);
    } else {
      StopExists(c[1..]);
      var i :| StopsAt(c[1..], i);
      assert StopsAt(c, i + 1) by {
        forall j | 0 <= j < i + 1 ensures c[j].Some? && IsZero(c[j].value) {
          if j > 0 {
            assert c[j] == c[1..][j - 1];
          }
        }
      }
    }
  }

  /** The chain as written is the scan of the sources in their fixed order: the count is the
      first non-zero source, or the last one when all are zero, and extraction raises when
      the scan reaches a lookup on something that is not a dict. */
  lemma HitCountPicks(result: Json)
    ensures result.JObj? ==> HitCount(result) == Pick(Candidates(result.fields))
    ensures !result.JObj? ==> HitCount(result).None?
  {
    if result.JObj? {
      var f := result.fields;
      var r3 := if "response" in f then [Path(f["response"], ["numFound"])] else [];
      var r2 := (if "estimatedTotalHits" in f then [Some(f["estimatedTotalHits"])] else []) + r3;
      var r1 := (if "found" in f then [Some(f["found"])] else []) + r2;
      var first := Path(result, ["hits", "total", "value"]);
      assert Candidates(f) == [first] + r1;
      PickCons(first, r1);
      if "found" in f {
        PickCons(Some(f["found"]), r2);
      }
      if "estimatedTotalHits" in f {
        PickCons(Some(f["estimatedTotalHits"]), r3);
      }
    }
  }

  lemma PickCons(x: Option<Json>, rest: seq<Option<Json>>)
    ensures Pick([x] + rest) == if x.None? || rest == [] || !IsZero(x.value) then x else Pick(rest)
  {
    assert ([x] + rest)[1..] == rest;
  }

  /** The corrected extraction: it never raises. A `hits.total` that is a bare number (the
      older total format) is the count itself, and a level that is not a dict counts as 0. */
  function HitCountFixed(result: Json): Json {
    if result.JObj? then Pick(FixedCandidates(result.fields)).value else Zero
  }

  /** The level below `key`: the value when `j` is a dict holding it, `{}` otherwise. */
  function Below(j: Json, key: string): Json {
    if Has(j, key) then j.fields[key] else Empty
  }

  /** The last lookup: the value when `j` is a dict holding it, `0` otherwise. */
  function Leaf(j: Json, key: string): Json {
    if Has(j, key) then j.fields[key] else Zero
  }

  function FixedTotal(fields: map<string, Json>): Json {
    var total := Below(Below(JObj(fields), "hits"), "total");
    if total.JNum? then total else Leaf(total, "value")
  }

  function FixedCandidates(fields: map<string, Json>): (c: seq<Option<Json>>)
    ensures |c| == |Candidates(fields)|
    ensures forall i :: 0 <= i < |c| ==> c[i].Some?
  {
    [Some(FixedTotal(fields))]
    + (if "found" in fields then [Some(fields["found"])] else [])
    + (if "estimatedTotalHits" in fields then [Some(fields["estimatedTotalHits"])] else [])
    + (if "response" in fields then [Some(Leaf(fields["response"], "numFound"))] else [])
  }

  lemma {:induction false} PickAgrees(c: seq<Option<Json>>, d: seq<Option<Json>>)
    requires c != [] && |c| == |d|
    requires forall i :: 0 <= i < |c| && c[i].Some? ==> d[i] == c[i]
    requires Pick(c).Some?
    ensures Pick(d) == Pick(c)
    decreases |c|
  {
    if !(c[0].None? || |c| == 1 || !IsZero(c[0].value)) {
      assert forall i :: 0 <= i < |c| - 1 && c[1..][i].Some? ==> d[1..][i] == c[1..][i] by {
        forall i | 0 <= i < |c| - 1 && c[1..][i].Some? ensures d[1..][i] == c[1..][i] {
          assert c[1..][i] == c[i + 1] && d[1..][i] == d[i + 1];
        }
      }
      PickAgrees(c[1..], d[1..]);
    }
  }

  lemma FixedCandidatesExtend(fields: map<string, Json>)
    ensures forall i :: 0 <= i < |Candidates(fields)| && Candidates(fields)[i].Some? ==>
      FixedCandidates(fields)[i] == Candidates(fields)[i]
  {
    var c := Candidates(fields);
    var d := FixedCandidates(fields);
    var hits := Below(JObj(fields), "hits");
    if c[0].Some? {
      assert Get(JObj(fields), "hits", Empty) == Some(hits);
      assert Get(hits, "total", Empty) == Some(Below(hits, "total"));
    }
    if "response" in fields && c[|c| - 1].Some? {
      assert c[|c| - 1] == Path(fields["response"], ["numFound"]);
      assert d[|d| - 1] == Some(Leaf(fields["response"], "numFound"));
    }
  }

  /** Wherever the chain as written yields a count, the corrected extraction yields the same
      count. */
  lemma FixedAgrees(result: Json)
    requires HitCount(result).Some?
    ensures HitCountFixed(result) == HitCount(result).value
  {
    HitCountPicks(result);
    FixedCandidatesExtend(result.fields);
    PickAgrees(Candidates(result.fields), FixedCandidates(result.fields));
  }

  /** The corrected extraction as an extractor: it never fails. */
  function FixedExtractor(result: Json): (r: Option<Json>)
    ensures r == Some(HitCountFixed(result))
  {
    Some(HitCountFixed(result))
  }

  // ---------------------------------------------------------------------------------------
  // The canned responses of the placeholder clients

  const OpenSearchResponse: Json := Obj1("hits", Obj1("total", Obj1("value", JNum(10.0))))
  const ZincSearchResponse: Json := Obj1("hits", Obj1("total", JNum(10.0)))
  const TypesenseResponse: Json := Obj1("found", JNum(10.0))
  const MeiliSearchResponse: Json := Obj1("estimatedTotalHits", JNum(10.0))
  const SolrResponse: Json := Obj1("response", Obj1("numFound", JNum(10.0)))

  /** The chain reads 10 hits from each canned response except ZincSearch's, whose
      `hits.total` is a number, so that `.get("value", 0)` on it raises. The corrected
      extraction reads 10 from all five. */
  lemma PlaceholderHits()
    ensures HitCount(OpenSearchResponse) == Some(JNum(10.0))
    ensures HitCount(TypesenseResponse) == Some(JNum(10.0))
    ensures HitCount(MeiliSearchResponse) == Some(JNum(10.0))
    ensures HitCount(SolrResponse) == Some(JNum(10.0))
    ensures HitCount(ZincSearchResponse).None?
    ensures HitCountFixed(ZincSearchResponse) == JNum(10.0)
  {
    assert !Has(OpenSearchResponse, "found");
    assert Has(TypesenseResponse, "found");
    assert !Has(MeiliSearchResponse, "found") && Has(MeiliSearchResponse, "estimatedTotalHits");
    assert !Has(SolrResponse, "found") && !Has(SolrResponse, "estimatedTotalHits") && Has(SolrResponse, "response");
    var z := ZincSearchResponse.fields;
    assert Below(Below(JObj(z), "hits"), "total") == JNum(10.0);
    assert FixedCandidates(z) == [Some(JNum(10.0))];
  }

  // ---------------------------------------------------------------------------------------
  // The query list and the query loop

  /** `[line.strip() for line in f if line.strip()]`. */
  function LoadQueries(lines: seq<string>): seq<string>
    decreases |lines|
  {
    if lines == [] then []
    else
      var q := Strip(lines[|lines| - 1]);
      LoadQueries(lines[..|lines| - 1]) + (if q == [] then [] else [q])
  }

  /** The queries are exactly the stripped lines that are not blank. */
  lemma {:induction false} LoadQueriesMembers(lines: seq<string>, q: string)
    ensures q in LoadQueries(lines) <==> q != [] && exists l :: l in lines && Strip(l) == q
    decreases |lines|
  {
    if lines != [] {
      var init := lines[..|lines| - 1];
      var last := lines[|lines| - 1];
      LoadQueriesMembers(init, q);
      assert lines == init + [last];
      if q in LoadQueries(lines) && q !in LoadQueries(init) {
        assert q == Strip(last) && last in lines;
      }
      if q != [] && (exists l :: l in lines && Strip(l) == q) {
        var l :| l in lines && Strip(l) == q;
        if l != last {
          assert l in init;
        }
      }
    }
  }

  /** Loading two pieces of a file one after the other gives the queries of each, in
      order: every kept line is kept once, in file order. */
  lemma {:induction false} LoadQueriesConcat(a: seq<string>, b: seq<string>)
    ensures LoadQueries(a + b) == LoadQueries(a) + LoadQueries(b)
    decreases |b|
  {
    if b == [] {
      assert a + b == a;
    } else {
      var n := |b| - 1;
      LoadQueriesConcat(a, b[..n]);
      assert (a + b)[..|a + b| - 1] == a + b[..n];
      assert (a + b)[|a + b| - 1] == b[n];
    }
  }

  /** One line gives its stripped text when that is not blank, and nothing otherwise. */
  lemma LoadQueriesLine(line: string)
    ensures LoadQueries([line]) == if Strip(line) == [] then [] else [Strip(line)]
  {
    assert [line][..0] == [];
  }

  /** What one query adds to `query_results_count`. */
  function HitOf(call: QueryCall, extract: Extractor): Json {
    match call
    case Failed(_) => MinusOne
    case Answered(response, _, _) =>
      match extract(response)
      case Some(hits) => hits
      case None => MinusOne
  }

  /** The body of the query loop for the `k`-th query. A failed call records the handler's
      latency, -1 and an error. An answered call records its latency; if the extraction then
      raises, the handler records a second latency, -1 and an error. */
  function QueryStep(s: Samples, k: nat, text: string, query: QueryOracle, extract: Extractor): Samples {
    match query(k, text)
    case Failed(latency) => Samples(s.times + [latency], s.counts + [MinusOne], s.errors + 1)
    case Answered(response, latency, handlerLatency) =>
      match extract(response)
      case Some(hits) => Samples(s.times + [latency], s.counts + [hits], s.errors)
      case None => Samples(s.times + [latency, handlerLatency], s.counts + [MinusOne], s.errors + 1)
  }

  /** The samples after the given queries. */
  function Sampled(queries: seq<string>, query: QueryOracle, extract: Extractor): Samples
    decreases |queries|
  {
    if queries == [] then Samples([], [], 0)
    else
      var n := |queries| - 1;
      QueryStep(Sampled(queries[..n], query, extract), n, queries[n], query, extract)
  }

  /** The `k`-th query ends in the error handler. */
  predicate Errs(call: QueryCall, extract: Extractor) {
    call.Failed? || extract(call.response).None?
  }

  /** The `k`-th query is answered but its extraction raises. */
  predicate Misses(call: QueryCall, extract: Extractor) {
    call.Answered? && extract(call.response).None?
  }

  /** How many of the queries end in the error handler. */
  function ErrorCount(queries: seq<string>, query: QueryOracle, extract: Extractor): nat
    decreases |queries|
  {
    if queries == [] then 0
    else
      var n := |queries| - 1;
      ErrorCount(queries[..n], query, extract) + (if Errs(query(n, queries[n]), extract) then 1 else 0)
  }

  /** How many of the queries are answered but fail in the extraction. */
  function MissCount(queries: seq<string>, query: QueryOracle, extract: Extractor): nat
    decreases |queries|
  {
    if queries == [] then 0
    else
      var n := |queries| - 1;
      MissCount(queries[..n], query, extract) + (if Misses(query(n, queries[n]), extract) then 1 else 0)
  }

  /** Every query records exactly one hit count, in query order: the extracted count, or -1
      when the query ends in the error handler. `total_errors` counts those queries, and one
      latency is recorded per query plus one more per answered query whose extraction raised. */
  lemma {:induction false} SampleShape(queries: seq<string>, query: QueryOracle, extract: Extractor)
    ensures var s := Sampled(queries, query, extract);
      && |s.counts| == |queries|
      && (forall k :: 0 <= k < |queries| ==> s.counts[k] == HitOf(query(k, queries[k]), extract))
      && s.errors == ErrorCount(queries, query, extract)
      && |s.times| == |queries| + MissCount(queries, query, extract)
    decreases |queries|
  {
    if queries != [] {
      var n := |queries| - 1;
      var init := queries[..n];
      SampleShape(init, query, extract);
      var s0 := Sampled(init, query, extract);
      var s := Sampled(queries, query, extract);
      assert s == QueryStep(s0, n, queries[n], query, extract);
      assert s.counts == s0.counts + [HitOf(query(n, queries[n]), extract)];
      forall k | 0 <= k < |queries| ensures s.counts[k] == HitOf(query(k, queries[k]), extract) {
        if k < n {
          assert queries[k] == init[k];
        }
      }
    }
  }

  /** With an extractor that never fails, the latencies are one per query, in query order,
      each the latency measured for that query. */
  lemma {:induction false} OneSamplePerQuery(queries: seq<string>, query: QueryOracle, extract: Extractor)
    requires forall r :: extract(r).Some?
    ensures var s := Sampled(queries, query, extract);
      && |s.times| == |queries|
      && (forall k :: 0 <= k < |queries| ==> s.times[k] == query(k, queries[k]).latency)
    decreases |queries|
  {
    if queries != [] {
      var n := |queries| - 1;
      var init := queries[..n];
      OneSamplePerQuery(init, query, extract);
      var s := Sampled(queries, query, extract);
      forall k | 0 <= k < |queries| ensures s.times[k] == query(k, queries[k]).latency {
        if k < n {
          assert queries[k] == init[k];
        }
      }
    }
  }

  /** The report for a file (`None`: `FileNotFoundError`): `None` for a missing file or an
      empty query list, the short form when no latency was recorded, otherwise the full form
      with the average, minimum and maximum over all recorded latencies. */
  function QueryRun(file: Option<seq<string>>, query: QueryOracle, extract: Extractor): Option<QueryReport> {
    if file.None? then None
    else
      var queries := LoadQueries(file.value);
      if queries == [] then None
      else
        var s := Sampled(queries, query, extract);
        if s.times == [] then Some(Summary(|queries|, s.errors))
        else Some(Full(|queries|, s.errors, Stats.Mean(s.times), Stats.Min(s.times), Stats.Max(s.times), s.times, s.counts))
  }

  /** A run over an existing file with at least one query gives the full report: the short
      form is never produced. The minimum is at most the average and the average at most the
      maximum, the counts are one per query and `total_errors` counts the queries that ended
      in the error handler. */
  lemma QueryReportShape(lines: seq<string>, query: QueryOracle, extract: Extractor)
    ensures QueryRun(Some(lines), query, extract).None? <==> LoadQueries(lines) == []
    ensures var r := QueryRun(Some(lines), query, extract);
      r.Some? ==>
        && r.value.Full?
        && r.value.minTime <= r.value.avgTime <= r.value.maxTime
        && r.value.totalQueries == |r.value.counts| == |LoadQueries(lines)|
        && r.value.totalErrors == ErrorCount(LoadQueries(lines), query, extract)
  {
    var queries := LoadQueries(lines);
    if queries != [] {
      var s := Sampled(queries, query, extract);
      SampleShape(queries, query, extract);
      Stats.MeanBetween(s.times);
    }
  }

  /** A ZincSearch-shaped response makes the chain raise after the latency was appended, so
      the handler appends a second latency for the same query, records -1 and counts an
      error. */
  lemma ZincRecordedTwice(text: string, query: QueryOracle, a: real, b: real)
    requires query(0, text) == Answered(ZincSearchResponse, a, b)
    ensures Sampled([text], query, HitCount) == Samples([a, b], [MinusOne], 1)
  {
    PlaceholderHits();
    assert [text][..0] == [];
  }

  /** The corrected extraction records one latency and the 10 hits for the same query. */
  lemma ZincRecordedOnce(text: string, query: QueryOracle, a: real, b: real)
    requires query(0, text) == Answered(ZincSearchResponse, a, b)
    ensures Sampled([text], query, FixedExtractor) == Samples([a], [JNum(10.0)], 0)
  {
    PlaceholderHits();
    assert [text][..0] == [];
  }

  /** `run_queries`. */
  method RunQueries(file: Option<seq<string>>, query: QueryOracle, extract: Extractor) returns (report: Option<QueryReport>)
    ensures report == QueryRun(file, query, extract)
  {
    if file.None? {
      return None;
    }
    var queries := LoadQueries(file.value);
    if queries == [] {
      return None;
    }
    var times: seq<real> := [];
    var counts: seq<Json> := [];
    var errors := 0;
    var i := 0;
    while i < |queries|
      invariant 0 <= i <= |queries|
      invariant Samples(times, counts, errors) == Sampled(queries[..i], query, extract)
    {
      assert queries[..i + 1][..i] == queries[..i];
      match query(i, queries[i]) {
        case Failed(latency) =>
          times := times + [latency];
          counts := counts + [MinusOne];
          errors := errors + 1;
        case Answered(response, latency, handlerLatency) =>
          times := times + [latency];
          match extract(response) {
            case Some(hits) =>
              counts := counts + [hits];
            case None =>
              times := times + [handlerLatency];
              counts := counts + [MinusOne];
              errors := errors + 1;
          }
      }
      i := i + 1;
    }
    assert queries[..i] == queries;
    if times == [] {
      return Some(Summary(|queries|, errors));
    }
    report := Some(Full(|queries|, errors, Stats.Mean(times), Stats.Min(times), Stats.Max(times), times, counts));
  }
}
