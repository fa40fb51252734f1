/** The Loki query benchmark (`run_queries` of the Loki tool): the LogQL queries of a file
    are sent one by one as range queries; the latency of each successful query is kept and
    every failure is counted.

    The HTTP call is an oracle: the `k`-th query answers `query(k, text)`, a success with its
    latency or a failure. The time range and the request parameters are not modelled. */
module LokiQueries {
  import opened Base
  import opened Text
  import Stats

  /** One range query: answered with a success status after `latency` seconds, or failed
      (a `RequestException`, a bad status, or any other exception). */
  datatype QueryOutcome = Succeeded(latency: real) | Failed

  type QueryOracle = (nat, string) -> QueryOutcome

  /** The dict `run_queries` returns: the short form for a missing file or an empty query
      list, the full form otherwise. */
  datatype QueryReport =
    | Short(totalQueries: nat, successfulQueries: nat, avgLatency: real, errors: nat)
    | Full(totalQueries: nat, successfulQueries: nat, avgLatency: real, minLatency: real, maxLatency: real, errors: nat)

  /** A line that is kept as a query, once stripped: not blank and not a `#` comment. */
  predicate IsQuery(line: string) {
    line != [] && !StartsWith(line, "#")
  }

  /** The queries of a file: each line stripped, blank lines and comment lines skipped. */
  function LoadQueries(lines: seq<string>): seq<string>
    decreases |lines|
  {
    if lines == [] then []
    else
      var line := Strip(lines[|lines| - 1]);
      LoadQueries(lines[..|lines| - 1]) + (if IsQuery(line) then [line] else [])
  }

  /** The queries are exactly the stripped lines that are neither blank nor start with `#`. */
  lemma {:induction false} LoadQueriesMembers(lines: seq<string>, q: string)
    ensures q in LoadQueries(lines) <==> q != [] && q[0] != '#' && exists l :: l in lines && Strip(l) == q
    decreases |lines|
  {
    if lines != [] {
      var init := lines[..|lines| - 1];
      var last := lines[|lines| - 1];
      var l := Strip(last);
      LoadQueriesMembers(init, q);
      assert lines == init + [last];
      assert IsQuery(l) <==> l != [] && l[0] != '#' by {
        if l != [] {
          assert StartsWith(l, "#") <==> l[..1] == ['#'];
        }
      }
      assert q in LoadQueries(lines) <==> q in LoadQueries(init) || (IsQuery(l) && q == l);
      if exists x :: x in lines && Strip(x) == q {
        var x :| x in lines && Strip(x) == q;
        assert x in init || x == last;
      }
    }
  }

  /** Loading two pieces of a file one after the other gives the queries of each, in
      order: every kept line is kept once, in file order. */
  lemma {:induction false} LoadQueriesConcat(a: seq<string>, b: seq<string>)
    ensures LoadQueries(a + b) == LoadQueries(a) + LoadQueries(b)
    decreases |b|
  {
    if b == [] {
      assert a + b == a;
    } else {
      var n := |b| - 1;
      LoadQueriesConcat(a, b[..n]);
      assert (a + b)[..|a + b| - 1] == a + b[..n];
      assert (a + b)[|a + b| - 1] == b[n];
    }
  }

  /** One line gives its stripped text when that is neither blank nor a `#` comment, and
      nothing otherwise. */
  lemma LoadQueriesLine(line: string)
    ensures LoadQueries([line]) == if IsQuery(Strip(line)) then [Strip(line)] else []
  {
    assert [line][..0] == [];
  }

  /** The latencies and the error count after some of the queries. */
  datatype Tally = Tally(latencies: seq<real>, errors: nat)

  /** The latencies of the successful queries, in order, and the number of failures. */
  function Run(queries: seq<string>, query: QueryOracle): Tally
    decreases |queries|
  {
    if queries == [] then Tally([], 0)
    else
      var n := |queries| - 1;
      var t := Run(queries[..n], query);
      match query(n, queries[n])
      case Succeeded(latency) => t.(latencies := t.latencies + [latency])
      case Failed => t.(errors := t.errors + 1)
  }

  /** The queries that succeed. */
  function Successes(queries: seq<string>, query: QueryOracle): nat {
    |set k | 0 <= k < |queries| && query(k, queries[k]).Succeeded?|
  }

  /** Each query is either a success, contributing its latency, or an error:
      `successful_queries + errors == total_queries` (the order of the latencies is
      `RunInOrder`). */
  lemma {:induction false} RunCounts(queries: seq<string>, query: QueryOracle)
    ensures var t := Run(queries, query);
      && |t.latencies| + t.errors == |queries|
      && |t.latencies| == Successes(queries, query)
    decreases |queries|
  {
    if queries != [] {
      var n := |queries| - 1;
      var init := queries[..n];
      RunCounts(init, query);
      var t0 := Run(init, query);
      var t := Run(queries, query);
      var ok := query(n, queries[n]).Succeeded?;
      assert |t.latencies| == |t0.latencies| + (if ok then 1 else 0);
      assert t.errors == t0.errors + (if ok then 0 else 1);
      SuccessesSnoc(queries, query);
    }
  }

  /** One more query adds one success exactly when it succeeds. */
  lemma SuccessesSnoc(queries: seq<string>, query: QueryOracle)
    requires queries != []
    ensures var n := |queries| - 1;
      Successes(queries, query) == Successes(queries[..n], query) + (if query(n, queries[n]).Succeeded? then 1 else 0)
  {
    var n := |queries| - 1;
    var init := queries[..n];
    var before := set k | 0 <= k < n && query(k, init[k]).Succeeded?;
    var after := set k | 0 <= k < |queries| && query(k, queries[k]).Succeeded?;
    assert forall k :: 0 <= k < n ==> init[k] == queries[k];
    if query(n, queries[n]).Succeeded? {
      assert after == before + {n};
    } else {
      assert after == before;
    }
  }

  /** The positions of the queries that succeed, in query order. */
  function SuccessIndices(queries: seq<string>, query: QueryOracle): seq<nat>
    decreases |queries|
  {
    if queries == [] then []
    else
      var n := |queries| - 1;
      SuccessIndices(queries[..n], query) + (if query(n, queries[n]).Succeeded? then [n] else [])
  }

  /** The positions are in range and increasing, and they are exactly the queries that
      succeed. */
  lemma {:induction false} SuccessIndicesSpec(queries: seq<string>, query: QueryOracle)
    ensures var ks := SuccessIndices(queries, query);
      forall j :: 0 <= j < |ks| ==> ks[j] < |queries|
    ensures var ks := SuccessIndices(queries, query);
      forall i, j :: 0 <= i < j < |ks| ==> ks[i] < ks[j]
    ensures var ks := SuccessIndices(queries, query);
      forall k :: 0 <= k < |queries| ==> (k in ks <==> query(k, queries[k]).Succeeded?)
    decreases |queries|
  {
    if queries != [] {
      var n := |queries| - 1;
      var init := queries[..n];
      SuccessIndicesSpec(init, query);
      var ks0 := SuccessIndices(init, query);
      var last: seq<nat> := if query(n, queries[n]).Succeeded? then [n] else [];
      assert SuccessIndices(queries, query) == ks0 + last;
      assert forall k :: 0 <= k < n ==> init[k] == queries[k];
      assert forall k :: k in ks0 + last <==> k in ks0 || k in last;
    }
  }

  /** The latencies recorded are those of the succeeding queries, one each, in query order. */
  lemma {:induction false} RunInOrder(queries: seq<string>, query: QueryOracle)
    ensures var ks := SuccessIndices(queries, query);
      var l := Run(queries, query).latencies;
      && |l| == |ks|
      && forall j :: 0 <= j < |ks| ==> ks[j] < |queries| && query(ks[j], queries[ks[j]]) == Succeeded(l[j])
    decreases |queries|
  {
    SuccessIndicesSpec(queries, query);
    if queries != [] {
      var n := |queries| - 1;
      var init := queries[..n];
      RunInOrder(init, query);
      SuccessIndicesSpec(init, query);
      var ks0 := SuccessIndices(init, query);
      var l0 := Run(init, query).latencies;
      var ks := SuccessIndices(queries, query);
      var l := Run(queries, query).latencies;
      forall j | 0 <= j < |ks|
        ensures query(ks[j], queries[ks[j]]) == Succeeded(l[j])
      {
        if j < |ks0| {
          assert ks[j] == ks0[j] && l[j] == l0[j];
          assert init[ks0[j]] == queries[ks0[j]];
        } else {
          assert ks[j] == n;
        }
      }
    }
  }

  /** `x` is the latency of one of the successful queries. */
  predicate SuccessLatency(queries: seq<string>, query: QueryOracle, x: real) {
    exists k :: 0 <= k < |queries| && query(k, queries[k]) == Succeeded(x)
  }

  /** Every latency recorded is that of a successful query. */
  lemma {:induction false} RunLatencies(queries: seq<string>, query: QueryOracle)
    ensures forall j :: 0 <= j < |Run(queries, query).latencies| ==>
      SuccessLatency(queries, query, Run(queries, query).latencies[j])
    decreases |queries|
  {
    if queries != [] {
      var n := |queries| - 1;
      var init := queries[..n];
      RunLatencies(init, query);
      var t0 := Run(init, query);
      var t := Run(queries, query);
      assert forall j :: 0 <= j < |t0.latencies| ==> SuccessLatency(init, query, t0.latencies[j]);
      forall j | 0 <= j < |t.latencies|
        ensures SuccessLatency(queries, query, t.latencies[j])
      {
        if j < |t0.latencies| {
          assert t.latencies[j] == t0.latencies[j];
          assert SuccessLatency(init, query, t0.latencies[j]);
          var k :| 0 <= k < |init| && query(k, init[k]) == Succeeded(t0.latencies[j]);
          assert init[k] == queries[k];
        } else {
          assert query(n, queries[n]) == Succeeded(t.latencies[j]);
        }
      }
    }
  }

  /** The report for a file (`None`: `FileNotFoundError`). */
  function Report(file: Option<seq<string>>, query: QueryOracle): QueryReport {
    if file.None? then Short(0, 0, 0.0, 1)
    else
      var queries := LoadQueries(file.value);
      if queries == [] then Short(0, 0, 0.0, 0)
      else
        var t := Run(queries, query);
        var l := t.latencies;
        Full(|queries|, |l|,
             if l == [] then 0.0 else Stats.Mean(l),
             if l == [] then 0.0 else Stats.Min(l),
             if l == [] then 0.0 else Stats.Max(l),
             t.errors)
  }

  /** For a file with queries: successes and errors add up to the queries, the latency
      statistics are ordered, and they are all zero when no query succeeded. */
  lemma ReportShape(lines: seq<string>, query: QueryOracle)
    ensures var r := Report(Some(lines), query);
      && (r.Short? <==> LoadQueries(lines) == [])
      && (r.Short? ==> r == Short(0, 0, 0.0, 0))
      && (r.Full? ==>
            && r.totalQueries == |LoadQueries(lines)|
            && r.successfulQueries + r.errors == r.totalQueries
            && r.successfulQueries == Successes(LoadQueries(lines), query)
            && r.minLatency <= r.avgLatency <= r.maxLatency
            && (r.successfulQueries == 0 ==> r.avgLatency == 0.0 && r.minLatency == 0.0 && r.maxLatency == 0.0))
  {
    var queries := LoadQueries(lines);
    if queries != [] {
      RunCounts(queries, query);
      var l := Run(queries, query).latencies;
      if l != [] {
        Stats.MeanBetween(l);
      }
    }
  }

  /** The `for line in f` loop that loads the queries: each line is stripped and appended
      unless it is blank or a `#` comment. */
  method ReadQueries(lines: seq<string>) returns (queries: seq<string>)
    ensures queries == LoadQueries(lines)
  {
    queries := [];
    var i := 0;
    while i < |lines|
      invariant 0 <= i <= |lines|
      invariant queries == LoadQueries(lines[..i])
    {
      assert lines[..i + 1][..i] == lines[..i];
      var line := Strip(lines[i]);
      if line != [] && !StartsWith(line, "#") {
        queries := queries + [line];
      }
      i := i + 1;
    }
    assert lines[..i] == lines;
  }

  /** `run_queries`. */
  method RunQueries(file: Option<seq<string>>, query: QueryOracle) returns (report: QueryReport)
    ensures report == Report(file, query)
  {
    if file.None? {
      return Short(0, 0, 0.0, 1);
    }
    var queries := ReadQueries(file.value);
    if queries == [] {
      return Short(0, 0, 0.0, 0);
    }
    var latencies: seq<real> := [];
    var errors: nat := 0;
    var i := 0;
    while i < |queries|
      invariant 0 <= i <= |queries|
      invariant Tally(latencies, errors) == Run(queries[..i], query)
    {
      assert queries[..i + 1][..i] == queries[..i];
      match query(i, queries[i]) {
        case Succeeded(latency) =>
          latencies := latencies + [latency];
        case Failed =>
          errors := errors + 1;
      }
      i := i + 1;
    }
    assert queries[..i] == queries;
    var avg, lo, hi := 0.0, 0.0, 0.0;
    if latencies != [] {
      avg, lo, hi := Stats.Mean(latencies), Stats.Min(latencies), Stats.Max(latencies);
    }
    report := Full(|queries|, |latencies|, avg, lo, hi, errors);
  }
}
