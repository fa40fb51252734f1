/** The Elasticsearch benchmark tool: it makes sure its index exists, sends the logs as
    bulk index actions in consecutive slices of `batch_size`, then runs one search.

    The Elasticsearch client is a `Cluster` object that records the calls the tool makes on
    it and keeps the set of existing indices; which calls raise and the search responses
    come from oracles. The tool catches no exception, so the first call that raises ends
    the run. Timings and their printing are not modelled, except the batch numbers printed. */
module EsBenchmark {
  import opened Base
  import opened JsonValue

  /** A bulk index action `{"_index": index, "_source": source}`. */
  datatype Action = Action(index: string, source: Json)

  /** The client calls the tool makes. A `helpers.bulk` call is one `BulkRequest`, however
      many HTTP requests the library splits it into. */
  datatype Request =
    | IndexExists(index: string)
    | CreateIndex(index: string)
    | BulkRequest(actions: seq<Action>)
    | SearchRequest(index: string, query: Json, size: int)

  /** One action per log, in order, each addressed to the index. */
  function Actions(logs: seq<Json>, indexName: string): (r: seq<Action>)
    ensures |r| == |logs|
    ensures forall i :: 0 <= i < |r| ==> r[i].index == indexName && r[i].source == logs[i]
  {
    if logs == [] then [] else Actions(logs[..|logs| - 1], indexName) + [Action(indexName, logs[|logs| - 1])]
  }

  /** The documents of a list of actions. */
  function Sources(actions: seq<Action>): (r: seq<Json>)
    ensures |r| == |actions|
  {
    if actions == [] then [] else Sources(actions[..|actions| - 1]) + [actions[|actions| - 1].source]
  }

  /** The actions carry the logs unchanged: their sources are the logs. */
  lemma {:induction false} SourcesOfActions(logs: seq<Json>, indexName: string)
    ensures Sources(Actions(logs, indexName)) == logs
    decreases |logs|
  {
    if logs != [] {
      var init := logs[..|logs| - 1];
      SourcesOfActions(init, indexName);
      var a := Actions(logs, indexName);
      assert a[..|a| - 1] == Actions(init, indexName);
    }
  }

  // ---------------------------------------------------------------------------------------
  // Slicing into batches

  function MinInt(a: int, b: int): int {
    if a < b then a else b
  }

  /** The slices `xs[i:i + batch_size]` for `i` in `range(0, len(xs), batch_size)`, for a
      positive batch size. */
  function Chunks<T>(xs: seq<T>, batchSize: nat): seq<seq<T>>
    requires batchSize >= 1
    decreases |xs|
  {
    if xs == [] then []
    else
      var m := MinInt(batchSize, |xs|);
      [xs[..m]] + Chunks(xs[m..], batchSize)
  }

  /** `a + b + ...`, the concatenation of the chunks. */
  function Flatten<T>(chunks: seq<seq<T>>): seq<T> {
    if chunks == [] then [] else chunks[0] + Flatten(chunks[1..])
  }

  /** The chunks put back together are the input: no action is lost, repeated or moved. */
  lemma {:induction false} ChunksFlatten<T>(xs: seq<T>, batchSize: nat)
    requires batchSize >= 1
    ensures Flatten(Chunks(xs, batchSize)) == xs
    decreases |xs|
  {
    if xs != [] {
      var m := MinInt(batchSize, |xs|);
      ChunksFlatten(xs[m..], batchSize);
      var c := Chunks(xs, batchSize);
      assert c[0] == xs[..m] && c[1..] == Chunks(xs[m..], batchSize);
      assert xs[..m] + xs[m..] == xs;
    }
  }

  /** Every chunk but the last holds exactly `batch_size` actions and the last holds between
      one and `batch_size`; no input, no chunk. */
  lemma {:induction false} ChunkSizes<T>(xs: seq<T>, batchSize: nat)
    requires batchSize >= 1
    ensures Chunks(xs, batchSize) == [] <==> xs == []
    ensures forall k :: 0 <= k < |Chunks(xs, batchSize)| - 1 ==> |Chunks(xs, batchSize)[k]| == batchSize
    ensures xs != [] ==> 1 <= |Chunks(xs, batchSize)[|Chunks(xs, batchSize)| - 1]| <= batchSize
    decreases |xs|
  {
    if xs != [] {
      var m := MinInt(batchSize, |xs|);
      var rest := xs[m..];
      ChunkSizes(rest, batchSize);
      var c := Chunks(xs, batchSize);
      assert c[1..] == Chunks(rest, batchSize);
      forall k | 0 <= k < |c| - 1 ensures |c[k]| == batchSize {
        if k > 0 {
          assert c[k] == Chunks(rest, batchSize)[k - 1];
        }
      }
    }
  }

  /** Euclidean division is unique: a quotient and remainder in range are `x // d` and
      `x % d`. */
  lemma DivUnique(x: int, d: int, q: int, r: int)
    requires d > 0 && x == q * d + r && 0 <= r < d
    ensures x / d == q
  {
    var q', r' := x / d, x % d;
    assert x == q' * d + r';
    var a := q - q';
    assert a * d == q * d - q' * d;
  }

  /** `(x + d) // d == x // d + 1` for a positive `d`. */
  lemma DivStep(x: nat, d: nat)
    requires d >= 1
    ensures (x + d) / d == x / d + 1
  {
    var q, r := x / d, x % d;
    assert x + d == (q + 1) * d + r;
    DivUnique(x + d, d, q + 1, r);
  }

  /** `n` actions make `ceil(n / batch_size)` chunks. */
  lemma {:induction false} ChunkCount<T>(xs: seq<T>, batchSize: nat)
    requires batchSize >= 1
    ensures |Chunks(xs, batchSize)| == (|xs| + batchSize - 1) / batchSize
    decreases |xs|
  {
    if xs == [] {
      DivUnique(batchSize - 1, batchSize, 0, batchSize - 1);
    } else if |xs| <= batchSize {
      assert xs[..|xs|] == xs && xs[|xs|..] == [];
      assert Chunks(xs, batchSize) == [xs] + Chunks(xs[|xs|..], batchSize);
      DivUnique(|xs| + batchSize - 1, batchSize, 1, |xs| - 1);
    } else {
      var rest := xs[batchSize..];
      ChunkCount(rest, batchSize);
      DivStep(|rest| + batchSize - 1, batchSize);
    }
  }

  /** The `k`-th chunk is the slice starting at `k * batch_size`: the chunks are consecutive
      slices of the input. */
  lemma ChunkSlice<T>(xs: seq<T>, batchSize: nat, k: nat)
    requires batchSize >= 1 && k < |Chunks(xs, batchSize)|
    ensures k * batchSize < |xs|
    ensures Chunks(xs, batchSize)[k] == xs[k * batchSize .. MinInt(k * batchSize + batchSize, |xs|)]
  {
    ChunkAt(xs, batchSize, k);
    OffsetDiv(k, batchSize);
  }

  /** `ChunkSlice` with the slice start counted by `Offset`. */
  lemma {:induction false} ChunkAt<T>(xs: seq<T>, batchSize: nat, k: nat)
    requires batchSize >= 1 && k < |Chunks(xs, batchSize)|
    ensures Offset(k, batchSize) < |xs|
    ensures Chunks(xs, batchSize)[k] == xs[Offset(k, batchSize) .. MinInt(Offset(k, batchSize) + batchSize, |xs|)]
    decreases |xs|
  {
    var m := MinInt(batchSize, |xs|);
    ChunksCons(xs, batchSize);
    if k > 0 {
      var rest := xs[m..];
      ChunkAt(rest, batchSize, k - 1);
      var o := Offset(k - 1, batchSize);
      SliceOfSlice(xs, m, o, MinInt(o + batchSize, |rest|));
    }
  }

  /** The first chunk, and the chunks of the rest. */
  lemma ChunksCons<T>(xs: seq<T>, batchSize: nat)
    requires batchSize >= 1 && xs != []
    ensures var m := MinInt(batchSize, |xs|);
      && Chunks(xs, batchSize) == [xs[..m]] + Chunks(xs[m..], batchSize)
      && (|xs| <= batchSize ==> Chunks(xs[m..], batchSize) == [])
  {
  }

  lemma SliceOfSlice<T>(xs: seq<T>, m: nat, a: nat, b: nat)
    requires m <= |xs| && a <= b <= |xs| - m
    ensures xs[m..][a..b] == xs[a + m..b + m]
  {
  }

  /** The chunks of the slices starting at `i` and after. */
  function ChunksAfter<T>(xs: seq<T>, batchSize: nat, i: nat): seq<seq<T>>
    requires batchSize >= 1
  {
    if i < |xs| then Chunks(xs[i..], batchSize) else []
  }

  /** The chunks from a slice start `i` are the slice at `i` followed by the chunks from
      `i + batch_size`. */
  lemma ChunksFrom<T>(xs: seq<T>, batchSize: nat, i: nat)
    requires batchSize >= 1 && i < |xs|
    ensures ChunksAfter(xs, batchSize, i) == [xs[i..MinInt(i + batchSize, |xs|)]] + ChunksAfter(xs, batchSize, i + batchSize)
  {
    var rest := xs[i..];
    var m := MinInt(batchSize, |rest|);
    ChunksCons(rest, batchSize);
    assert rest[..m] == xs[i..MinInt(i + batchSize, |xs|)];
    if i + batchSize < |xs| {
      assert rest[m..] == xs[i + batchSize..];
    }
  }

  /** One turn of the `bulk_ingest` loop at slice start `i == len(done) * batch_size`: the
      slice sent is the next chunk, and the chunks left start at `i + batch_size`. */
  lemma SendStep<T>(xs: seq<T>, batchSize: nat, i: nat, done: seq<seq<T>>, all: seq<seq<T>>)
    requires batchSize >= 1 && i < |xs| && i == Offset(|done|, batchSize)
    requires all == done + ChunksAfter(xs, batchSize, i)
    ensures i + batchSize == Offset(|done| + 1, batchSize)
    ensures all == done + [xs[i..MinInt(i + batchSize, |xs|)]] + ChunksAfter(xs, batchSize, i + batchSize)
  {
    ChunksFrom(xs, batchSize, i);
    var c := xs[i..MinInt(i + batchSize, |xs|)];
    var later := ChunksAfter(xs, batchSize, i + batchSize);
    assert done + ([c] + later) == done + [c] + later;
  }

  /** The start of the `k`-th slice, `k * batch_size`, counted up one slice at a time as the
      loop does. */
  function Offset(k: nat, d: nat): nat {
    if k == 0 then 0 else Offset(k - 1, d) + d
  }

  lemma OffsetQuotient(k: nat, d: nat)
    requires d >= 1
    ensures Offset(k, d) / d == k
  {
    OffsetDiv(k, d);
  }

  lemma {:induction false} OffsetDiv(k: nat, d: nat)
    requires d >= 1
    ensures Offset(k, d) == k * d && Offset(k, d) / d == k
  {
    if k > 0 {
      OffsetDiv(k - 1, d);
      assert (k - 1) * d + d == k * d;
    }
    DivMul(k, d);
  }

  /** The bulk requests for a list of chunks. */
  function BulkLog(chunks: seq<seq<Action>>): (r: seq<Request>)
    ensures |r| == |chunks|
    ensures forall k :: 0 <= k < |r| ==> r[k] == BulkRequest(chunks[k])
  {
    if chunks == [] then [] else BulkLog(chunks[..|chunks| - 1]) + [BulkRequest(chunks[|chunks| - 1])]
  }

  /** The batch numbers printed, `i // batch_size + 1` for each slice start `i`: `1, 2, ...`. */
  function Numbering(count: nat): (r: seq<int>)
    ensures |r| == count
    ensures forall k :: 0 <= k < count ==> r[k] == k + 1
  {
    if count == 0 then [] else Numbering(count - 1) + [count]
  }

  /** The requests `ensure_index` sends: an existence check, then a creation only for an
      index that does not exist yet. */
  function EnsureLog(indexName: string, indices: set<string>): seq<Request> {
    [IndexExists(indexName)] + (if indexName in indices then [] else [CreateIndex(indexName)])
  }

  /** Running `ensure_index` a second time sends only the existence check. */
  lemma EnsureTwice(indexName: string, indices: set<string>)
    ensures EnsureLog(indexName, indices + {indexName}) == [IndexExists(indexName)]
    ensures (indices + {indexName}) + {indexName} == indices + {indexName}
  {
  }

  /** `response['hits']['hits']`; `None` for the `KeyError` or `TypeError` of a response
      without it. */
  function HitsOf(response: Json): (r: Option<Json>)
    ensures r.Some? <==> Has(response, "hits") && Has(response.fields["hits"], "hits")
    ensures r.Some? ==> r.value == response.fields["hits"].fields["hits"]
  {
    if Has(response, "hits") && Has(response.fields["hits"], "hits") then Some(response.fields["hits"].fields["hits"]) else None
  }

  // ---------------------------------------------------------------------------------------
  // Calls that raise

  /** How many of `calls`, made in order with the first of them the `base`-th call the client
      receives, succeed before the first one that raises. */
  function Passed(calls: seq<Request>, base: nat, fails: (nat, Request) -> bool): (n: nat)
    ensures n <= |calls|
    decreases |calls|
  {
    if calls == [] || fails(base, calls[0]) then 0 else 1 + Passed(calls[1..], base + 1, fails)
  }

  /** The calls before the `Passed`-th all succeed, and that one, if any, raises. */
  lemma {:induction false} PassedSpec(calls: seq<Request>, base: nat, fails: (nat, Request) -> bool)
    ensures var n := Passed(calls, base, fails);
      && (forall k :: 0 <= k < n ==> !fails(base + k, calls[k]))
      && (n < |calls| ==> fails(base + n, calls[n]))
    decreases |calls|
  {
    if calls != [] && !fails(base, calls[0]) {
      PassedSpec(calls[1..], base + 1, fails);
      var n := Passed(calls, base, fails);
      forall k | 0 <= k < n
        ensures !fails(base + k, calls[k])
      {
        if k > 0 {
          assert calls[k] == calls[1..][k - 1];
        }
      }
    }
  }

  /** The calls made when `calls` are attempted in order and the first one that raises ends
      the operation: those that succeed, then the one that raised, if any. */
  function Attempted(calls: seq<Request>, base: nat, fails: (nat, Request) -> bool): seq<Request> {
    var n := Passed(calls, base, fails);
    if n < |calls| then calls[..n + 1] else calls
  }

  /** `Passed` is the only count with its contract. */
  lemma PassedUnique(calls: seq<Request>, base: nat, fails: (nat, Request) -> bool, n: nat)
    requires n <= |calls|
    requires forall k :: 0 <= k < n ==> !fails(base + k, calls[k])
    requires n < |calls| ==> fails(base + n, calls[n])
    ensures Passed(calls, base, fails) == n
  {
    PassedSpec(calls, base, fails);
  }

  /** Attempting `a` and then `b`: `b` starts only when all of `a` succeeds. */
  lemma PassedConcat(a: seq<Request>, b: seq<Request>, base: nat, fails: (nat, Request) -> bool)
    ensures Passed(a + b, base, fails) ==
      if Passed(a, base, fails) == |a| then |a| + Passed(b, base + |a|, fails) else Passed(a, base, fails)
  {
    var ab := a + b;
    var pa := Passed(a, base, fails);
    PassedSpec(a, base, fails);
    if pa == |a| {
      var pb := Passed(b, base + |a|, fails);
      PassedSpec(b, base + |a|, fails);
      forall k | 0 <= k < |a| + pb
        ensures !fails(base + k, ab[k])
      {
        if k >= |a| {
          assert ab[k] == b[k - |a|];
        }
      }
      if |a| + pb < |ab| {
        assert ab[|a| + pb] == b[pb];
      }
      PassedUnique(ab, base, fails, |a| + pb);
    } else {
      forall k | 0 <= k < pa
        ensures !fails(base + k, ab[k])
      {
        assert ab[k] == a[k];
      }
      assert ab[pa] == a[pa];
      PassedUnique(ab, base, fails, pa);
    }
  }

  /** The calls made for `a` and then `b`: those of `b` follow all of `a` when `a` succeeds;
      otherwise the run ends inside `a`. */
  lemma AttemptedConcat(a: seq<Request>, b: seq<Request>, base: nat, fails: (nat, Request) -> bool)
    ensures Attempted(a + b, base, fails) ==
      if Passed(a, base, fails) == |a| then a + Attempted(b, base + |a|, fails) else Attempted(a, base, fails)
  {
    PassedConcat(a, b, base, fails);
    var pa := Passed(a, base, fails);
    if pa == |a| {
      var pb := Passed(b, base + |a|, fails);
      if pb < |b| {
        assert (a + b)[..|a| + pb + 1] == a + b[..pb + 1];
      }
    } else {
      assert (a + b)[..pa + 1] == a[..pa + 1];
    }
  }

  /** The operation stops at the first call that raises: the calls made are a prefix of the
      calls; all of them when every call succeeds; otherwise they end with the one call that
      raised, and every call before it succeeded. */
  lemma AttemptedShape(calls: seq<Request>, base: nat, fails: (nat, Request) -> bool)
    ensures var r := Attempted(calls, base, fails);
      && |r| <= |calls| && r == calls[..|r|]
      && ((forall k :: 0 <= k < |calls| ==> !fails(base + k, calls[k])) <==> Passed(calls, base, fails) == |calls|)
      && (Passed(calls, base, fails) == |calls| ==> r == calls)
      && (Passed(calls, base, fails) < |calls| ==>
            && |r| == Passed(calls, base, fails) + 1
            && fails(base + |r| - 1, r[|r| - 1])
            && forall k :: 0 <= k < |r| - 1 ==> !fails(base + k, r[k]))
  {
    PassedSpec(calls, base, fails);
    if Passed(calls, base, fails) < |calls| {
      PassedUnique(calls, base, fails, Passed(calls, base, fails));
    } else {
      PassedUnique(calls, base, fails, |calls|);
    }
  }

  /** Attempting `x` and then `y` when a call of `x` raises: the run ends in `x`. */
  lemma StopsIn(x: seq<Request>, y: seq<Request>, base: nat, fails: (nat, Request) -> bool)
    requires Passed(x, base, fails) != |x|
    ensures Attempted(x + y, base, fails) == Attempted(x, base, fails)
    ensures Passed(x + y, base, fails) != |x + y|
  {
    AttemptedConcat(x, y, base, fails);
    PassedConcat(x, y, base, fails);
  }

  /** Attempting `x` and then `y` when all of `x` returns: `y` is attempted next, and the
      whole returns iff `y` does. */
  lemma ContinuesAfter(x: seq<Request>, y: seq<Request>, base: nat, fails: (nat, Request) -> bool)
    requires Passed(x, base, fails) == |x|
    ensures Attempted(x, base, fails) == x
    ensures Attempted(x + y, base, fails) == x + Attempted(y, base + |x|, fails)
    ensures Passed(x + y, base, fails) == |x + y| <==> Passed(y, base + |x|, fails) == |y|
  {
    AttemptedConcat(x, y, base, fails);
    PassedConcat(x, y, base, fails);
  }

  /** Attempting `a`, then `b`, then `c`, when a call of `a` raises: the run ends in `a`. */
  lemma RaisedInFirst(a: seq<Request>, b: seq<Request>, c: seq<Request>, base: nat, fails: (nat, Request) -> bool)
    requires Passed(a, base, fails) != |a|
    ensures Attempted(a + b + c, base, fails) == Attempted(a, base, fails)
    ensures Passed(a + b + c, base, fails) != |a + b + c|
  {
    StopsIn(a, b, base, fails);
    StopsIn(a + b, c, base, fails);
  }

  /** Attempting `a`, then `b`, then `c`, when all of `a` returns and a call of `b` raises:
      the run ends in `b`. `log1` is the log after `a` and `log2` the log after `b`. */
  lemma RaisedInSecond(a: seq<Request>, b: seq<Request>, c: seq<Request>, base: nat, fails: (nat, Request) -> bool,
                       log0: seq<Request>, log1: seq<Request>, log2: seq<Request>)
    requires |log0| == base && log1 == log0 + Attempted(a, base, fails) && log2 == log1 + Attempted(b, |log1|, fails)
    requires Passed(a, base, fails) == |a| && Passed(b, |log1|, fails) != |b|
    ensures log2 == log0 + Attempted(a + b + c, base, fails)
    ensures Passed(a + b + c, base, fails) != |a + b + c|
  {
    ContinuesAfter(a, b, base, fails);
    StopsIn(a + b, c, base, fails);
    assert log2 == log0 + a + Attempted(b, base + |a|, fails);
    assert log0 + a + Attempted(b, base + |a|, fails) == log0 + (a + Attempted(b, base + |a|, fails));
  }

  /** Attempting `a`, then `b`, then the single call `c`, when all of `a` and `b` returns:
      `c` is made, as the call numbered `|log2|`, and the whole returns iff `c` does. `log1`
      is the log after `a` and `log2` the log after `b`. */
  lemma ReachedLast(a: seq<Request>, b: seq<Request>, c: Request, base: nat, fails: (nat, Request) -> bool,
                    log0: seq<Request>, log1: seq<Request>, log2: seq<Request>)
    requires |log0| == base && log1 == log0 + Attempted(a, base, fails) && log2 == log1 + Attempted(b, |log1|, fails)
    requires Passed(a, base, fails) == |a| && Passed(b, |log1|, fails) == |b|
    ensures |log2| == base + |a + b + [c]| - 1
    ensures log2 + [c] == log0 + Attempted(a + b + [c], base, fails)
    ensures Passed(a + b + [c], base, fails) == |a + b + [c]| <==> !fails(|log2|, c)
  {
    ContinuesAfter(a, b, base, fails);
    ContinuesAfter(a + b, [c], base, fails);
    PassedOne(c, base + |a| + |b|, fails);
    assert log2 == log0 + a + b;
    assert log0 + a + b + [c] == log0 + (a + b + [c]);
  }

  /** A single call is made, and it returns unless it raises. */
  lemma PassedOne(c: Request, base: nat, fails: (nat, Request) -> bool)
    ensures Passed([c], base, fails) == if fails(base, c) then 0 else 1
    ensures Attempted([c], base, fails) == [c]
  {
    assert [c][1..] == [];
  }

  /** One more bulk call after `done` calls that all succeeded: it succeeds, or it is the
      first to raise. */
  lemma BulkStep(done: seq<seq<Action>>, batch: seq<Action>, base: nat, fails: (nat, Request) -> bool)
    requires Passed(BulkLog(done), base, fails) == |done|
    ensures BulkLog(done + [batch]) == BulkLog(done) + [BulkRequest(batch)]
    ensures Passed(BulkLog(done + [batch]), base, fails) ==
      if fails(base + |done|, BulkRequest(batch)) then |done| else |done| + 1
  {
    BulkLogConcat(done, [batch]);
    PassedConcat(BulkLog(done), [BulkRequest(batch)], base, fails);
  }

  /** What the slicing loop has done when it stops: `done` are the chunks sent, and all of
      their calls but the last succeeded, the last one too when `ok`; when `ok` they are all
      the chunks. Then the calls made are those `Attempted` gives, and the calls that
      returned are `Passed` of them. */
  lemma SendOutcome(chunks: seq<seq<Action>>, done: seq<seq<Action>>, rest: seq<seq<Action>>, ok: bool, base: nat, fails: (nat, Request) -> bool)
    requires chunks == done + rest
    requires ok ==> rest == [] && Passed(BulkLog(done), base, fails) == |done|
    requires !ok ==> done != [] && Passed(BulkLog(done), base, fails) == |done| - 1
    ensures var calls := BulkLog(chunks);
      var passed := Passed(calls, base, fails);
      && ok == (passed == |calls|)
      && passed == Passed(BulkLog(done), base, fails)
      && BulkLog(done) == Attempted(calls, base, fails)
  {
    var calls := BulkLog(chunks);
    BulkLogConcat(done, rest);
    PassedConcat(BulkLog(done), BulkLog(rest), base, fails);
    AttemptedConcat(BulkLog(done), BulkLog(rest), base, fails);
    if ok {
      assert done + [] == done;
      assert BulkLog(done) + [] == BulkLog(done);
    }
  }

  /** The Elasticsearch cluster as the tool sees it: the indices that exist and the calls
      made on it, in order, including a call that raised. Whether the `n`-th call raises is
      `fails(n, call)`, and the response to a search is `respond(n, call)`. */
  class Cluster {
    var indices: set<string>
    var log: seq<Request>
    const fails: (nat, Request) -> bool
    const respond: (nat, Request) -> Json

    constructor (indices: set<string>, fails: (nat, Request) -> bool, respond: (nat, Request) -> Json)
      ensures this.indices == indices && log == [] && this.fails == fails && this.respond == respond
    {
      this.indices := indices;
      log := [];
      this.fails := fails;
      this.respond := respond;
    }

    /** `indices.exists(index=...)`: whether the index exists; `None` when the call raises. */
    method Exists(index: string) returns (r: Option<bool>)
      modifies this
      ensures r == if fails(|old(log)|, IndexExists(index)) then None else Some(index in indices)
      ensures indices == old(indices) && log == old(log) + [IndexExists(index)]
    {
      if fails(|log|, IndexExists(index)) {
        r := None;
      } else {
        r := Some(index in indices);
      }
      log := log + [IndexExists(index)];
    }

    /** `indices.create(index=...)`: the index exists afterwards unless the call raises. */
    method Create(index: string) returns (ok: bool)
      modifies this
      ensures ok == !fails(|old(log)|, CreateIndex(index))
      ensures indices == (if ok then old(indices) + {index} else old(indices))
      ensures log == old(log) + [CreateIndex(index)]
    {
      ok := !fails(|log|, CreateIndex(index));
      if ok {
        indices := indices + {index};
      }
      log := log + [CreateIndex(index)];
    }

    /** `helpers.bulk(client, batch)`: the call is recorded; `ok` is false when it raises,
        as the `BulkIndexError` of a rejected document does. */
    method Bulk(actions: seq<Action>) returns (ok: bool)
      modifies this
      ensures ok == !fails(|old(log)|, BulkRequest(actions))
      ensures indices == old(indices) && log == old(log) + [BulkRequest(actions)]
    {
      ok := !fails(|log|, BulkRequest(actions));
      log := log + [BulkRequest(actions)];
    }

    /** `client.search(index=..., body=..., size=...)`: the response; `None` when the call
        raises. */
    method Search(index: string, query: Json, size: int) returns (response: Option<Json>)
      modifies this
      ensures response == if fails(|old(log)|, SearchRequest(index, query, size)) then None
        else Some(respond(|old(log)|, SearchRequest(index, query, size)))
      ensures indices == old(indices) && log == old(log) + [SearchRequest(index, query, size)]
    {
      if fails(|log|, SearchRequest(index, query, size)) {
        response := None;
      } else {
        response := Some(respond(|log|, SearchRequest(index, query, size)));
      }
      log := log + [SearchRequest(index, query, size)];
    }
  }

  /** The calls of a `run_benchmark` in which no call raises: `ensure_index`, then, unless the
      zero batch size raises in `bulk_ingest` before any call, the bulk calls and one search
      of size 10. */
  function BenchmarkCalls(indexName: string, indices: set<string>, logData: seq<Json>, query: Json, batchSize: int): seq<Request> {
    EnsureLog(indexName, indices) +
      (if batchSize == 0 then [] else BulkCalls(Actions(logData, indexName), batchSize) + [SearchRequest(indexName, query, 10)])
  }

  /** The bulk calls of `bulk_ingest` in which no call raises: one per chunk, and none when
      `range` yields no slice start (a negative batch size) or raises (a zero one). */
  function BulkCalls(actions: seq<Action>, batchSize: int): seq<Request> {
    if batchSize <= 0 then [] else BulkLog(Chunks(actions, batchSize))
  }

  /** With a cluster on which no call raises, every planned call is made. */
  lemma NothingRaises(calls: seq<Request>, base: nat, fails: (nat, Request) -> bool)
    requires forall n: nat, c: Request :: !fails(n, c)
    ensures Passed(calls, base, fails) == |calls| && Attempted(calls, base, fails) == calls
  {
    PassedSpec(calls, base, fails);
  }

  /** The tool: its connection settings, its index, and its client. */
  class BenchmarkTool {
    const host: string
    const port: int
    const indexName: string
    const client: Cluster

    constructor (host: string, port: int, indexName: string, client: Cluster)
      ensures this.host == host && this.port == port && this.indexName == indexName && this.client == client
    {
      this.host := host;
      this.port := port;
      this.indexName := indexName;
      this.client := client;
    }

    /** `ensure_index`: the existence check, then a creation when the index is absent, up to
        the first call that raises; `ok` is false when one raised. Afterwards the index
        exists unless a call raised; it is created only when it did not exist. */
    method EnsureIndex() returns (ok: bool)
      modifies client
      ensures var calls := EnsureLog(indexName, old(client.indices));
        && ok == (Passed(calls, |old(client.log)|, client.fails) == |calls|)
        && client.log == old(client.log) + Attempted(calls, |old(client.log)|, client.fails)
      ensures client.indices == if ok then old(client.indices) + {indexName} else old(client.indices)
    {
      var r := client.Exists(indexName);
      match r {
        case None =>
          ok := false;
        case Some(b) =>
          ok := true;
          if !b {
            ok := client.Create(indexName);
          }
      }
    }

    /** `bulk_ingest`: one bulk call per chunk of the actions, in order, up to the first call
        that raises; the batch numbers printed, one per call that returned, are `numbers`,
        and `ok` is false when a call raised. A zero batch size makes `range` raise before
        any call; a negative one makes no call. */
    method BulkIngest(logData: seq<Json>, batchSize: int) returns (numbers: seq<int>, ok: bool)
      modifies client
      ensures client.indices == old(client.indices)
      ensures var calls := BulkCalls(Actions(logData, indexName), batchSize);
        var passed := Passed(calls, |old(client.log)|, client.fails);
        && ok == (batchSize != 0 && passed == |calls|)
        && numbers == Numbering(passed)
        && client.log == old(client.log) + Attempted(calls, |old(client.log)|, client.fails)
    {
      var actions := Actions(logData, indexName);
      if batchSize == 0 {
        return [], false;
      }
      if batchSize < 0 {
        return [], true;
      }
      ghost var done, rest;
      ghost var base := |client.log|;
      numbers, ok, done, rest := SendChunks(client, actions, batchSize);
      SendOutcome(Chunks(actions, batchSize), done, rest, ok, base, client.fails);
    }

    /** `search_logs`: the hits of the response; `None` when the search raises or the
        response has no `hits.hits`, both of which end `search_logs` with an exception. */
    method SearchLogs(query: Json, size: int) returns (hits: Option<Json>)
      modifies client
      ensures var call := SearchRequest(indexName, query, size);
        hits == if client.fails(|old(client.log)|, call) then None else HitsOf(client.respond(|old(client.log)|, call))
      ensures client.indices == old(client.indices)
      ensures client.log == old(client.log) + [SearchRequest(indexName, query, size)]
    {
      var response := client.Search(indexName, query, size);
      match response {
        case None =>
          hits := None;
        case Some(j) =>
          hits := HitsOf(j);
      }
    }

    /** `run_benchmark`: the calls of `BenchmarkCalls` up to the first one that raises; the
        hits of the search when every call succeeds, `None` when the run ends with an
        exception. */
    method RunBenchmark(logData: seq<Json>, query: Json, batchSize: int) returns (hits: Option<Json>)
      modifies client
      ensures var calls := BenchmarkCalls(indexName, old(client.indices), logData, query, batchSize);
        var base := |old(client.log)|;
        && client.log == old(client.log) + Attempted(calls, base, client.fails)
        && hits == if batchSize != 0 && Passed(calls, base, client.fails) == |calls|
                   then HitsOf(client.respond(base + |calls| - 1, SearchRequest(indexName, query, 10)))
                   else None
      ensures var ensure := EnsureLog(indexName, old(client.indices));
        client.indices == if Passed(ensure, |old(client.log)|, client.fails) == |ensure|
                          then old(client.indices) + {indexName} else old(client.indices)
    {
      ghost var base := |client.log|;
      ghost var log0 := client.log;
      ghost var fails := client.fails;
      ghost var ensure := EnsureLog(indexName, client.indices);
      ghost var bulk := BulkCalls(Actions(logData, indexName), batchSize);
      ghost var search := if batchSize == 0 then [] else [SearchRequest(indexName, query, 10)];
      assert BenchmarkCalls(indexName, client.indices, logData, query, batchSize) == ensure + bulk + search;
      var ok := EnsureIndex();
      if !ok {
        RaisedInFirst(ensure, bulk, search, base, fails);
        return None;
      }
      ghost var log1 := client.log;
      var numbers, bulkOk := BulkIngest(logData, batchSize);
      ghost var log2 := client.log;
      if !bulkOk {
        if batchSize == 0 {
          assert ensure + bulk + search == ensure;
        } else {
          RaisedInSecond(ensure, bulk, search, base, fails, log0, log1, log2);
        }
        return None;
      }
      ReachedLast(ensure, bulk, SearchRequest(indexName, query, 10), base, fails, log0, log1, log2);
      hits := SearchLogs(query, 10);
    }
  }

  /** The `for i in range(0, len(actions), batch_size)` loop of `bulk_ingest`: each slice is
      sent as one bulk call and its number printed, until a call raises. `done` are the
      slices sent and `rest` those never sent; every call but the last returned, and the
      last one too when `ok`. */
  method SendChunks(client: Cluster, actions: seq<Action>, batchSize: int)
    returns (sent: seq<int>, ok: bool, ghost done: seq<seq<Action>>, ghost rest: seq<seq<Action>>)
    requires batchSize >= 1
    modifies client
    ensures Chunks(actions, batchSize) == done + rest
    ensures ok ==> rest == [] && Passed(BulkLog(done), |old(client.log)|, client.fails) == |done|
    ensures !ok ==> done != [] && Passed(BulkLog(done), |old(client.log)|, client.fails) == |done| - 1
    ensures sent == Numbering(Passed(BulkLog(done), |old(client.log)|, client.fails))
    ensures client.log == old(client.log) + BulkLog(done)
    ensures client.indices == old(client.indices)
  {
    ghost var base := |client.log|;
    ghost var all := Chunks(actions, batchSize);
    sent := [];
    ok := true;
    done := [];
    var i := 0;
    assert actions[0..] == actions;
    while i < |actions| && ok
      invariant i == Offset(|done|, batchSize)
      invariant all == done + ChunksAfter(actions, batchSize, i)
      invariant client.indices == old(client.indices)
      invariant client.log == old(client.log) + BulkLog(done)
      invariant ok ==> Passed(BulkLog(done), base, client.fails) == |done|
      invariant !ok ==> done != [] && Passed(BulkLog(done), base, client.fails) == |done| - 1
      invariant sent == Numbering(if ok then |done| else |done| - 1)
      decreases |actions| - i
    {
      ok, sent, done := SendSlice(client, actions, batchSize, i, sent, done, all, base, old(client.log));
      i := i + batchSize;
    }
    rest := ChunksAfter(actions, batchSize, i);
  }

  /** One turn of the slicing loop: the slice at `i` is sent as one bulk call, and its number
      `i // batch_size + 1` is printed when the call returns. */
  method SendSlice(client: Cluster, actions: seq<Action>, batchSize: int, i: int, sent: seq<int>,
                   ghost done: seq<seq<Action>>, ghost all: seq<seq<Action>>, ghost base: nat, ghost log0: seq<Request>)
    returns (ok: bool, sent': seq<int>, ghost done': seq<seq<Action>>)
    requires batchSize >= 1 && 0 <= i < |actions| && i == Offset(|done|, batchSize)
    requires all == done + ChunksAfter(actions, batchSize, i)
    requires client.log == log0 + BulkLog(done) && base == |log0|
    requires Passed(BulkLog(done), base, client.fails) == |done| && sent == Numbering(|done|)
    modifies client
    ensures done' == done + [actions[i..MinInt(i + batchSize, |actions|)]]
    ensures i + batchSize == Offset(|done'|, batchSize)
    ensures all == done' + ChunksAfter(actions, batchSize, i + batchSize)
    ensures client.indices == old(client.indices) && client.log == log0 + BulkLog(done')
    ensures ok ==> Passed(BulkLog(done'), base, client.fails) == |done'|
    ensures !ok ==> done' != [] && Passed(BulkLog(done'), base, client.fails) == |done'| - 1
    ensures sent' == Numbering(if ok then |done'| else |done'| - 1)
  {
    var batch := actions[i..MinInt(i + batchSize, |actions|)];
    SliceStep(actions, batchSize, i, done, all, base, client.fails, log0);
    ok := client.Bulk(batch);
    sent' := if ok then sent + [i / batchSize + 1] else sent;
    done' := done + [batch];
  }

  /** What one turn of the slicing loop establishes, whatever the call returns: the slice
      sent is the next chunk, its call is the next one logged, and the number printed for it
      is the count of slices sent. */
  lemma SliceStep(actions: seq<Action>, batchSize: int, i: int, done: seq<seq<Action>>, all: seq<seq<Action>>,
                  base: nat, fails: (nat, Request) -> bool, log0: seq<Request>)
    requires batchSize >= 1 && 0 <= i < |actions| && i == Offset(|done|, batchSize)
    requires all == done + ChunksAfter(actions, batchSize, i)
    requires base == |log0| && Passed(BulkLog(done), base, fails) == |done|
    ensures var batch := actions[i..MinInt(i + batchSize, |actions|)];
      var done' := done + [batch];
      && i + batchSize == Offset(|done'|, batchSize)
      && all == done' + ChunksAfter(actions, batchSize, i + batchSize)
      && |log0 + BulkLog(done)| == base + |done|
      && log0 + BulkLog(done) + [BulkRequest(batch)] == log0 + BulkLog(done')
      && Passed(BulkLog(done'), base, fails) == (if fails(base + |done|, BulkRequest(batch)) then |done| else |done'|)
      && Numbering(|done|) + [i / batchSize + 1] == Numbering(|done'|)
  {
    var batch := actions[i..MinInt(i + batchSize, |actions|)];
    BulkStep(done, batch, base, fails);
    SendStep(actions, batchSize, i, done, all);
    OffsetQuotient(|done|, batchSize);
  }

  /** The bulk calls of two lists of chunks are those of the first, then those of the second. */
  lemma BulkLogConcat(a: seq<seq<Action>>, b: seq<seq<Action>>)
    ensures BulkLog(a + b) == BulkLog(a) + BulkLog(b)
  {
    var l := BulkLog(a + b);
    assert forall k :: 0 <= k < |l| ==> l[k] == (BulkLog(a) + BulkLog(b))[k];
  }

  /** `(k * d) // d == k`. */
  lemma DivMul(k: nat, d: nat)
    requires d >= 1
    ensures (k * d) / d == k
  {
    DivUnique(k * d, d, k, 0);
  }
}
