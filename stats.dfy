/** The aggregate figures both benchmark scripts derive from their samples: the Python
    expressions `sum(xs) / len(xs)`, `min(xs)`, `max(xs)` and `count / seconds if seconds > 0
    else 0`. Floating-point rounding is not modelled: samples are reals. */
module Stats {

  /** `sum(xs)`, adding from the left. */
  function Sum(xs: seq<real>): real {
    if xs == [] then 0.0 else Sum(xs[..|xs| - 1]) + xs[|xs| - 1]
  }

  /** `min(xs)`: an element of `xs` no larger than any other. */
  function Min(xs: seq<real>): (m: real)
    requires xs != []
    ensures m in xs
    ensures forall i :: 0 <= i < |xs| ==> m <= xs[i]
  {
    var last := xs[|xs| - 1];
    if |xs| == 1 then last
    else
      var init := xs[..|xs| - 1];
      var m := Min(init);
      assert forall i :: 0 <= i < |init| ==> init[i] == xs[i];
      if last < m then last else m
  }

  /** `max(xs)`: an element of `xs` no smaller than any other. */
  function Max(xs: seq<real>): (m: real)
    requires xs != []
    ensures m in xs
    ensures forall i :: 0 <= i < |xs| ==> xs[i] <= m
  {
    var last := xs[|xs| - 1];
    if |xs| == 1 then last
    else
      var init := xs[..|xs| - 1];
      var m := Max(init);
      assert forall i :: 0 <= i < |init| ==> init[i] == xs[i];
      if m < last then last else m
  }

  /** `sum(xs) / len(xs)`. */
  function Mean(xs: seq<real>): real
    requires xs != []
  {
    Sum(xs) / (|xs| as real)
  }

  /** Any lower bound of every sample bounds the sum from below, times the count; any upper
      bound does so from above. */
  lemma {:induction false} SumBetween(xs: seq<real>, lo: real, hi: real)
    requires forall i :: 0 <= i < |xs| ==> lo <= xs[i] <= hi
    ensures lo * (|xs| as real) <= Sum(xs) <= hi * (|xs| as real)
  {
    if xs != [] {
      var init := xs[..|xs| - 1];
      var n := |init| as real;
      SumBetween(init, lo, hi);
      assert lo * (n + 1.0) == lo * n + lo;
      assert hi * (n + 1.0) == hi * n + hi;
    }
  }

  /** The average lies between the smallest and the largest sample. */
  lemma MeanBetween(xs: seq<real>)
    requires xs != []
    ensures Min(xs) <= Mean(xs) <= Max(xs)
  {
    MeanBounds(xs, Min(xs), Max(xs));
  }

  /** Bounds on every sample bound the average. */
  lemma MeanBounds(xs: seq<real>, lo: real, hi: real)
    requires xs != []
    requires forall i :: 0 <= i < |xs| ==> lo <= xs[i] <= hi
    ensures lo <= Mean(xs) <= hi
  {
    SumBetween(xs, lo, hi);
    DivideBounds(lo, Sum(xs), hi, |xs| as real);
  }

  lemma DivideBounds(lo: real, s: real, hi: real, n: real)
    requires n > 0.0 && lo * n <= s <= hi * n
    ensures lo <= s / n <= hi
  {
    assert lo * n / n == lo;
    assert hi * n / n == hi;
  }

  /** Throughput `count / seconds`, reported as zero instead of dividing by a zero duration. */
  function Throughput(count: int, seconds: real): (r: real)
    ensures seconds > 0.0 ==> r * seconds == count as real
    ensures seconds <= 0.0 ==> r == 0.0
    ensures count >= 0 ==> r >= 0.0
  {
    if seconds > 0.0 then (count as real) / seconds else 0.0
  }
}
