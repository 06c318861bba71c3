/** The latency statistics of the client report: average, minimum, maximum
    and the 50th, 95th and 99th percentiles of the recorded round-trip
    samples, taken from an ascending copy of the samples. */
module LatencyStats {
  import opened Reporting

  /** Smallest sample (Python's `min`). */
  function Min(s: seq<int>): (r: int)
    requires |s| > 0
    ensures r in s
    ensures forall i :: 0 <= i < |s| ==> r <= s[i]
  {
    if |s| == 1 then s[0]
    else
      var m := Min(s[..|s| - 1]);
      assert forall i :: 0 <= i < |s| - 1 ==> s[..|s| - 1][i] == s[i];
      if s[|s| - 1] < m then s[|s| - 1] else m
  }

  /** Largest sample (Python's `max`). */
  function Max(s: seq<int>): (r: int)
    requires |s| > 0
    ensures r in s
    ensures forall i :: 0 <= i < |s| ==> s[i] <= r
  {
    if |s| == 1 then s[0]
    else
      var m := Max(s[..|s| - 1]);
      assert forall i :: 0 <= i < |s| - 1 ==> s[..|s| - 1][i] == s[i];
      if s[|s| - 1] > m then s[|s| - 1] else m
  }

  /** A lower bound of every sample bounds the sum from below, |s| times over. */
  lemma {:induction false} SumAtLeast(s: seq<int>, lo: int)
    requires forall i :: 0 <= i < |s| ==> lo <= s[i]
    ensures |s| * lo <= Sum(s)
  {
    if s != [] {
      var init := s[..|s| - 1];
      assert forall i :: 0 <= i < |init| ==> init[i] == s[i];
      SumAtLeast(init, lo);
      assert |s| * lo == |init| * lo + lo;
    }
  }

  /** An upper bound of every sample bounds the sum from above, |s| times over. */
  lemma {:induction false} SumAtMost(s: seq<int>, hi: int)
    requires forall i :: 0 <= i < |s| ==> s[i] <= hi
    ensures Sum(s) <= |s| * hi
  {
    if s != [] {
      var init := s[..|s| - 1];
      assert forall i :: 0 <= i < |init| ==> init[i] == s[i];
      SumAtMost(init, hi);
      assert |s| * hi == |init| * hi + hi;
    }
  }

  /** Average sample: `sum(latencies) / len(latencies)` with true division. */
  function Mean(s: seq<int>): (r: real)
    requires |s| > 0
    ensures r * (|s| as real) == Sum(s) as real
  {
    (Sum(s) as real) / (|s| as real)
  }

  /** The average lies between the smallest and the largest sample. */
  lemma MeanBetweenMinAndMax(s: seq<int>)
    requires |s| > 0
    ensures Min(s) as real <= Mean(s) <= Max(s) as real
  {
    var lo, hi, total, n := Min(s), Max(s), Sum(s), |s|;
    SumAtLeast(s, lo);
    SumAtMost(s, hi);
    assert n * lo <= total <= n * hi;
    DivideBounds(lo, total, hi, n);
  }

  /** Dividing `n * lo <= total <= n * hi` by the positive count `n`. */
  lemma DivideBounds(lo: int, total: int, hi: int, n: int)
    requires n > 0 && n * lo <= total <= n * hi
    ensures lo as real <= (total as real) / (n as real) <= hi as real
  {
    var q := (total as real) / (n as real);
    assert q * (n as real) == total as real;
    assert (lo as real) * (n as real) == (n * lo) as real;
    assert (hi as real) * (n as real) == (n * hi) as real;
  }

  predicate IsSorted(s: seq<int>)
  {
    forall i, j :: 0 <= i < j < |s| ==> s[i] <= s[j]
  }

  /** Inserts `x` into an ascending sequence. */
  function Insert(x: int, s: seq<int>): (r: seq<int>)
    requires IsSorted(s)
    ensures |r| == |s| + 1
    ensures r[0] == x || (|s| > 0 && r[0] == s[0])
    ensures IsSorted(r)
    ensures multiset(r) == multiset(s) + multiset{x}
  {
    if s == [] then [x]
    else if x <= s[0] then [x] + s
    else
      assert s == [s[0]] + s[1..];
      [s[0]] + Insert(x, s[1..])
  }

  /** An ascending copy of the samples (Python's `sorted`), by insertion. */
  function Sort(s: seq<int>): (r: seq<int>)
    ensures |r| == |s|
    ensures IsSorted(r)
    ensures multiset(r) == multiset(s)
  {
    if s == [] then []
    else
      assert s == [s[0]] + s[1..];
      Insert(s[0], Sort(s[1..]))
  }

  /** Index of the `percent`-th percentile in an ascending sequence of `n`
      samples: the floor of `n * percent / 100`. */
  function PercentileIndex(n: nat, percent: nat): (i: nat)
    requires n > 0 && percent < 100
    ensures i < n
    ensures i * 100 <= n * percent < (i + 1) * 100
  {
    n * percent / 100
  }

  /** The median is read at `len // 2`, which is the 50th-percentile index. */
  lemma MedianIndexIsPercentile50(n: nat)
    requires n > 0
    ensures n / 2 == PercentileIndex(n, 50)
  {
  }

  /** A higher percentile never sits at a lower index. */
  lemma PercentileIndexMonotone(n: nat, p: nat, q: nat)
    requires n > 0 && p <= q < 100
    ensures PercentileIndex(n, p) <= PercentileIndex(n, q)
  {
    assert n * p <= n * q;
  }

  /** Everything the client report prints about latency. */
  datatype Summary = Summary(average: real, minimum: int, maximum: int, p50: int, p95: int, p99: int)

  /** The latency block of the client report, for a non-empty sample list.
      The percentiles are read from the ascending copy, so they are samples
      themselves and are ordered between the minimum and the maximum. */
  function Summarize(latencies: seq<int>): (r: Summary)
    requires |latencies| > 0
    ensures r.minimum in latencies && r.maximum in latencies
    ensures r.p50 in latencies && r.p95 in latencies && r.p99 in latencies
    ensures r.minimum as real <= r.average <= r.maximum as real
    ensures r.minimum <= r.p50 <= r.p95 <= r.p99 <= r.maximum
    ensures forall i :: 0 <= i < |latencies| ==> r.minimum <= latencies[i] <= r.maximum
    ensures r.average == Mean(latencies)
    ensures var sorted := Sort(latencies); var n := |latencies|;
      r.p50 == sorted[n / 2] && r.p95 == sorted[PercentileIndex(n, 95)] && r.p99 == sorted[PercentileIndex(n, 99)]
  {
    var n := |latencies|;
    var sorted := Sort(latencies);
    var i50, i95, i99 := n / 2, PercentileIndex(n, 95), PercentileIndex(n, 99);
    SortedPicks(latencies, sorted, i50, i95, i99);
    MeanBetweenMinAndMax(latencies);
    Summary(Mean(latencies), Min(latencies), Max(latencies), sorted[i50], sorted[i95], sorted[i99])
  }

  /** Reading an ascending copy at the three percentile indices yields
      samples, in order, between the minimum and the maximum. */
  lemma SortedPicks(s: seq<int>, sorted: seq<int>, i50: nat, i95: nat, i99: nat)
    requires |s| > 0 && IsSorted(sorted) && multiset(sorted) == multiset(s)
    requires i50 == |s| / 2 && i95 == PercentileIndex(|s|, 95) && i99 == PercentileIndex(|s|, 99)
    ensures i50 <= i95 <= i99 < |sorted| == |s|
    ensures sorted[i50] in s && sorted[i95] in s && sorted[i99] in s
    ensures Min(s) <= sorted[i50] <= sorted[i95] <= sorted[i99] <= Max(s)
  {
    var n := |s|;
    assert |sorted| == |multiset(sorted)| == n;
    MedianIndexIsPercentile50(n);
    PercentileIndexMonotone(n, 50, 95);
    PercentileIndexMonotone(n, 95, 99);
    assert sorted[i50] in multiset(sorted) && sorted[i99] in multiset(sorted) && sorted[i95] in multiset(sorted);
  }
}
