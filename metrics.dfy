/**
 * What the two metrics collectors share: the sample cap, the conversion of
 * nanosecond latencies to whole milliseconds, the sorted copy and the
 * percentile read-out of a snapshot.
 */
module MetricsCore {

  /** The collectors keep at most this many latency samples. */
  const MaxLatencies: nat := 100000

  const NanosPerMilli: int := 1000000

  /**
   * time.Duration.Milliseconds: a latency in nanoseconds as a whole number of
   * milliseconds, truncated toward zero.
   */
  function Milliseconds(d: int): (ms: int)
    ensures d >= 0 ==> 0 <= ms && ms * NanosPerMilli <= d < ms * NanosPerMilli + NanosPerMilli
    ensures d < 0 ==> ms <= 0 && ms * NanosPerMilli - NanosPerMilli < d <= ms * NanosPerMilli
  {
    if d >= 0 then d / NanosPerMilli else -((-d) / NanosPerMilli)
  }

  lemma MillisecondsMonotone(a: int, b: int)
    requires a <= b
    ensures Milliseconds(a) <= Milliseconds(b)
  {
  }

  function Min(a: int, b: int): int {
    if a <= b then a else b
  }

  /** The buffer after each sample in turn was offered to RecordSuccess, which appends only under the cap. */
  function AppendCapped(buf: seq<int>, samples: seq<int>): (r: seq<int>)
    requires |buf| <= MaxLatencies
    ensures |r| <= MaxLatencies
    decreases |samples|
  {
    if samples == [] then buf
    else
      var before := AppendCapped(buf, samples[..|samples| - 1]);
      if |before| < MaxLatencies then before + [samples[|samples| - 1]] else before
  }

  /** The samples that fit under the cap are kept, in order, after the existing ones, and the rest are dropped. */
  lemma {:induction false} AppendCappedKeepsFirst(buf: seq<int>, samples: seq<int>)
    requires |buf| <= MaxLatencies
    ensures AppendCapped(buf, samples) == buf + samples[..Min(|samples|, MaxLatencies - |buf|)]
    decreases |samples|
  {
    if samples != [] {
      var init := samples[..|samples| - 1];
      AppendCappedKeepsFirst(buf, init);
      assert init[..Min(|init|, MaxLatencies - |buf|)] == samples[..Min(|init|, MaxLatencies - |buf|)];
    }
  }

  /** Offering one more sample extends the buffer exactly as RecordSuccess does. */
  lemma AppendCappedSnoc(buf: seq<int>, samples: seq<int>, x: int)
    requires |buf| <= MaxLatencies
    ensures var before := AppendCapped(buf, samples);
      AppendCapped(buf, samples + [x]) == if |before| < MaxLatencies then before + [x] else before
  {
    assert (samples + [x])[..|samples|] == samples;
  }

  /** Offering samples one at a time is offering them all at once. */
  lemma AppendCappedOneMore(buf: seq<int>, samples: seq<int>, x: int)
    requires |buf| <= MaxLatencies
    ensures AppendCapped(buf, samples + [x]) == AppendCapped(AppendCapped(buf, samples), [x])
  {
    AppendCappedSnoc(buf, samples, x);
    AppendCappedSnoc(AppendCapped(buf, samples), [], x);
    assert [] + [x] == [x];
  }

  function Sum(s: seq<int>): int {
    if s == [] then 0 else Sum(s[..|s| - 1]) + s[|s| - 1]
  }

  predicate Sorted(s: seq<int>) {
    forall i, j :: 0 <= i < j < |s| ==> s[i] <= s[j]
  }

  /** Inserts x into a sorted sequence, keeping it sorted. */
  function Insert(x: int, s: seq<int>): (r: seq<int>)
    requires Sorted(s)
    ensures |r| == |s| + 1 && Sorted(r)
    ensures multiset(r) == multiset(s) + multiset{x}
    ensures r[0] == if s == [] || x <= s[0] then x else s[0]
    decreases |s|
  {
    if s == [] || x <= s[0] then
      ConsSorted(x, s);
      [x] + s
    else
      var rest := Insert(x, s[1..]);
      assert s == [s[0]] + s[1..];
      ConsSorted(s[0], rest);
      [s[0]] + rest
  }

  lemma ConsSorted(x: int, s: seq<int>)
    requires Sorted(s) && (s == [] || x <= s[0])
    ensures Sorted([x] + s)
  {
  }

  /** The ascending sorted copy that sort.Slice produces from the copied buffer. */
  function SortAscending(s: seq<int>): (r: seq<int>)
    ensures |r| == |s| && Sorted(r)
    ensures multiset(r) == multiset(s)
    decreases |s|
  {
    if s == [] then []
    else
      assert s == [s[0]] + s[1..];
      Insert(s[0], SortAscending(s[1..]))
  }

  /** The index `len*p/100` into a sorted copy of `len` samples. */
  function PercentileIndex(len: nat, p: nat): (i: nat)
    requires 0 < len && p < 100
    ensures i < len
  {
    assert len * p <= len * 99;
    len * p / 100
  }

  function Percentile(sorted: seq<int>, p: nat): (r: int)
    requires 0 < |sorted| && p < 100
    ensures Sorted(sorted) ==> Milliseconds(sorted[0]) <= r <= Milliseconds(sorted[|sorted| - 1])
  {
    var i := PercentileIndex(|sorted|, p);
    SampleBetweenEnds(sorted, i);
    Milliseconds(sorted[i])
  }

  /** In a sorted sequence, every sample lies between the first and the last, also in milliseconds. */
  lemma SampleBetweenEnds(sorted: seq<int>, i: nat)
    requires i < |sorted|
    ensures Sorted(sorted) ==> Milliseconds(sorted[0]) <= Milliseconds(sorted[i]) <= Milliseconds(sorted[|sorted| - 1])
  {
    if Sorted(sorted) {
      assert sorted[0] <= sorted[i] <= sorted[|sorted| - 1];
      MillisecondsMonotone(sorted[0], sorted[i]);
      MillisecondsMonotone(sorted[i], sorted[|sorted| - 1]);
    }
  }

  /**
   * A snapshot of a collector. AvgLatency, a float in the source, is carried
   * as its numerator (the millisecond total) and its denominator (the number
   * of samples).
   */
  datatype Metrics = Metrics(
    totalRequests: int,
    successRequests: int,
    failedRequests: int,
    latencySumMs: int,
    latencyCount: nat,
    p50LatencyMs: int,
    p95LatencyMs: int,
    p99LatencyMs: int)

  /** The snapshot that GetMetrics reports for the given counters and samples. */
  function Summarize(total: int, success: int, failed: int, latencies: seq<int>): (m: Metrics)
    ensures m.totalRequests == total && m.successRequests == success && m.failedRequests == failed
    ensures m.latencyCount == |latencies|
    ensures latencies == [] ==> m.latencySumMs == 0 && m.p50LatencyMs == 0 && m.p95LatencyMs == 0 && m.p99LatencyMs == 0
  {
    if latencies == [] then Metrics(total, success, failed, 0, 0, 0, 0, 0)
    else
      var sorted := SortAscending(latencies);
      Metrics(total, success, failed, Milliseconds(Sum(latencies)), |latencies|,
              Percentile(sorted, 50), Percentile(sorted, 95), Percentile(sorted, 99))
  }

  /** The largest sample. */
  function MaxOf(s: seq<int>): (m: int)
    requires |s| > 0
    ensures m in s && forall k :: 0 <= k < |s| ==> s[k] <= m
  {
    if |s| == 1 then s[0]
    else
      var rest := MaxOf(s[1..]);
      assert forall k :: 1 <= k < |s| ==> s[k] == s[1..][k - 1];
      if s[0] >= rest then s[0] else rest
  }

  /** The smallest sample. */
  function MinOf(s: seq<int>): (m: int)
    requires |s| > 0
    ensures m in s && forall k :: 0 <= k < |s| ==> m <= s[k]
  {
    if |s| == 1 then s[0]
    else
      var rest := MinOf(s[1..]);
      assert forall k :: 1 <= k < |s| ==> s[k] == s[1..][k - 1];
      if s[0] <= rest then s[0] else rest
  }

  /** The first and last elements of the sorted copy are the smallest and largest samples. */
  lemma SortedEnds(s: seq<int>)
    requires |s| > 0
    ensures SortAscending(s)[0] == MinOf(s)
    ensures SortAscending(s)[|s| - 1] == MaxOf(s)
  {
    var r := SortAscending(s);
    SortedFirstIsMin(r, s);
    SortedLastIsMax(r, s);
  }

  lemma SortedFirstIsMin(r: seq<int>, s: seq<int>)
    requires |s| > 0 && |r| == |s| && Sorted(r) && multiset(r) == multiset(s)
    ensures r[0] == MinOf(s)
  {
    var m := MinOf(s);
    assert m in multiset(r);
    var i :| 0 <= i < |r| && r[i] == m;
    assert r[0] <= r[i];
    assert r[0] in multiset(s);
    var k :| 0 <= k < |s| && s[k] == r[0];
    assert m <= s[k];
  }

  lemma SortedLastIsMax(r: seq<int>, s: seq<int>)
    requires |s| > 0 && |r| == |s| && Sorted(r) && multiset(r) == multiset(s)
    ensures r[|r| - 1] == MaxOf(s)
  {
    var m := MaxOf(s);
    assert m in multiset(r);
    var i :| 0 <= i < |r| && r[i] == m;
    assert r[i] <= r[|r| - 1];
    assert r[|r| - 1] in multiset(s);
    var k :| 0 <= k < |s| && s[k] == r[|r| - 1];
    assert s[k] <= m;
  }

  /**
   * With at least one sample, the percentiles keep their order and lie between
   * the smallest and the largest sample, in milliseconds.
   */
  lemma PercentilesOrdered(total: int, success: int, failed: int, latencies: seq<int>)
    requires latencies != []
    ensures var m := Summarize(total, success, failed, latencies);
      Milliseconds(MinOf(latencies)) <= m.p50LatencyMs <= m.p95LatencyMs
      && m.p95LatencyMs <= m.p99LatencyMs <= Milliseconds(MaxOf(latencies))
  {
    var sorted := SortAscending(latencies);
    SortedEnds(latencies);
    PercentileBetween(sorted, 50, 95);
    PercentileBetween(sorted, 95, 99);
  }

  /** In a sorted copy, a higher percentile is never below a lower one. */
  lemma PercentileBetween(sorted: seq<int>, p: nat, q: nat)
    requires 0 < |sorted| && Sorted(sorted) && p <= q < 100
    ensures Percentile(sorted, p) <= Percentile(sorted, q)
  {
    var n := |sorted|;
    PercentileIndexMonotone(n, p, q);
    MillisecondsMonotone(sorted[PercentileIndex(n, p)], sorted[PercentileIndex(n, q)]);
  }

  lemma PercentileIndexMonotone(n: nat, p: nat, q: nat)
    requires 0 < n && p <= q < 100
    ensures PercentileIndex(n, p) <= PercentileIndex(n, q)
  {
    assert n * p <= n * q;
  }

  /** Every reported percentile is the millisecond value of a stored sample. */
  lemma PercentilesAreSamples(total: int, success: int, failed: int, latencies: seq<int>)
    requires latencies != []
    ensures var m := Summarize(total, success, failed, latencies);
      && (exists k :: 0 <= k < |latencies| && m.p50LatencyMs == Milliseconds(latencies[k]))
      && (exists k :: 0 <= k < |latencies| && m.p95LatencyMs == Milliseconds(latencies[k]))
      && (exists k :: 0 <= k < |latencies| && m.p99LatencyMs == Milliseconds(latencies[k]))
  {
    var n := |latencies|;
    var sorted := SortAscending(latencies);
    var i50, i95, i99 := PercentileIndex(n, 50), PercentileIndex(n, 95), PercentileIndex(n, 99);
    assert sorted[i50] in multiset(latencies) && sorted[i95] in multiset(latencies) && sorted[i99] in multiset(latencies);
    var k50 :| 0 <= k50 < n && latencies[k50] == sorted[i50];
    var k95 :| 0 <= k95 < n && latencies[k95] == sorted[i95];
    var k99 :| 0 <= k99 < n && latencies[k99] == sorted[i99];
  }
}
