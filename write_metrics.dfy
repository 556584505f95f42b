/**
 * The write server's metrics collector: request counters that grow by the
 * number of rows an operation covered, and a capped buffer of latency samples.
 */
module WriteMetrics {
  import opened MetricsCore

  class Collector {
    var totalRequests: int
    var successRequests: int
    var failedRequests: int
    /** Latency samples in nanoseconds, in the order they were recorded. */
    var latencies: seq<int>
    const maxLatencies: nat

    /** Every request is either a success or a failure, and the buffer stays under its cap. */
    ghost predicate Valid()
      reads this
    {
      && totalRequests == successRequests + failedRequests
      && maxLatencies == MaxLatencies
      && |latencies| <= maxLatencies
    }

    /** NewCollector: zero counters and an empty buffer of capacity 100000. */
    constructor ()
      ensures Valid()
      ensures totalRequests == 0 && successRequests == 0 && failedRequests == 0
      ensures latencies == []
    {
      totalRequests, successRequests, failedRequests := 0, 0, 0;
      latencies := [];
      maxLatencies := MaxLatencies;
    }

    /**
     * Counts `count` successful rows under one latency; the latency is kept
     * only while the buffer is below its cap.
     */
    method RecordSuccess(latency: int, count: int)
      requires Valid()
      modifies this
      ensures Valid()
      ensures totalRequests == old(totalRequests) + count
      ensures successRequests == old(successRequests) + count
      ensures failedRequests == old(failedRequests)
      ensures latencies == if |old(latencies)| < maxLatencies then old(latencies) + [latency] else old(latencies)
    {
      totalRequests := totalRequests + count;
      successRequests := successRequests + count;
      if |latencies| < maxLatencies {
        latencies := latencies + [latency];
      }
    }

    /** Counts `count` failed rows; no latency is kept for a failure. */
    method RecordFailure(count: int)
      requires Valid()
      modifies this
      ensures Valid()
      ensures totalRequests == old(totalRequests) + count
      ensures failedRequests == old(failedRequests) + count
      ensures successRequests == old(successRequests)
      ensures latencies == old(latencies)
    {
      totalRequests := totalRequests + count;
      failedRequests := failedRequests + count;
    }

    /** The snapshot of the current counters and samples. */
    method GetMetrics() returns (m: Metrics)
      requires Valid()
      ensures m == Summarize(totalRequests, successRequests, failedRequests, latencies)
    {
      var sumMs := 0;
      var p50, p95, p99 := 0, 0, 0;
      if |latencies| > 0 {
        var sum := 0;
        var i := 0;
        while i < |latencies|
          invariant 0 <= i <= |latencies|
          invariant sum == Sum(latencies[..i])
        {
          assert latencies[..i + 1][..i] == latencies[..i];
          sum := sum + latencies[i];
          i := i + 1;
        }
        assert latencies[..i] == latencies;
        sumMs := Milliseconds(sum);
        var sorted := SortAscending(latencies);
        var n := |sorted|;
        p50 := Milliseconds(sorted[n * 50 / 100]);
        p95 := Milliseconds(sorted[n * 95 / 100]);
        p99 := Milliseconds(sorted[n * 99 / 100]);
        assert p50 == Percentile(sorted, 50) && p95 == Percentile(sorted, 95) && p99 == Percentile(sorted, 99);
      }
      m := Metrics(totalRequests, successRequests, failedRequests, sumMs, |latencies|, p50, p95, p99);
    }

    /** Zeroes the counters and empties the buffer. */
    method Reset()
      requires Valid()
      modifies this
      ensures Valid()
      ensures totalRequests == 0 && successRequests == 0 && failedRequests == 0
      ensures latencies == []
    {
      totalRequests, successRequests, failedRequests := 0, 0, 0;
      latencies := [];
    }
  }
}
