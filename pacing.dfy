/**
 * The rate limit of a load worker: the target rate (queries or transactions
 * per second) is split evenly over the workers, at least one per second each,
 * and each worker waits for a ticker with the matching period.
 */
module Pacing {
  import opened Wrappers

  /** time.Second, in nanoseconds. */
  const Second: int := 1_000_000_000

  /** `rate / workers` with Go's integer division, raised to 1 when it is below 1. */
  function PerWorkerRate(rate: int, workers: int): (r: int)
    requires rate > 0 && workers >= 1
    ensures r >= 1 && r <= rate
    ensures rate >= workers ==> r * workers <= rate < (r + 1) * workers
    ensures rate < workers ==> r == 1
  {
    DivisionBounds(rate, workers);
    var share := rate / workers;
    if share < 1 then 1 else share
  }

  /** The quotient of Go's division of non-negative numbers: the largest multiple of b not above a. */
  lemma DivisionBounds(a: int, b: int)
    requires a >= 0 && b >= 1
    ensures 0 <= a / b <= a
    ensures (a / b) * b <= a < (a / b + 1) * b
  {
    var q, m := a / b, a % b;
    assert a == q * b + m && 0 <= m < b;
    MulSucc(q, b);
    MulNonpositive(q + 1, b);
    MulSucc(q, b - 1);
    MulNonnegative(q, b - 1);
  }

  lemma MulSucc(x: int, y: int)
    ensures (x + 1) * y == x * y + y
    ensures x * (y + 1) == x * y + x
  {
  }

  lemma MulNonnegative(x: int, y: int)
    requires x >= 0 && y >= 0
    ensures x * y >= 0
  {
  }

  lemma MulNonpositive(x: int, y: int)
    requires y >= 0
    ensures x <= 0 ==> x * y <= 0
  {
    if x <= 0 {
      MulNonnegative(-x, y);
      assert (-x) * y == -(x * y);
    }
  }

  /** The ticker period as the worker computes it: `time.Second / time.Duration(perWorker)`. */
  function TickIntervalAsWritten(perWorker: int): int
    requires perWorker >= 1
  {
    Second / perWorker
  }

  /**
   * A rate above 10^9 per worker makes the written period 0 ns, and
   * time.NewTicker panics on a period that is not positive.
   */
  lemma TickIntervalAsWrittenVanishes()
    ensures PerWorkerRate(2_000_000_000, 1) == 2_000_000_000
    ensures TickIntervalAsWritten(PerWorkerRate(2_000_000_000, 1)) == 0
  {
  }

  /** The period with the intended floor of 1 ns, so that the ticker can always be created. */
  function TickInterval(perWorker: int): (d: int)
    requires perWorker >= 1
    ensures 1 <= d <= Second
    ensures perWorker <= Second ==> d == TickIntervalAsWritten(perWorker)
  {
    var d := Second / perWorker;
    if d < 1 then 1 else d
  }

  /** Up to the rate the clock can express, one tick per period gives at most `perWorker` ticks a second, and more than `perWorker - 1`. */
  lemma TickIntervalMeetsRate(perWorker: int)
    requires 1 <= perWorker <= Second
    ensures TickInterval(perWorker) * perWorker <= Second < (TickInterval(perWorker) + 1) * perWorker
  {
    var d := TickInterval(perWorker);
    assert d == Second / perWorker;
    DivisionBounds(Second, perWorker);
  }

  /** The period a worker waits between ticks, or None when the rate is 0 (unlimited). */
  function WorkerPacing(rate: int, workers: int): (p: Option<int>)
    requires workers >= 1
    ensures p.None? <==> rate <= 0
    ensures p.Some? ==> 1 <= p.value <= Second
  {
    if rate > 0 then Some(TickInterval(PerWorkerRate(rate, workers))) else None
  }

  /** The number of worker goroutines the launch loop starts for a `Workers` setting. */
  function WorkerCount(workers: int): nat {
    if workers > 0 then workers else 0
  }
}
