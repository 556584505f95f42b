/**
 * The read load generator as a sequential state machine. The database is an
 * oracle that says, per transaction, at which stage it failed or after what
 * latency it committed; a worker's run is the sequence of iterations it
 * completes before it sees the stop signal.
 */
module ReadGenerator {
  import opened Wrappers
  import opened MetricsCore
  import opened ReadConfig
  import opened Pacing
  import ReadMetrics
  import Decimal

  const SimpleQuery: string := "simple"
  const FilterQuery: string := "filter"
  const AggregateQuery: string := "aggregate"

  predicate IsKnownQueryType(queryType: string) {
    queryType == SimpleQuery || queryType == FilterQuery || queryType == AggregateQuery
  }

  /** selectQueryType: cumulative weights against a draw `r = rand.Intn(100)`. */
  function SelectQueryType(mix: QueryMix, r: int): (t: string)
    ensures IsKnownQueryType(t)
    ensures ValidMix(mix) && 0 <= r < 100 ==>
      && (t == SimpleQuery ==> mix.simple > 0)
      && (t == FilterQuery ==> mix.filter > 0)
      && (t == AggregateQuery ==> mix.aggregate > 0)
  {
    if r < mix.simple then SimpleQuery
    else if r < mix.simple + mix.filter then FilterQuery
    else AggregateQuery
  }

  /** How many of the draws 0, 1, ..., n-1 select `queryType`. */
  function CountSelected(mix: QueryMix, queryType: string, n: nat): nat {
    if n == 0 then 0
    else CountSelected(mix, queryType, n - 1) + (if SelectQueryType(mix, n - 1) == queryType then 1 else 0)
  }

  function Max(a: int, b: int): int {
    if a >= b then a else b
  }

  lemma {:induction false} CountSelectedPrefix(mix: QueryMix, n: nat)
    requires mix.simple >= 0 && mix.filter >= 0
    ensures CountSelected(mix, SimpleQuery, n) == Min(n, mix.simple)
    ensures CountSelected(mix, FilterQuery, n) == Min(Max(n - mix.simple, 0), mix.filter)
    ensures CountSelected(mix, AggregateQuery, n) == Max(n - mix.simple - mix.filter, 0)
  {
    if n > 0 {
      CountSelectedPrefix(mix, n - 1);
    }
  }

  /** Of the 100 possible draws, each query type gets exactly as many as its percentage. */
  lemma SelectionMatchesMix(mix: QueryMix)
    requires ValidMix(mix)
    ensures CountSelected(mix, SimpleQuery, 100) == mix.simple
    ensures CountSelected(mix, FilterQuery, 100) == mix.filter
    ensures CountSelected(mix, AggregateQuery, 100) == mix.aggregate
  {
    CountSelectedPrefix(mix, 100);
  }

  /**
   * Two int64 weights near the maximum wrap the total round to 100, so the
   * mix passes the check as written although its weights are far from
   * percentages, and the selector then sends every draw to one query type.
   */
  lemma WrappedMixSelectsOnlySimple()
    ensures var mix := QueryMix(Decimal.Int64Max, Decimal.Int64Max, 102);
      && MixAcceptedAsWritten(mix) && !ValidMix(mix)
      && CountSelected(mix, SimpleQuery, 100) == 100
      && CountSelected(mix, FilterQuery, 100) == 0
      && CountSelected(mix, AggregateQuery, 100) == 0
  {
    var mix := QueryMix(Decimal.Int64Max, Decimal.Int64Max, 102);
    assert MixTotalAsWritten(mix) == 100;
    CountSelectedPrefix(mix, 100);
  }

  /** The stages of a query transaction: BEGIN, SET TRANSACTION, the query, each row's Scan, rows.Err, COMMIT. */
  datatype Stage = Begin | SetIsolation | Query | ScanRow | RowIteration | Commit

  /** What the database does with one transaction. */
  datatype TxResult = FailedAt(stage: Stage) | Committed(latency: int)

  datatype GeneratorError =
    | AlreadyRunning
    | UpdateWhileRunning
    | InvalidConfig(cause: ConfigError)
    | UnknownQueryType(queryType: string)
    | DatabaseError(stage: Stage)

  /** The error executeQuery returns for a query type and a transaction outcome. */
  function QueryError(queryType: string, tx: TxResult): (err: Option<GeneratorError>)
    ensures err.None? <==> IsKnownQueryType(queryType) && tx.Committed?
    ensures !IsKnownQueryType(queryType) ==> err == Some(UnknownQueryType(queryType))
    ensures IsKnownQueryType(queryType) && tx.FailedAt? ==> err == Some(DatabaseError(tx.stage))
  {
    if !IsKnownQueryType(queryType) then Some(UnknownQueryType(queryType))
    else match tx
      case FailedAt(stage) => Some(DatabaseError(stage))
      case Committed(_) => None
  }

  /** One pass of a worker's loop: the query-type draw and what the database did. */
  datatype Iteration = Iteration(draw: int, tx: TxResult)

  /** How many of the iterations committed. */
  function Successes(its: seq<Iteration>): (n: nat)
    ensures n <= |its|
  {
    if its == [] then 0 else Successes(its[..|its| - 1]) + (if its[|its| - 1].tx.Committed? then 1 else 0)
  }

  /** The latencies of the committed iterations, in order. */
  function SuccessLatencies(its: seq<Iteration>): (ls: seq<int>)
    ensures |ls| == Successes(its)
  {
    if its == [] then []
    else
      var last := its[|its| - 1];
      SuccessLatencies(its[..|its| - 1]) + (if last.tx.Committed? then [last.tx.latency] else [])
  }


  class Generator {
    var config: Settings
    const collector: ReadMetrics.Collector
    var running: bool
    /** Which stop channel is current: Start makes a new one. */
    var stopEpoch: nat
    /** Whether the current stop channel has been closed. */
    var stopClosed: bool
    /** The WaitGroup's count: workers started and not yet returned. */
    var activeWorkers: nat

    /**
     * While running, the current stop channel is open and the workers that
     * Start launched for the current config are active; when stopped, none are.
     */
    ghost predicate Valid()
      reads this, collector
    {
      && collector.Valid()
      && (running ==> !stopClosed && activeWorkers == WorkerCount(config.workers))
      && (!running ==> activeWorkers == 0)
    }

    /** NewGenerator: stopped, with an open stop channel. */
    constructor (config: Settings, collector: ReadMetrics.Collector)
      requires collector.Valid()
      ensures Valid()
      ensures this.config == config && this.collector == collector
      ensures !running && stopEpoch == 0 && !stopClosed && activeWorkers == 0
    {
      this.config := config;
      this.collector := collector;
      running := false;
      stopEpoch := 0;
      stopClosed := false;
      activeWorkers := 0;
    }

    /** The running flag; a generator that reports itself stopped has no worker left. */
    function IsRunning(): (r: bool)
      reads this, collector
      ensures r == running
      ensures Valid() ==> (r ==> activeWorkers == WorkerCount(config.workers)) && (!r ==> activeWorkers == 0)
    {
      running
    }

    /** The settings the workers run with: a running generator has as many workers as they name. */
    function GetConfig(): (r: Settings)
      reads this, collector
      ensures r == config
      ensures Valid() && running ==> activeWorkers == WorkerCount(r.workers)
    {
      config
    }

    /**
     * Refuses to start twice; otherwise marks the generator running, makes a
     * new stop channel, resets the collector and launches one worker per
     * configured worker.
     */
    method Start() returns (err: Option<GeneratorError>)
      requires Valid()
      modifies this, collector
      ensures Valid()
      ensures old(running) ==> err == Some(AlreadyRunning) && unchanged(this) && unchanged(collector)
      ensures !old(running) ==> && err == None && running && config == old(config)
                                 && stopEpoch == old(stopEpoch) + 1 && !stopClosed
                                 && activeWorkers == WorkerCount(config.workers)
      ensures !old(running) ==> && collector.totalRequests == 0 && collector.successRequests == 0
                                 && collector.failedRequests == 0 && collector.latencies == []
    {
      if running {
        return Some(AlreadyRunning);
      }
      running := true;
      stopEpoch := stopEpoch + 1;
      stopClosed := false;
      collector.Reset();
      var i := 0;
      while i < config.workers
        modifies this
        invariant 0 <= i <= WorkerCount(config.workers)
        invariant activeWorkers == i
        invariant running && stopEpoch == old(stopEpoch) + 1 && !stopClosed && config == old(config)
      {
        activeWorkers := activeWorkers + 1;
        i := i + 1;
      }
      return None;
    }

    /** A no-op when stopped; otherwise closes the stop channel and waits for every worker. */
    method Stop()
      requires Valid()
      modifies this
      ensures Valid()
      ensures !old(running) ==> unchanged(this)
      ensures old(running) ==> && !running && stopClosed && activeWorkers == 0
                                && stopEpoch == old(stopEpoch) && config == old(config)
    {
      if !running {
        return;
      }
      running := false;
      stopClosed := true;
      activeWorkers := 0;
    }

    /** Refused while running; otherwise validates `c` in place and installs it only if it is valid. */
    method UpdateConfig(c: Config) returns (err: Option<GeneratorError>)
      requires Valid()
      modifies this, c
      ensures Valid()
      ensures running == old(running) && stopEpoch == old(stopEpoch)
      ensures stopClosed == old(stopClosed) && activeWorkers == old(activeWorkers)
      ensures old(running) ==> err == Some(UpdateWhileRunning) && config == old(config) && c.Value() == old(c.Value())
      ensures !old(running) ==>
        var v := Validated(old(c.Value()));
        && c.Value() == v.settings
        && (v.error.Some? ==> err == Some(InvalidConfig(v.error.value)) && config == old(config))
        && (v.error.None? ==> err == None && config == v.settings)
    {
      if running {
        return Some(UpdateWhileRunning);
      }
      var e := c.Validate();
      if e.Some? {
        return Some(InvalidConfig(e.value));
      }
      config := c.Value();
      return None;
    }

    /** simpleQuery, filterQuery and aggregateQuery: a success is recorded only after the commit. */
    method RunQuery(tx: TxResult) returns (err: Option<GeneratorError>)
      requires collector.Valid()
      modifies collector
      ensures collector.Valid()
      ensures err == (if tx.Committed? then None else Some(DatabaseError(tx.stage)))
      ensures err.Some? ==> unchanged(collector)
      ensures tx.Committed? ==>
        && collector.totalRequests == old(collector.totalRequests) + 1
        && collector.successRequests == old(collector.successRequests) + 1
        && collector.failedRequests == old(collector.failedRequests)
        && collector.latencies == AppendCapped(old(collector.latencies), [tx.latency])
    {
      match tx
      case FailedAt(stage) =>
        err := Some(DatabaseError(stage));
      case Committed(latency) =>
        AppendCappedSnoc(collector.latencies, [], latency);
        assert [] + [latency] == [latency];
        collector.RecordSuccess(latency);
        err := None;
    }

    /** executeQuery: dispatches on the query type; an unknown type fails without touching the database. */
    method ExecuteQuery(queryType: string, tx: TxResult) returns (err: Option<GeneratorError>)
      requires collector.Valid()
      modifies collector
      ensures collector.Valid()
      ensures err == QueryError(queryType, tx)
      ensures err.Some? ==> unchanged(collector)
      ensures err.None? ==>
        && collector.totalRequests == old(collector.totalRequests) + 1
        && collector.successRequests == old(collector.successRequests) + 1
        && collector.failedRequests == old(collector.failedRequests)
        && collector.latencies == AppendCapped(old(collector.latencies), [tx.latency])
    {
      if queryType == SimpleQuery {
        err := RunQuery(tx);
      } else if queryType == FilterQuery {
        err := RunQuery(tx);
      } else if queryType == AggregateQuery {
        err := RunQuery(tx);
      } else {
        err := Some(UnknownQueryType(queryType));
      }
    }

    /** The ticker period a worker sets up before its loop, or None when QPS is 0 (unlimited). */
    method TickerInterval() returns (pacing: Option<int>)
      requires config.workers >= 1
      ensures pacing == WorkerPacing(config.qps, config.workers)
    {
      pacing := None;
      if config.qps > 0 {
        var qpsPerWorker := config.qps / config.workers;
        if qpsPerWorker < 1 {
          qpsPerWorker := 1;
        }
        var interval := Second / qpsPerWorker;
        if interval < 1 {
          interval := 1;
        }
        pacing := Some(interval);
      }
    }

    /** One pass of the worker's loop: exactly one outcome is recorded. */
    method Iterate(it: Iteration)
      requires collector.Valid()
      modifies collector
      ensures collector.Valid()
      ensures collector.totalRequests == old(collector.totalRequests) + 1
      ensures it.tx.Committed? ==>
        && collector.successRequests == old(collector.successRequests) + 1
        && collector.failedRequests == old(collector.failedRequests)
        && collector.latencies == AppendCapped(old(collector.latencies), [it.tx.latency])
      ensures it.tx.FailedAt? ==>
        && collector.successRequests == old(collector.successRequests)
        && collector.failedRequests == old(collector.failedRequests) + 1
        && collector.latencies == old(collector.latencies)
    {
      var queryType := SelectQueryType(config.queryMix, it.draw);
      var err := ExecuteQuery(queryType, it.tx);
      if err.Some? {
        collector.RecordFailure();
      }
    }

    /**
     * One worker: its ticker period, then one recorded outcome per iteration
     * it completes before the stop signal, a success for each commit and a
     * failure for everything else.
     */
    method Worker(iterations: seq<Iteration>) returns (pacing: Option<int>)
      requires Valid() && running && config.workers >= 1
      modifies collector
      ensures Valid()
      ensures pacing == WorkerPacing(config.qps, config.workers)
      ensures collector.totalRequests == old(collector.totalRequests) + |iterations|
      ensures collector.successRequests == old(collector.successRequests) + Successes(iterations)
      ensures collector.failedRequests == old(collector.failedRequests) + (|iterations| - Successes(iterations))
      ensures collector.latencies == AppendCapped(old(collector.latencies), SuccessLatencies(iterations))
    {
      pacing := TickerInterval();
      var i := 0;
      while i < |iterations|
        invariant 0 <= i <= |iterations|
        invariant Valid()
        invariant collector.totalRequests == old(collector.totalRequests) + i
        invariant collector.successRequests == old(collector.successRequests) + Successes(iterations[..i])
        invariant collector.failedRequests == old(collector.failedRequests) + (i - Successes(iterations[..i]))
        invariant collector.latencies == AppendCapped(old(collector.latencies), SuccessLatencies(iterations[..i]))
      {
        IterationsStep(iterations, i);
        if iterations[i].tx.Committed? {
          AppendCappedOneMore(old(collector.latencies), SuccessLatencies(iterations[..i]), iterations[i].tx.latency);
        }
        Iterate(iterations[i]);
        i := i + 1;
      }
      assert iterations[..i] == iterations;
    }
  }

  lemma IterationsStep(its: seq<Iteration>, i: nat)
    requires i < |its|
    ensures Successes(its[..i + 1]) == Successes(its[..i]) + (if its[i].tx.Committed? then 1 else 0)
    ensures its[i].tx.Committed? ==> SuccessLatencies(its[..i + 1]) == SuccessLatencies(its[..i]) + [its[i].tx.latency]
    ensures !its[i].tx.Committed? ==> SuccessLatencies(its[..i + 1]) == SuccessLatencies(its[..i])
  {
    assert its[..i + 1][..i] == its[..i];
    assert SuccessLatencies(its[..i]) + [] == SuccessLatencies(its[..i]);
  }
}
