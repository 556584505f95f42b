/**
 * The write load generator as a sequential state machine. Each iteration of a
 * worker inserts one batch of invented rows in a transaction; the database is
 * an oracle that says at which stage the transaction failed or after what
 * latency it committed.
 */
module WriteGenerator {
  import opened Wrappers
  import opened SqlText
  import opened BatchInsert
  import opened LogData
  import opened MetricsCore
  import opened WriteConfig
  import opened Pacing
  import WriteMetrics

  /** The stages of an insert transaction: BEGIN, SET TRANSACTION, the INSERT, COMMIT. */
  datatype Stage = Begin | SetIsolation | Execute | Commit

  datatype TxResult = FailedAt(stage: Stage) | Committed(latency: int)

  datatype GeneratorError =
    | AlreadyRunning
    | UpdateWhileRunning
    | InvalidConfig(cause: ConfigError)
    | DatabaseError(stage: Stage)

  /** The number of rows the batch loop produces for a `BatchSize` setting. */
  function RowCount(batchSize: int): nat {
    if batchSize > 0 then batchSize else 0
  }

  predicate ValidDraws(draws: seq<RowDraw>) {
    forall i :: 0 <= i < |draws| ==> ValidDraw(draws[i])
  }

  /** The rows a batch's draws produce, in order. */
  function Rows(draws: seq<RowDraw>): (rows: seq<LogFields>)
    requires ValidDraws(draws)
    ensures |rows| == |draws|
    ensures forall i :: 0 <= i < |draws| ==> rows[i] == RandomRow(draws[i])
  {
    if draws == [] then [] else Rows(draws[..|draws| - 1]) + [RandomRow(draws[|draws| - 1])]
  }

  /**
   * The statement insertBatch executes: the one-row INSERT for a batch size of
   * 1, the batch INSERT otherwise. Whichever branch builds it, a full batch
   * gets the n-tuple INSERT with the rows' `4 * BatchSize` arguments in order,
   * which mentions exactly the parameters `$1` to `$(4*BatchSize)`.
   */
  function InsertStatement(batchSize: int, rows: seq<LogFields>): (r: Statement)
    ensures |rows| == RowCount(batchSize) ==> r == Statement(BatchQuery(|rows|), RowArgs(rows))
    ensures |r.args| == 4 * |rows|
    ensures |rows| == RowCount(batchSize) ==> Placeholders(r.sql) == Numbered(|r.args|)
  {
    SingleInsertIsBatchOfOne();
    RowArgsLength(rows);
    if batchSize == 1 then Statement(SingleInsert, RowArgs(rows))
    else Statement(BatchQuery(|rows|), RowArgs(rows))
  }

  /** One pass of a worker's loop: the draws for the batch's rows and what the database did. */
  datatype Iteration = Iteration(draws: seq<RowDraw>, tx: TxResult)

  function Successes(its: seq<Iteration>): (n: nat)
    ensures n <= |its|
  {
    if its == [] then 0 else Successes(its[..|its| - 1]) + (if its[|its| - 1].tx.Committed? then 1 else 0)
  }

  function SuccessLatencies(its: seq<Iteration>): (ls: seq<int>)
    ensures |ls| == Successes(its)
  {
    if its == [] then []
    else
      var last := its[|its| - 1];
      SuccessLatencies(its[..|its| - 1]) + (if last.tx.Committed? then [last.tx.latency] else [])
  }

  lemma IterationsStep(its: seq<Iteration>, i: nat)
    requires i < |its|
    ensures Successes(its[..i + 1]) == Successes(its[..i]) + (if its[i].tx.Committed? then 1 else 0)
    ensures its[i].tx.Committed? ==> SuccessLatencies(its[..i + 1]) == SuccessLatencies(its[..i]) + [its[i].tx.latency]
    ensures !its[i].tx.Committed? ==> SuccessLatencies(its[..i + 1]) == SuccessLatencies(its[..i])
  {
    assert its[..i + 1][..i] == its[..i];
    assert SuccessLatencies(its[..i]) + [] == SuccessLatencies(its[..i]);
  }

  lemma SingleRow(draws: seq<RowDraw>, row: LogFields)
    requires |draws| == 1 && ValidDraws(draws) && row == RandomRow(draws[0])
    ensures Statement(SingleInsert, [Text(row.level), Text(row.service), Text(row.message), Text(row.metadata)])
      == InsertStatement(1, Rows(draws))
  {
    assert Rows(draws) == [row];
    assert RowArgs([row]) == RowArgs([row][..0]) + Fields(row);
  }

  /** The rows an iteration run records as successes: `batchSize` for every commit. */
  function SuccessRows(its: seq<Iteration>, batchSize: int): int {
    if its == [] then 0
    else SuccessRows(its[..|its| - 1], batchSize) + (if its[|its| - 1].tx.Committed? then batchSize else 0)
  }

  /** The rows an iteration run records as failures: `batchSize` for every failed transaction. */
  function FailureRows(its: seq<Iteration>, batchSize: int): int {
    if its == [] then 0
    else FailureRows(its[..|its| - 1], batchSize) + (if its[|its| - 1].tx.Committed? then 0 else batchSize)
  }

  lemma RowsStep(its: seq<Iteration>, i: nat, batchSize: int)
    requires i < |its|
    ensures SuccessRows(its[..i + 1], batchSize) == SuccessRows(its[..i], batchSize) + (if its[i].tx.Committed? then batchSize else 0)
    ensures FailureRows(its[..i + 1], batchSize) == FailureRows(its[..i], batchSize) + (if its[i].tx.Committed? then 0 else batchSize)
  {
    assert its[..i + 1][..i] == its[..i];
  }

  /** Every iteration counts `batchSize` rows: as successes when it commits, as failures otherwise. */
  lemma {:induction false} RowsScale(its: seq<Iteration>, batchSize: int)
    ensures SuccessRows(its, batchSize) == Successes(its) * batchSize
    ensures FailureRows(its, batchSize) == (|its| - Successes(its)) * batchSize
    ensures SuccessRows(its, batchSize) + FailureRows(its, batchSize) == |its| * batchSize
    decreases |its|
  {
    if its != [] {
      var init := its[..|its| - 1];
      RowsScale(init, batchSize);
      MulStep(Successes(init), batchSize);
      MulStep(|init| - Successes(init), batchSize);
      MulStep(|init|, batchSize);
    }
  }

  lemma MulStep(a: int, b: int)
    ensures (a + 1) * b == a * b + b
  {
  }


  class Generator {
    var config: Settings
    const collector: WriteMetrics.Collector
    var running: bool
    /** Which stop channel is current: Start makes a new one. */
    var stopEpoch: nat
    /** Whether the current stop channel has been closed. */
    var stopClosed: bool
    /** The WaitGroup's count: workers started and not yet returned. */
    var activeWorkers: nat

    ghost predicate Valid()
      reads this, collector
    {
      && collector.Valid()
      && (running ==> !stopClosed && activeWorkers == WorkerCount(config.workers))
      && (!running ==> activeWorkers == 0)
    }

    constructor (config: Settings, collector: WriteMetrics.Collector)
      requires collector.Valid()
      ensures Valid()
      ensures this.config == config && this.collector == collector
      ensures !running && stopEpoch == 0 && !stopClosed && activeWorkers == 0
    {
      this.config := config;
      this.collector := collector;
      running := false;
      stopEpoch := 0;
      stopClosed := false;
      activeWorkers := 0;
    }

    /** The running flag; a generator that reports itself stopped has no worker left. */
    function IsRunning(): (r: bool)
      reads this, collector
      ensures r == running
      ensures Valid() ==> (r ==> activeWorkers == WorkerCount(config.workers)) && (!r ==> activeWorkers == 0)
    {
      running
    }

    /** The settings the workers run with: a running generator has as many workers as they name. */
    function GetConfig(): (r: Settings)
      reads this, collector
      ensures r == config
      ensures Valid() && running ==> activeWorkers == WorkerCount(r.workers)
    {
      config
    }

    method Start() returns (err: Option<GeneratorError>)
      requires Valid()
      modifies this, collector
      ensures Valid()
      ensures old(running) ==> err == Some(AlreadyRunning) && unchanged(this) && unchanged(collector)
      ensures !old(running) ==> && err == None && running && config == old(config)
                                 && stopEpoch == old(stopEpoch) + 1 && !stopClosed
                                 && activeWorkers == WorkerCount(config.workers)
      ensures !old(running) ==> && collector.totalRequests == 0 && collector.successRequests == 0
                                 && collector.failedRequests == 0 && collector.latencies == []
    {
      if running {
        return Some(AlreadyRunning);
      }
      running := true;
      stopEpoch := stopEpoch + 1;
      stopClosed := false;
      collector.Reset();
      var i := 0;
      while i < config.workers
        modifies this
        invariant 0 <= i <= WorkerCount(config.workers)
        invariant activeWorkers == i
        invariant running && stopEpoch == old(stopEpoch) + 1 && !stopClosed && config == old(config)
      {
        activeWorkers := activeWorkers + 1;
        i := i + 1;
      }
      return None;
    }

    method Stop()
      requires Valid()
      modifies this
      ensures Valid()
      ensures !old(running) ==> unchanged(this)
      ensures old(running) ==> && !running && stopClosed && activeWorkers == 0
                                && stopEpoch == old(stopEpoch) && config == old(config)
    {
      if !running {
        return;
      }
      running := false;
      stopClosed := true;
      activeWorkers := 0;
    }

    /** Refused while running; otherwise validates `c` in place, which always succeeds, and installs it. */
    method UpdateConfig(c: Config) returns (err: Option<GeneratorError>)
      requires Valid()
      modifies this, c
      ensures Valid()
      ensures running == old(running) && stopEpoch == old(stopEpoch)
      ensures stopClosed == old(stopClosed) && activeWorkers == old(activeWorkers)
      ensures old(running) ==> err == Some(UpdateWhileRunning) && config == old(config) && c.Value() == old(c.Value())
      ensures !old(running) ==> err == None && c.Value() == Validated(old(c.Value())) && config == c.Value()
    {
      if running {
        return Some(UpdateWhileRunning);
      }
      var e := c.Validate();
      match e {
        case Some(cause) =>
          return Some(InvalidConfig(cause));
        case None =>
      }
      config := c.Value();
      return None;
    }

    /** The ticker period a worker sets up before its loop, or None when TPS is 0 (unlimited). */
    method TickerInterval() returns (pacing: Option<int>)
      requires config.workers >= 1
      ensures pacing == WorkerPacing(config.tps, config.workers)
    {
      pacing := None;
      if config.tps > 0 {
        var tpsPerWorker := config.tps / config.workers;
        if tpsPerWorker < 1 {
          tpsPerWorker := 1;
        }
        var interval := Second / tpsPerWorker;
        if interval < 1 {
          interval := 1;
        }
        pacing := Some(interval);
      }
    }

    /**
     * The statement insertBatch builds for the draws: the one-row INSERT when
     * BatchSize is 1, otherwise the batch INSERT built tuple by tuple.
     */
    method BuildStatement(draws: seq<RowDraw>) returns (stmt: Statement)
      requires |draws| == RowCount(config.batchSize) && ValidDraws(draws)
      ensures stmt == InsertStatement(config.batchSize, Rows(draws))
    {
      if config.batchSize == 1 {
        var row := RandomRow(draws[0]);
        stmt := Statement(SingleInsert, [Text(row.level), Text(row.service), Text(row.message), Text(row.metadata)]);
        SingleRow(draws, row);
      } else {
        stmt := BuildBatchInsert(Rows(draws));
      }
    }

    /**
     * insertBatch: a committed batch counts `BatchSize` successes under one
     * latency; a failed one records nothing here. `executed` is the statement,
     * once the transaction got as far as executing it.
     */
    method InsertBatch(draws: seq<RowDraw>, tx: TxResult) returns (executed: Option<Statement>, err: Option<GeneratorError>)
      requires collector.Valid()
      requires |draws| == RowCount(config.batchSize) && ValidDraws(draws)
      modifies collector
      ensures collector.Valid()
      ensures tx.FailedAt? && (tx.stage == Begin || tx.stage == SetIsolation) ==> executed == None
      ensures !(tx.FailedAt? && (tx.stage == Begin || tx.stage == SetIsolation)) ==>
        executed == Some(InsertStatement(config.batchSize, Rows(draws)))
      ensures err == (if tx.Committed? then None else Some(DatabaseError(tx.stage)))
      ensures tx.FailedAt? ==> unchanged(collector)
      ensures tx.Committed? ==>
        && collector.totalRequests == old(collector.totalRequests) + config.batchSize
        && collector.successRequests == old(collector.successRequests) + config.batchSize
        && collector.failedRequests == old(collector.failedRequests)
        && collector.latencies == AppendCapped(old(collector.latencies), [tx.latency])
    {
      if tx == FailedAt(Begin) {
        return None, Some(DatabaseError(Begin));
      }
      if tx == FailedAt(SetIsolation) {
        return None, Some(DatabaseError(SetIsolation));
      }
      var stmt := BuildStatement(draws);
      executed := Some(stmt);
      match tx {
        case FailedAt(stage) =>
          err := Some(DatabaseError(stage));
        case Committed(latency) =>
          AppendCappedSnoc(collector.latencies, [], latency);
          assert [] + [latency] == [latency];
          collector.RecordSuccess(latency, config.batchSize);
          err := None;
      }
    }

    /** One pass of the worker's loop: the batch's rows are counted once, as successes or as failures. */
    method Iterate(it: Iteration)
      requires collector.Valid()
      requires |it.draws| == RowCount(config.batchSize) && ValidDraws(it.draws)
      modifies collector
      ensures collector.Valid()
      ensures collector.totalRequests == old(collector.totalRequests) + config.batchSize
      ensures it.tx.Committed? ==>
        && collector.successRequests == old(collector.successRequests) + config.batchSize
        && collector.failedRequests == old(collector.failedRequests)
        && collector.latencies == AppendCapped(old(collector.latencies), [it.tx.latency])
      ensures it.tx.FailedAt? ==>
        && collector.successRequests == old(collector.successRequests)
        && collector.failedRequests == old(collector.failedRequests) + config.batchSize
        && collector.latencies == old(collector.latencies)
    {
      var _, err := InsertBatch(it.draws, it.tx);
      if err.Some? {
        collector.RecordFailure(config.batchSize);
      }
    }

    /**
     * One worker: its ticker period, then for each batch it completes before
     * the stop signal, `BatchSize` successes or `BatchSize` failures.
     */
    method Worker(iterations: seq<Iteration>) returns (pacing: Option<int>)
      requires Valid() && running && config.workers >= 1
      requires forall k :: 0 <= k < |iterations| ==>
        |iterations[k].draws| == RowCount(config.batchSize) && ValidDraws(iterations[k].draws)
      modifies collector
      ensures Valid()
      ensures pacing == WorkerPacing(config.tps, config.workers)
      ensures collector.totalRequests == old(collector.totalRequests) + |iterations| * config.batchSize
      ensures collector.successRequests == old(collector.successRequests) + Successes(iterations) * config.batchSize
      ensures collector.failedRequests == old(collector.failedRequests) + (|iterations| - Successes(iterations)) * config.batchSize
      ensures collector.latencies == AppendCapped(old(collector.latencies), SuccessLatencies(iterations))
    {
      pacing := TickerInterval();
      var i := 0;
      while i < |iterations|
        invariant 0 <= i <= |iterations|
        invariant Valid()
        invariant collector.successRequests == old(collector.successRequests) + SuccessRows(iterations[..i], config.batchSize)
        invariant collector.failedRequests == old(collector.failedRequests) + FailureRows(iterations[..i], config.batchSize)
        invariant collector.totalRequests == old(collector.totalRequests)
          + SuccessRows(iterations[..i], config.batchSize) + FailureRows(iterations[..i], config.batchSize)
        invariant collector.latencies == AppendCapped(old(collector.latencies), SuccessLatencies(iterations[..i]))
      {
        var it := iterations[i];
        IterationsStep(iterations, i);
        RowsStep(iterations, i, config.batchSize);
        if it.tx.Committed? {
          AppendCappedOneMore(old(collector.latencies), SuccessLatencies(iterations[..i]), it.tx.latency);
        }
        Iterate(it);
        i := i + 1;
      }
      assert iterations[..i] == iterations;
      RowsScale(iterations, config.batchSize);
    }
  }
}
