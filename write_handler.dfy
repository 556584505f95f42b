/**
 * The write server's HTTP handlers for single and batch inserts, without
 * HTTP: each takes the decoded body (None when it does not decode) and what
 * the database did, and gives back the statement it executed and the
 * response. A single insert counts one row; a batch counts all its rows at
 * once, as successes or as failures.
 */
module WriteHandler {
  import opened Wrappers
  import opened SqlText
  import opened BatchInsert
  import opened MetricsCore
  import WriteMetrics

  /** What db.Exec did with the single INSERT, and the latency measured around it. */
  datatype ExecResult = ExecResult(failed: bool, latency: int)

  /** The stages of a batch transaction: BEGIN, the INSERT, COMMIT. */
  datatype Stage = Begin | Execute | Commit

  datatype TxResult = FailedAt(stage: Stage) | Committed(latency: int)

  datatype WriteError = InvalidBody | EmptyLogs | DatabaseError(stage: Stage)

  class Handler {
    const collector: WriteMetrics.Collector

    constructor (collector: WriteMetrics.Collector)
      ensures this.collector == collector
    {
      this.collector := collector;
    }

    /** POST /logs: one row, counted once whatever the outcome. */
    method InsertLog(body: Option<LogFields>, result: ExecResult) returns (executed: Option<Statement>, err: Option<WriteError>)
      requires collector.Valid()
      modifies collector
      ensures collector.Valid()
      ensures body.None? ==> executed == None && err == Some(InvalidBody) && unchanged(collector)
      ensures body.Some? ==> && executed == Some(Statement(SingleInsert, Fields(body.value)))
                             && collector.totalRequests == old(collector.totalRequests) + 1
      ensures body.Some? && result.failed ==>
        && err == Some(DatabaseError(Execute))
        && collector.failedRequests == old(collector.failedRequests) + 1
        && collector.successRequests == old(collector.successRequests)
        && collector.latencies == old(collector.latencies)
      ensures body.Some? && !result.failed ==>
        && err == None
        && collector.successRequests == old(collector.successRequests) + 1
        && collector.failedRequests == old(collector.failedRequests)
        && collector.latencies == AppendCapped(old(collector.latencies), [result.latency])
    {
      if body.None? {
        return None, Some(InvalidBody);
      }
      var log := body.value;
      executed := Some(Statement(SingleInsert, [Text(log.level), Text(log.service), Text(log.message), Text(log.metadata)]));
      if result.failed {
        collector.RecordFailure(1);
        return executed, Some(DatabaseError(Execute));
      }
      AppendCappedSnoc(collector.latencies, [], result.latency);
      assert [] + [result.latency] == [result.latency];
      collector.RecordSuccess(result.latency, 1);
      err := None;
    }

    /**
     * POST /logs/batch: rejects an empty batch before touching the database or
     * the counters; otherwise every outcome counts all n rows, and a success
     * reports n rows inserted.
     */
    method InsertBatchLogs(body: Option<seq<LogFields>>, tx: TxResult) returns (executed: Option<Statement>, resp: Result<nat, WriteError>)
      requires collector.Valid()
      modifies collector
      ensures collector.Valid()
      ensures body.None? ==> executed == None && resp == Failure(InvalidBody) && unchanged(collector)
      ensures body.Some? && body.value == [] ==> executed == None && resp == Failure(EmptyLogs) && unchanged(collector)
      ensures body.Some? && body.value != [] ==>
        var n := |body.value|;
        && collector.totalRequests == old(collector.totalRequests) + n
        && (tx == FailedAt(Begin) ==> executed == None)
        && (tx != FailedAt(Begin) ==> executed == Some(Statement(BatchQuery(n), RowArgs(body.value))))
        && (executed.Some? ==> |executed.value.args| == 4 * n
                               && Placeholders(executed.value.sql) == Numbered(|executed.value.args|))
        && (tx.FailedAt? ==>
             && resp == Failure(DatabaseError(tx.stage))
             && collector.failedRequests == old(collector.failedRequests) + n
             && collector.successRequests == old(collector.successRequests)
             && collector.latencies == old(collector.latencies))
        && (tx.Committed? ==>
             && resp == Success(n)
             && collector.successRequests == old(collector.successRequests) + n
             && collector.failedRequests == old(collector.failedRequests)
             && collector.latencies == AppendCapped(old(collector.latencies), [tx.latency]))
    {
      if body.None? {
        return None, Failure(InvalidBody);
      }
      var logs := body.value;
      if |logs| == 0 {
        return None, Failure(EmptyLogs);
      }
      if tx == FailedAt(Begin) {
        collector.RecordFailure(|logs|);
        return None, Failure(DatabaseError(Begin));
      }
      var stmt := BuildBatchInsert(logs);
      executed := Some(stmt);
      match tx {
        case FailedAt(stage) =>
          collector.RecordFailure(|logs|);
          resp := Failure(DatabaseError(stage));
        case Committed(latency) =>
          AppendCappedSnoc(collector.latencies, [], latency);
          assert [] + [latency] == [latency];
          collector.RecordSuccess(latency, |logs|);
          resp := Success(|logs|);
      }
    }
  }

}
