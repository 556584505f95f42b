# Load-test servers of db-study, modelled in Dafny

The repository's load-test directory has two small Go HTTP servers that put
load on a PostgreSQL `logs` table. The read server runs a load generator
that issues three kinds of SELECT according to a query mix. The write server
runs one that issues single-row or multi-row INSERTs. Each server has:

- a metrics collector: request counters and a latency buffer capped at
  100,000 samples, with a snapshot that reports percentiles from a sorted copy;
- a config and its in-place `Validate`;
- HTTP handlers that serve reads and writes directly and control the generator.

This project models that core. It covers:

- both collectors, as classes whose methods update the counters and the
  buffer in place, with a snapshot proved equal to the function `Summarize`;
- both configs, as classes with an imperative `Validate`, each proved
  against a validation function whose clamping, normalisation, error and
  idempotence properties are lemmas;
- both generators, as sequential state machines. The state is the running
  flag, the config, a stop-channel epoch with its closed flag, and the
  number of active workers. A worker is a loop over the iterations it
  completes, and the database is an oracle that names the failing stage or
  the commit latency;
- the query-type selector, the per-worker ticker period, the random row
  generator (its draws are parameters) and the batch INSERT builder;
- the read handlers, as SQL statement builders plus one recorded outcome per
  request;
- the write handlers, as the batch builder plus per-batch counting;
- the load-control handlers, as lifecycle guards in front of the generator
  and the collector.

Statement texts are checked against `SqlText.Placeholders`, which lists the
`$n` parameters a PostgreSQL statement mentions, in order. Every builder is
proved to produce `$1 … $k` for its `k` arguments.

## Model

| member | source | states |
|---|---|---|
| MetricsCore.Milliseconds | load-test/write-server/metrics/collector.go:80-94 | The millisecond value is the nanosecond latency truncated toward zero, as Duration.Milliseconds computes it, within one millisecond of the input on the correct side. |
| MetricsCore.MillisecondsMonotone | load-test/write-server/metrics/collector.go:86-94 | Converting a larger latency never gives a smaller millisecond value. |
| MetricsCore.AppendCapped | load-test/write-server/metrics/collector.go:48-50 | However many samples are offered, the buffer never holds more than 100,000. |
| MetricsCore.AppendCappedKeepsFirst | load-test/write-server/metrics/collector.go:48-50 | Offering samples one by one to a buffer under the cap keeps exactly the first samples that fit, in order, after the existing ones, and drops the rest. |
| MetricsCore.AppendCappedOneMore | load-test/read-server/metrics/collector.go:47-49 | Offering a sequence followed by one more sample is the same as offering the sequence and then that sample. |
| MetricsCore.SortAscending | load-test/write-server/metrics/collector.go:86-90 | The sorted copy is sorted, has the same length, and is a permutation of the buffer. |
| MetricsCore.PercentileIndex | load-test/write-server/metrics/collector.go:92-94 | The index `len*p/100` is inside the buffer for every percentile below 100. |
| MetricsCore.Percentile | load-test/write-server/metrics/collector.go:92-94 | A percentile of a sorted buffer lies between its first and last sample, in milliseconds. |
| MetricsCore.Summarize | load-test/write-server/metrics/collector.go:61-109 | The snapshot copies the three counters and the sample count. With no samples, sum and all percentiles are 0. |
| MetricsCore.SortedEnds | load-test/write-server/metrics/collector.go:86-90 | The first element of the sorted copy is the smallest sample and the last is the largest. |
| MetricsCore.PercentilesOrdered | load-test/write-server/metrics/collector.go:86-94 | With at least one sample, min ≤ P50 ≤ P95 ≤ P99 ≤ max, all in milliseconds. |
| MetricsCore.PercentilesAreSamples | load-test/read-server/metrics/collector.go:82-90 | Each reported percentile is the millisecond value of one of the stored samples. |
| MetricsCore.MaxOf | load-test/write-server/metrics/collector.go:86-94 | The largest sample is in the buffer and no sample exceeds it. |
| MetricsCore.MinOf | load-test/write-server/metrics/collector.go:86-94 | The smallest sample is in the buffer and no sample is below it. |
| WriteMetrics.Collector.constructor | load-test/write-server/metrics/collector.go:32-38 | A new collector has zero counters, an empty buffer and the 100,000 cap. |
| WriteMetrics.Collector.RecordSuccess | load-test/write-server/metrics/collector.go:40-51 | Total and success grow by `count` and failed is unchanged. The latency is appended only while the buffer is under the cap; otherwise the buffer is unchanged. total = success + failed is kept. |
| WriteMetrics.Collector.RecordFailure | load-test/write-server/metrics/collector.go:53-59 | Total and failed grow by `count`; success and the buffer are unchanged. |
| WriteMetrics.Collector.GetMetrics | load-test/write-server/metrics/collector.go:61-109 | Changes nothing and returns `Summarize` of the counters and buffer. The summing loop and the sort of a copy are proved against it. |
| WriteMetrics.Collector.Reset | load-test/write-server/metrics/collector.go:111-120 | All three counters are zero and the buffer is empty. |
| ReadMetrics.Collector.constructor | load-test/read-server/metrics/collector.go:32-38 | A new collector has zero counters, an empty buffer and the 100,000 cap. |
| ReadMetrics.Collector.RecordSuccess | load-test/read-server/metrics/collector.go:40-50 | Total and success grow by 1 and failed is unchanged. The latency is appended only under the cap. |
| ReadMetrics.Collector.RecordFailure | load-test/read-server/metrics/collector.go:52-58 | Total and failed grow by 1; success and the buffer are unchanged. |
| ReadMetrics.Collector.GetMetrics | load-test/read-server/metrics/collector.go:60-105 | Changes nothing and returns `Summarize` of the counters and buffer. |
| ReadMetrics.Collector.Reset | load-test/read-server/metrics/collector.go:107-116 | All three counters are zero and the buffer is empty. With an empty buffer `Summarize` then reports zero percentiles. |
| ReadConfig.Validated | load-test/read-server/load/config.go:36-66 | QPS ≥ 0, Workers ≥ 1 and Duration ≥ 0 afterwards whatever the outcome, and in-range fields are kept. The error is absent iff the mix sums to 100 with no negative weight. The sum error is reported before the sign error. On success an unknown isolation level becomes READ COMMITTED. On an error the isolation level is left as given. |
| ReadConfig.MixTotalAsWritten | load-test/read-server/load/config.go:48 | The total as Go adds it is an int64, and it is the exact total whenever the partial sum and the total fit in int64. |
| ReadConfig.ValidatedFixedPoints | load-test/read-server/load/config.go:36-66 | Validation succeeds and changes nothing exactly when the config is already in range. |
| ReadConfig.ValidatedIdempotent | load-test/read-server/load/config.go:36-66 | After a successful validation, validating again succeeds and changes nothing. |
| ReadConfig.DefaultSettingsValid | load-test/read-server/load/config.go:22-34 | The default config (1000 QPS, 10 workers, 60/30/10) passes validation unchanged. |
| ReadConfig.Config.Validate | load-test/read-server/load/config.go:36-66 | The in-place repairs, in the source's order, leave the config and the returned error equal to `Validated` of the old config. |
| ReadConfig.DefaultConfig | load-test/read-server/load/config.go:22-34 | Returns a new config holding the default settings. |
| WriteConfig.Validated | load-test/write-server/load/config.go:25-48 | TPS ≥ 0, BatchSize ≥ 1, Workers ≥ 1 and Duration ≥ 0 afterwards, with in-range fields kept. An accepted isolation level is kept and any other becomes READ COMMITTED. |
| WriteConfig.ValidatedFixedPoints | load-test/write-server/load/config.go:25-48 | Validation changes the config iff some field is out of range. |
| WriteConfig.ValidatedIdempotent | load-test/write-server/load/config.go:25-48 | Validating twice is validating once. |
| WriteConfig.DefaultSettingsValid | load-test/write-server/load/config.go:15-23 | The default config is a fixed point of validation. |
| WriteConfig.Config.Validate | load-test/write-server/load/config.go:25-48 | Always returns no error and leaves the config equal to `Validated` of the old one. |
| WriteConfig.DefaultConfig | load-test/write-server/load/config.go:15-23 | Returns a new config holding the default settings. |
| Pacing.PerWorkerRate | load-test/read-server/load/generator.go:71-75 | The per-worker rate is the floor of rate/workers, and 1 when that floor is 0. It is always between 1 and the rate. |
| Pacing.TickInterval | load-test/read-server/load/generator.go:76-77 | The ticker period is positive and at most one second. It agrees with `time.Second / perWorker` whenever that is positive. |
| Pacing.TickIntervalMeetsRate | load-test/write-server/load/generator.go:74-84 | Up to 10^9 per second, period × rate ≤ 1 s < (period + 1) × rate. |
| Pacing.WorkerPacing | load-test/write-server/load/generator.go:74-84 | No ticker iff the rate is 0 or negative; otherwise a period in [1 ns, 1 s]. |
| Pacing.TickIntervalAsWrittenVanishes | load-test/read-server/load/generator.go:76-77 | For QPS 2,000,000,000 and 1 worker the period as written is 0. |
| ReadGenerator.SelectionMatchesMix | load-test/read-server/load/generator.go:104-114 | For a valid mix, the draws 0..99 select each query type exactly as often as its weight. |
| ReadGenerator.CountSelectedPrefix | load-test/read-server/load/generator.go:104-114 | Among the first n draws, "simple" takes the first Simple of them, "filter" the next Filter, and "aggregate" the rest. |
| ReadGenerator.SelectQueryType | load-test/read-server/load/generator.go:104-114 | The selected type is always one of the three known ones. With a valid mix and a draw in [0, 100), a type of weight 0 is never selected. |
| ReadGenerator.WrappedMixSelectsOnlySimple | load-test/read-server/load/config.go:48 | The mix (2^63-1, 2^63-1, 102) passes the check as written, because the int64 total wraps to 100, but it is not a valid mix, and all 100 draws select "simple". |
| ReadGenerator.QueryError | load-test/read-server/load/generator.go:116-127 | A query succeeds iff its type is known and the transaction commits. An unknown type gives the unknown-type error, and a failed stage gives that stage's error. |
| ReadGenerator.Generator.constructor | load-test/read-server/load/generator.go:22-29 | A new generator is stopped, with an open stop channel and no workers. |
| ReadGenerator.Generator.IsRunning | load-test/read-server/load/generator.go:312-314 | Reports the running flag. Under the generator's invariant a stopped generator has no active worker, and a running one has `Workers` of them. |
| ReadGenerator.Generator.GetConfig | load-test/read-server/load/generator.go:308-310 | Reports the config. Under the invariant a running generator has as many active workers as it names. |
| ReadGenerator.Generator.Start | load-test/read-server/load/generator.go:31-53 | While running: an error and nothing changes. Otherwise: running, a new open stop channel, a reset collector, `Workers` active workers, and the config unchanged. |
| ReadGenerator.Generator.Stop | load-test/read-server/load/generator.go:55-63 | A no-op when stopped. Otherwise: not running, the stop channel closed, no active workers. |
| ReadGenerator.Generator.UpdateConfig | load-test/read-server/load/generator.go:295-306 | Rejected while running, with the config kept. Otherwise the argument is validated in place, and the config is replaced only when validation succeeds. |
| ReadGenerator.Generator.RunQuery | load-test/read-server/load/generator.go:129-176 | A success is recorded only after the commit, with its latency. A failure at any stage returns that stage's error and records nothing. |
| ReadGenerator.Generator.ExecuteQuery | load-test/read-server/load/generator.go:116-127 | Returns `QueryError`, which is the unknown-type error for an unknown type. The collector changes only on success. |
| ReadGenerator.Generator.TickerInterval | load-test/read-server/load/generator.go:71-80 | The worker's ticker period is `WorkerPacing(QPS, Workers)`, the corrected period: at least 1 ns, where the source's period can be 0 (see Findings). |
| ReadGenerator.Generator.Iterate | load-test/read-server/load/generator.go:95-99 | One iteration records exactly one outcome: a success with its latency after a commit, otherwise a failure. |
| ReadGenerator.Generator.Worker | load-test/read-server/load/generator.go:65-102 | With a ticker of the corrected period, over a run of iterations, total grows by their number, success by the number of commits and failed by the rest. The buffer receives the commit latencies, capped. |
| WriteGenerator.Rows | load-test/write-server/load/generator.go:136-149 | One generated row per draw, in draw order. |
| WriteGenerator.InsertStatement | load-test/write-server/load/generator.go:122-152 | It has the rows' 4 arguments each. For a full batch, BatchSize 1 and larger sizes alike give the n-tuple batch INSERT of those arguments, whose text mentions `$1 … $4n` in order. |
| WriteGenerator.SingleRow | load-test/write-server/load/generator.go:122-130 | The one-row INSERT takes the row's four fields in column order. |
| WriteGenerator.Generator.constructor | load-test/write-server/load/generator.go:22-29 | A new generator is stopped, with an open stop channel and no workers. |
| WriteGenerator.Generator.IsRunning | load-test/write-server/load/generator.go:218-220 | Reports the running flag. Under the generator's invariant a stopped generator has no active worker, and a running one has `Workers` of them. |
| WriteGenerator.Generator.GetConfig | load-test/write-server/load/generator.go:214-216 | Reports the config. Under the invariant a running generator has as many active workers as it names. |
| WriteGenerator.Generator.Start | load-test/write-server/load/generator.go:31-55 | The same guard and effects as the read generator's Start. |
| WriteGenerator.Generator.Stop | load-test/write-server/load/generator.go:57-65 | A no-op when stopped; otherwise stopped with the channel closed and no workers. |
| WriteGenerator.Generator.UpdateConfig | load-test/write-server/load/generator.go:201-212 | Rejected while running. Otherwise always accepted, installing the validated config. |
| WriteGenerator.Generator.TickerInterval | load-test/write-server/load/generator.go:74-84 | The worker's ticker period is `WorkerPacing(TPS, Workers)`, the corrected period: at least 1 ns, where the source's period can be 0 (see Findings). |
| WriteGenerator.Generator.BuildStatement | load-test/write-server/load/generator.go:122-152 | The statement built from the draws is `InsertStatement` of the generated rows. |
| WriteGenerator.Generator.InsertBatch | load-test/write-server/load/generator.go:108-166 | No statement runs when BEGIN or SET TRANSACTION fails. A success, after the commit, records BatchSize successes and the latency. A failure returns its stage and records nothing. |
| WriteGenerator.Generator.Iterate | load-test/write-server/load/generator.go:100-103 | One iteration records BatchSize outcomes: BatchSize successes after a commit, otherwise BatchSize failures. |
| WriteGenerator.Generator.Worker | load-test/write-server/load/generator.go:67-106 | With a ticker of the corrected period, over a run of iterations, each counter grows by BatchSize times the matching number of iterations, and the buffer receives the commit latencies, capped. |
| WriteGenerator.RowsScale | load-test/write-server/load/generator.go:100-103 | Counting BatchSize rows per committed or failed iteration gives BatchSize times the number of commits, BatchSize times the number of failures, and BatchSize times the number of iterations in all. |
| BatchInsert.BuildBatchInsert | load-test/write-server/handler/write.go:91-102 | The loop builds `BatchQuery(n)` and the rows' fields. It produces 4n arguments, and the text mentions `$1 … $4n` in order. |
| BatchInsert.RowArgsAt | load-test/write-server/handler/write.go:101 | Arguments 4i+1 to 4i+4 are the level, service, message and metadata of row i. |
| BatchInsert.PlaceholdersOfTuple | load-test/write-server/load/generator.go:140-141 | The tuple of row i, `FormatTuple(4i)`, mentions exactly `$(4i+1) … $(4i+4)`, in order. |
| BatchInsert.BatchQuery | load-test/write-server/load/generator.go:133-149 | An n-row batch mentions exactly `$1 … $4n`, in order. |
| BatchInsert.SingleInsertIsBatchOfOne | load-test/write-server/load/generator.go:122-130 | The hard-coded one-row INSERT is the one-row batch INSERT. |
| BatchInsert.BatchStatementNumbering | load-test/write-server/handler/write.go:91-104 | A batch of n rows has 4n arguments, and its text numbers exactly that many parameters. |
| LogData.ParseMetadataOfMetadata | load-test/write-server/load/generator.go:193-199 | The metadata JSON parses back to the request id, user id and duration it was built from. |
| LogData.Metadata | load-test/write-server/load/generator.go:193-199 | The metadata text is a JSON object: it opens with '{' and closes with '}'. |
| LogData.MetadataInjective | load-test/write-server/load/generator.go:193-199 | Different draws give different metadata texts. |
| LogData.RandomRowFields | load-test/write-server/load/generator.go:169-199 | The metadata of a generated row encodes its request id below 1,000,000, its user id below 10,000 and its duration below 1,000. |
| LogData.RandomRow | load-test/write-server/load/generator.go:169-191 | The level, service and message of a generated row are members of their fixed lists. |
| Decimal.Atoi | load-test/read-server/handler/read.go:46 | Returns a value iff the text is decimal text (`IsDecimalText`: one optional '+' or '-', then at least one digit, nothing else) and the value it denotes fits in int64. That value is `TextValue`: the digits scanned from the left, n·10 + d at each step, negated after a '-'. |
| Decimal.AtoiOfNatToString | load-test/read-server/handler/read.go:46 | Every non-negative int64 written in decimal is read back by Atoi. |
| Decimal.AtoiOfSigned | load-test/read-server/handler/read.go:46 | A '-' in front of a decimal number is read as its negation, down to -2^63, and a '+' is read as no sign. |
| Decimal.ScanDigitsValue | load-test/read-server/handler/read.go:46 | Scanning digits from the left gives the same number as reading them from the right, which is how `%d` text is read back. |
| Decimal.NatToString | load-test/write-server/load/generator.go:141 | `%d` of a non-negative number is at least one digit long and has no leading zero. |
| Decimal.WrapInt64 | load-test/read-server/load/config.go:48 | Go's 64-bit `int` addition: the result is in the int64 range, congruent to the exact value modulo 2^64, and equal to it when the exact value is in range. |
| Decimal.NatToStringInjective | load-test/write-server/load/generator.go:141 | Different numbers print differently under `%d`. |
| SqlText.PlaceholdersAppend | load-test/read-server/handler/read.go:115-127 | The parameters of a concatenation are those of its parts, provided the second part does not start with a digit. |
| SqlText.PlaceholdersOfParam | load-test/write-server/load/generator.go:141 | `$n` written with `%d` mentions exactly parameter n. |
| ReadHandler.ParseLimit | load-test/read-server/handler/read.go:43-49 | The limit is always positive. It is the parsed value when Atoi succeeds with a positive value, and 100 when Atoi fails or gives 0 or less. |
| ReadHandler.ParseLimitOfDecimal | load-test/read-server/handler/read.go:100-105 | A positive decimal parameter is used as the limit. |
| ReadHandler.ParseLimitFallsBack | load-test/read-server/handler/read.go:100-105 | For every parameter: text that is not decimal, or that denotes a value of 0 or less or beyond int64, gives 100; any other text gives the value it denotes. |
| ReadHandler.ParseLimitExamples | load-test/read-server/handler/read.go:100-105 | For the example parameters "", "0", "-5" and "ten" the limit is 100, and "+25" gives 25. |
| ReadHandler.LogsQueryNumbering | load-test/read-server/handler/read.go:51-59 | The GetLogs query mentions exactly `$1`, the limit. |
| ReadHandler.FilterNumbering | load-test/read-server/handler/read.go:115-125 | A filter clause appears iff its value is non-empty, and then it mentions exactly the next parameter. |
| ReadHandler.SearchStatementNumbering | load-test/read-server/handler/read.go:107-128 | The search has 1 + (level ≠ "") + (service ≠ "") arguments. Its text mentions `$1 … $k` for exactly that many, and the last argument, the one LIMIT takes, is the limit. |
| ReadHandler.ReadOutcome | load-test/read-server/handler/read.go:58-85 | The read succeeds iff the query ran, every row scanned, and iteration did not fail. Each failure kind maps to its own cause. On success the rows are the scanned rows, in order. |
| ReadHandler.ReadRows | load-test/read-server/handler/read.go:67-76 | The row loop reports success iff every row scanned, and then returns the rows in order. |
| ReadHandler.Handler.Run | load-test/read-server/handler/read.go:58-85 | Exactly one outcome is recorded per request: a success with the latency when `ReadOutcome` succeeds, otherwise a failure. |
| ReadHandler.Handler.GetLogs | load-test/read-server/handler/read.go:42-92 | Runs the `$1`-limit query with the parsed limit. The response succeeds iff `ReadOutcome` does, and its count is the number of rows collected. A success adds one success and its latency (capped), a failure adds one failure and leaves the buffer alone; total grows by one either way. |
| ReadHandler.Handler.BuildSearch | load-test/read-server/handler/read.go:107-128 | The step-by-step builder produces `SearchStatement`, whose argument count and parameter numbering agree. |
| ReadHandler.Handler.SearchLogs | load-test/read-server/handler/read.go:95-164 | Builds the search with the parsed limit and reports the collected rows with their count. A success adds one success and its latency (capped), a failure adds one failure and leaves the buffer alone; total grows by one either way. |
| ReadHandler.Handler.GetStats | load-test/read-server/handler/read.go:167-213 | Returns `ReadOutcome` of the aggregate query. A success adds one success and its latency (capped), a failure adds one failure and leaves the buffer alone; total grows by one either way. |
| WriteHandler.Handler.InsertLog | load-test/write-server/handler/write.go:36-65 | An undecodable body is rejected with nothing recorded. Otherwise the one-row INSERT runs with the body's fields, and exactly one outcome with count 1 is recorded. |
| WriteHandler.Handler.InsertBatchLogs | load-test/write-server/handler/write.go:68-125 | A bad body or an empty array is rejected before any counter changes. A begin, exec or commit failure records n failures. Success records n successes and reports n inserted. The executed statement is the n-row batch, with 4n arguments numbered in order. |
| LoadHandler.Handler.Start | load-test/read-server/handler/load.go:23-39 | Rejected while running, leaving generator and collector untouched. Otherwise the generator starts and cannot fail. |
| LoadHandler.Handler.Stop | load-test/read-server/handler/load.go:42-55 | Rejected when not running. Afterwards the generator is never running, so a second Stop in a row is rejected. |
| LoadHandler.Handler.UpdateConfig | load-test/read-server/handler/load.go:69-96 | Rejected while running, on an undecodable body, and on a validation error, with the generator's config kept. Otherwise the generator accepts the validated config. |
| LoadHandler.Handler.ResetMetrics | load-test/read-server/handler/load.go:117-130 | Rejected while running, with the collector untouched. Otherwise the collector is emptied. |
| LoadHandler.Handler.GetStatus | load-test/read-server/handler/load.go:99-106 | Changes nothing. Reports the running flag, the config and `Summarize` of the collector. |
| LoadHandler.Handler.GetConfig | load-test/read-server/handler/load.go:58-66 | Reports the generator's config and running flag. Reported as running, the generator has the config's number of active workers; reported as stopped, none. |
| LoadHandler.Handler.GetMetrics | load-test/read-server/handler/load.go:109-114 | Changes nothing and reports `Summarize` of the collector. |

## Left out

- Database work is not modelled. Transactions, Query, Exec, Scan, Commit, Rollback and SQL semantics are outcome oracles: the failing stage, or a commit latency. The fixed texts of the generators' SELECTs and the `SET TRANSACTION ISOLATION LEVEL` statement are not modelled as strings.
- Goroutines, the WaitGroup, channels, `atomic.Bool` and the collector's mutex are not modelled. Each lifecycle step is one sequential, atomic step. The stop channel is an epoch with a closed flag, and the WaitGroup is a count of active workers. The non-atomic check-then-set in Start is a concurrency issue outside the model.
- The auto-stop goroutine (`time.Sleep(Duration)` then Stop) is not modelled; Duration is only validated.
- A worker's `for/select` loop is not modelled as a loop that runs until stopped. It is the finite sequence of iterations the worker completes before it sees the stop signal. Ticker waits are not modelled; only the period is computed.
- `math/rand`: every random choice is a parameter.
- Floating point and clocks: TPS/QPS and elapsed time are not modelled. The average latency is carried as its millisecond sum and sample count. `time.Now`/`time.Since` become the oracle's latency.
- HTTP is not modelled. JSON decoding becomes an optional body; encoding, status codes, headers, error message texts and routing are left out.
- read-server/main.go and the lost-update demo under postgresql/examples are not part of this model. They are start-up and console demonstrations.
- The generator holds a pointer to a Config that the caller may still mutate afterwards. The model copies the Config's value into the generator, so later aliasing through that pointer is not captured.
- The int64 overflow of the counters and of the latency sum is not modelled; integers are unbounded.
- ReadHandler.Handler.GetLogs: the allocation `make([]LogEntry, 0, limit)` after a successful query is not modelled. For a limit beyond Go's allocator bound (about 2.9·10^12 entries of 96 bytes) it panics, net/http recovers, and the request records no outcome, where the model records one.
- ReadHandler.Handler.SearchLogs: the same allocation panic for a limit beyond the allocator bound is not modelled; there, too, the source records no outcome and the model records one.
- ReadConfig.Validated: weight sums beyond int64 are taken as unbounded, so the model rejects mixes such as (2^63-1, 2^63-1, 102) that Go accepts through wrap-around. The wrapped check is `ReadConfig.MixAcceptedAsWritten`, shown under Findings.
- ReadConfig.Config.Validate: computes the same unbounded total as `Validated`, the corrected check, not Go's wrapped one.
- ReadGenerator.SelectQueryType: the cumulative weight `Simple + Filter` is unbounded, where Go's can wrap; for a valid mix both agree.
- ReadGenerator.Generator.TickerInterval: uses the corrected `Pacing.TickInterval`, floored at 1 ns; the source's zero period and the panic of `time.NewTicker` are not modelled (see Findings).
- ReadGenerator.Generator.Worker: runs with the corrected ticker period; the panic the source's zero period causes is not modelled.
- WriteGenerator.Generator.TickerInterval: uses the corrected `Pacing.TickInterval`, floored at 1 ns; the source's zero period and the panic of `time.NewTicker` are not modelled (see Findings).
- WriteGenerator.Generator.Worker: runs with the corrected ticker period; the panic the source's zero period causes is not modelled.
- The read handlers' row scans are not modelled as reads of database columns. They are a sequence of scan outcomes.

## Findings

| source | as written | input that shows it | evidently intended | confidence | as-written member | corrected member |
|---|---|---|---|---|---|---|
| load-test/read-server/load/generator.go:76-77 (and load-test/write-server/load/generator.go:80-81) | `interval := time.Second / time.Duration(qpsPerWorker)` is 0 when the per-worker rate exceeds 10^9, and `time.NewTicker` panics on a non-positive period | QPS (or TPS) 2000000000 with Workers 1: the per-worker rate is 2·10^9, so the period is 0 ns | a positive ticker period for every accepted config (the config validator accepts any non-negative rate) | medium, not executed | Pacing.TickIntervalAsWrittenVanishes | Pacing.TickInterval |
| load-test/read-server/load/config.go:48 | `total := c.QueryMix.Simple + c.QueryMix.Filter + c.QueryMix.Aggregate` adds 64-bit ints, which wrap around | the mix (9223372036854775807, 9223372036854775807, 102): the total wraps to 100 and no weight is negative, so the mix is accepted, and every draw selects "simple" | accept only weights that are percentages summing to 100 | medium, not executed | ReadGenerator.WrappedMixSelectsOnlySimple | ReadConfig.Validated |
