/**
 * The read server's load-control endpoints, without HTTP: guards on whether
 * the generator is running decide which requests are rejected; the rest start
 * or stop the generator, replace its config or reset the shared collector.
 */
module LoadHandler {
  import opened Wrappers
  import opened MetricsCore
  import opened ReadConfig
  import opened Pacing
  import ReadGenerator
  import ReadMetrics

  datatype Rejection =
    | AlreadyRunning
    | NotRunning
    | UpdateWhileRunning
    | InvalidBody
    | InvalidConfig(cause: ConfigError)
    | ResetWhileRunning

  datatype Reply = Started | Stopped | Updated(config: Settings) | MetricsReset | Rejected(reason: Rejection)

  /** GET /load/status: running flag, config and a metrics snapshot. */
  datatype Status = Status(running: bool, config: Settings, metrics: Metrics)

  class Handler {
    const generator: ReadGenerator.Generator
    const collector: ReadMetrics.Collector

    /** The handler reports and resets the same collector the generator records into. */
    ghost predicate Valid()
      reads this, generator, collector
    {
      generator.collector == collector && generator.Valid()
    }

    constructor (generator: ReadGenerator.Generator, collector: ReadMetrics.Collector)
      requires generator.collector == collector && generator.Valid()
      ensures Valid() && this.generator == generator && this.collector == collector
    {
      this.generator := generator;
      this.collector := collector;
    }

    /** POST /load/start: rejected while running; otherwise the generator starts. */
    method Start() returns (reply: Reply)
      requires Valid()
      modifies generator, collector
      ensures Valid()
      ensures old(generator.running) ==> reply == Rejected(AlreadyRunning) && unchanged(generator) && unchanged(collector)
      ensures !old(generator.running) ==>
        && reply == Started && generator.running && generator.config == old(generator.config)
        && generator.stopEpoch == old(generator.stopEpoch) + 1 && !generator.stopClosed
        && generator.activeWorkers == WorkerCount(generator.config.workers)
        && collector.totalRequests == 0 && collector.successRequests == 0
        && collector.failedRequests == 0 && collector.latencies == []
    {
      if generator.IsRunning() {
        return Rejected(AlreadyRunning);
      }
      var err := generator.Start();
      assert err.None?;
      return Started;
    }

    /** POST /load/stop: rejected when not running, so a second Stop in a row is rejected. */
    method Stop() returns (reply: Reply)
      requires Valid()
      modifies generator
      ensures Valid()
      ensures !generator.running
      ensures !old(generator.running) ==> reply == Rejected(NotRunning) && unchanged(generator)
      ensures old(generator.running) ==>
        && reply == Stopped && generator.stopClosed && generator.activeWorkers == 0
        && generator.stopEpoch == old(generator.stopEpoch) && generator.config == old(generator.config)
    {
      if !generator.IsRunning() {
        return Rejected(NotRunning);
      }
      generator.Stop();
      return Stopped;
    }

    /**
     * POST /load/config: rejected while running, on a body that does not
     * decode, or when Validate fails; otherwise the validated config replaces
     * the generator's.
     */
    method UpdateConfig(body: Option<Settings>) returns (reply: Reply)
      requires Valid()
      modifies generator
      ensures Valid()
      ensures generator.running == old(generator.running) && generator.stopEpoch == old(generator.stopEpoch)
      ensures old(generator.running) ==> reply == Rejected(UpdateWhileRunning) && generator.config == old(generator.config)
      ensures !old(generator.running) && body.None? ==> reply == Rejected(InvalidBody) && generator.config == old(generator.config)
      ensures !old(generator.running) && body.Some? ==>
        var v := Validated(body.value);
        && (v.error.Some? ==> reply == Rejected(InvalidConfig(v.error.value)) && generator.config == old(generator.config))
        && (v.error.None? ==> reply == Updated(v.settings) && generator.config == v.settings)
    {
      if generator.IsRunning() {
        return Rejected(UpdateWhileRunning);
      }
      if body.None? {
        return Rejected(InvalidBody);
      }
      var config := new Config(body.value);
      var e := config.Validate();
      if e.Some? {
        return Rejected(InvalidConfig(e.value));
      }
      ValidatedIdempotent(body.value);
      var err := generator.UpdateConfig(config);
      assert err.None?;
      return Updated(config.Value());
    }

    /** POST /metrics/reset: rejected while running; otherwise the collector is emptied. */
    method ResetMetrics() returns (reply: Reply)
      requires Valid()
      modifies collector
      ensures Valid()
      ensures old(generator.running) ==> reply == Rejected(ResetWhileRunning) && unchanged(collector)
      ensures !old(generator.running) ==>
        && reply == MetricsReset
        && collector.totalRequests == 0 && collector.successRequests == 0
        && collector.failedRequests == 0 && collector.latencies == []
    {
      if generator.IsRunning() {
        return Rejected(ResetWhileRunning);
      }
      collector.Reset();
      return MetricsReset;
    }

    /**
     * GET /load/config: the generator's config and whether it is running; the
     * config reported as running is the one whose workers are active.
     */
    function GetConfig(): (r: (Settings, bool))
      reads this, generator, collector, generator.collector
      ensures r == (generator.config, generator.running)
      ensures Valid() && r.1 ==> generator.activeWorkers == WorkerCount(r.0.workers)
      ensures Valid() && !r.1 ==> generator.activeWorkers == 0
    {
      (generator.GetConfig(), generator.IsRunning())
    }

    /** GET /load/status: reads the generator and the collector and changes neither. */
    method GetStatus() returns (status: Status)
      requires Valid()
      ensures status == Status(generator.running, generator.config,
        Summarize(collector.totalRequests, collector.successRequests, collector.failedRequests, collector.latencies))
    {
      var m := collector.GetMetrics();
      status := Status(generator.IsRunning(), generator.GetConfig(), m);
    }

    /** GET /metrics: the collector's snapshot. */
    method GetMetrics() returns (m: Metrics)
      requires Valid()
      ensures m == Summarize(collector.totalRequests, collector.successRequests, collector.failedRequests, collector.latencies)
    {
      m := collector.GetMetrics();
    }
  }
}
