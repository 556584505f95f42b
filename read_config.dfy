/**
 * The read load generator's settings and their validation. Validate repairs
 * the scalar fields in place, rejects a query mix that does not sum to 100 or
 * has a negative weight, and only then normalises the isolation level.
 */
module ReadConfig {
  import opened Wrappers
  import Decimal

  const ReadCommitted: string := "READ COMMITTED"
  const RepeatableRead: string := "REPEATABLE READ"
  const Serializable: string := "SERIALIZABLE"

  /** The isolation levels Validate keeps as they are. */
  predicate IsAcceptedIsolation(level: string) {
    level == ReadCommitted || level == RepeatableRead || level == Serializable
  }

  /** Percentages of simple, filter and aggregate queries. */
  datatype QueryMix = QueryMix(simple: int, filter: int, aggregate: int)

  function MixTotal(mix: QueryMix): int {
    mix.simple + mix.filter + mix.aggregate
  }

  /** A query mix the selector can use: percentages that are non-negative and sum to 100. */
  predicate ValidMix(mix: QueryMix) {
    MixTotal(mix) == 100 && mix.simple >= 0 && mix.filter >= 0 && mix.aggregate >= 0
  }

  /** The total as Go computes it: two additions of 64-bit ints, each wrapping around. */
  function MixTotalAsWritten(mix: QueryMix): (t: int)
    ensures Decimal.Int64Min <= t <= Decimal.Int64Max
    ensures (&& Decimal.Int64Min <= mix.simple + mix.filter <= Decimal.Int64Max
             && Decimal.Int64Min <= MixTotal(mix) <= Decimal.Int64Max) ==> t == MixTotal(mix)
  {
    Decimal.WrapInt64(Decimal.WrapInt64(mix.simple + mix.filter) + mix.aggregate)
  }

  /** The mixes Validate accepts as written: a wrapped total of 100 and no negative weight. */
  predicate MixAcceptedAsWritten(mix: QueryMix) {
    MixTotalAsWritten(mix) == 100 && mix.simple >= 0 && mix.filter >= 0 && mix.aggregate >= 0
  }

  /** The fields of a Config; qps 0 and duration 0 mean unlimited, duration is in nanoseconds. */
  datatype Settings = Settings(qps: int, workers: int, duration: int, queryMix: QueryMix, isolationLevel: string)

  /** The two errors Validate can return, checked in this order. */
  datatype ConfigError = MixSumNot100(total: int) | MixNegative

  /** DefaultConfig: 1000 QPS over 10 workers, no time limit, a 60/30/10 mix, READ COMMITTED. */
  function DefaultSettings(): Settings {
    Settings(1000, 10, 0, QueryMix(60, 30, 10), ReadCommitted)
  }

  /** In-range settings: what Validate guarantees on success. */
  predicate InRange(s: Settings) {
    s.qps >= 0 && s.workers >= 1 && s.duration >= 0 && ValidMix(s.queryMix) && IsAcceptedIsolation(s.isolationLevel)
  }

  /** The settings Validate leaves behind and the error it returns. */
  datatype Validation = Validation(settings: Settings, error: Option<ConfigError>)

  function Validated(s: Settings): (v: Validation)
    ensures v.settings.qps >= 0 && v.settings.workers >= 1 && v.settings.duration >= 0
    ensures s.qps >= 0 ==> v.settings.qps == s.qps
    ensures s.workers >= 1 ==> v.settings.workers == s.workers
    ensures s.duration >= 0 ==> v.settings.duration == s.duration
    ensures v.settings.queryMix == s.queryMix
    ensures v.error.None? <==> ValidMix(s.queryMix)
    ensures v.error.Some? && MixTotal(s.queryMix) != 100 ==> v.error == Some(MixSumNot100(MixTotal(s.queryMix)))
    ensures v.error.Some? && MixTotal(s.queryMix) == 100 ==> v.error == Some(MixNegative)
    ensures v.error.None? ==> InRange(v.settings)
    ensures v.error.None? && IsAcceptedIsolation(s.isolationLevel) ==> v.settings.isolationLevel == s.isolationLevel
    ensures v.error.None? && !IsAcceptedIsolation(s.isolationLevel) ==> v.settings.isolationLevel == ReadCommitted
    ensures v.error.Some? ==> v.settings.isolationLevel == s.isolationLevel
  {
    var clamped := s.(qps := if s.qps < 0 then 0 else s.qps,
                      workers := if s.workers < 1 then 1 else s.workers,
                      duration := if s.duration < 0 then 0 else s.duration);
    var mix := s.queryMix;
    if MixTotal(mix) != 100 then Validation(clamped, Some(MixSumNot100(MixTotal(mix))))
    else if mix.simple < 0 || mix.filter < 0 || mix.aggregate < 0 then Validation(clamped, Some(MixNegative))
    else if IsAcceptedIsolation(s.isolationLevel) then Validation(clamped, None)
    else Validation(clamped.(isolationLevel := ReadCommitted), None)
  }

  /** In-range settings are exactly those that Validate accepts and leaves unchanged. */
  lemma ValidatedFixedPoints(s: Settings)
    ensures Validated(s) == Validation(s, None) <==> InRange(s)
  {
  }

  /** A successful Validate is idempotent: validating its result succeeds and changes nothing. */
  lemma ValidatedIdempotent(s: Settings)
    requires Validated(s).error.None?
    ensures Validated(Validated(s).settings) == Validated(s)
  {
    ValidatedFixedPoints(Validated(s).settings);
  }

  /** The defaults pass Validate unchanged. */
  lemma DefaultSettingsValid()
    ensures Validated(DefaultSettings()) == Validation(DefaultSettings(), None)
  {
    ValidatedFixedPoints(DefaultSettings());
  }

  class Config {
    var qps: int
    var workers: int
    var duration: int
    var queryMix: QueryMix
    var isolationLevel: string

    function Value(): Settings
      reads this
    {
      Settings(qps, workers, duration, queryMix, isolationLevel)
    }

    /** A Config holding the given fields, as a decoded request body does. */
    constructor (s: Settings)
      ensures Value() == s
    {
      qps, workers, duration := s.qps, s.workers, s.duration;
      queryMix, isolationLevel := s.queryMix, s.isolationLevel;
    }

    /** Repairs the fields in place and reports a bad query mix. */
    method Validate() returns (err: Option<ConfigError>)
      modifies this
      ensures Validation(Value(), err) == Validated(old(Value()))
    {
      if qps < 0 {
        qps := 0;
      }
      if workers < 1 {
        workers := 1;
      }
      if duration < 0 {
        duration := 0;
      }
      var total := queryMix.simple + queryMix.filter + queryMix.aggregate;
      if total != 100 {
        return Some(MixSumNot100(total));
      }
      if queryMix.simple < 0 || queryMix.filter < 0 || queryMix.aggregate < 0 {
        return Some(MixNegative);
      }
      if !(isolationLevel == ReadCommitted || isolationLevel == RepeatableRead || isolationLevel == Serializable) {
        isolationLevel := ReadCommitted;
      }
      return None;
    }
  }

  method DefaultConfig() returns (c: Config)
    ensures fresh(c) && c.Value() == DefaultSettings()
  {
    c := new Config(DefaultSettings());
  }
}
