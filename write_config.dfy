/**
 * The write load generator's settings. Validate repairs the scalar fields in
 * place and normalises the isolation level; it never reports an error.
 */
module WriteConfig {
  import opened Wrappers

  const ReadCommitted: string := "READ COMMITTED"
  const RepeatableRead: string := "REPEATABLE READ"
  const Serializable: string := "SERIALIZABLE"

  predicate IsAcceptedIsolation(level: string) {
    level == ReadCommitted || level == RepeatableRead || level == Serializable
  }

  /** The fields of a Config; tps 0 and duration 0 mean unlimited, duration is in nanoseconds. */
  datatype Settings = Settings(tps: int, batchSize: int, workers: int, duration: int, isolationLevel: string)

  /** An `error` value: its message. */
  datatype ConfigError = ConfigError(message: string)

  /** DefaultConfig: 1000 TPS, batches of 10 rows, 5 workers, no time limit, READ COMMITTED. */
  function DefaultSettings(): Settings {
    Settings(1000, 10, 5, 0, ReadCommitted)
  }

  predicate InRange(s: Settings) {
    s.tps >= 0 && s.batchSize >= 1 && s.workers >= 1 && s.duration >= 0 && IsAcceptedIsolation(s.isolationLevel)
  }

  /** The settings Validate leaves behind. */
  function Validated(s: Settings): (v: Settings)
    ensures InRange(v)
    ensures s.tps >= 0 ==> v.tps == s.tps
    ensures s.batchSize >= 1 ==> v.batchSize == s.batchSize
    ensures s.workers >= 1 ==> v.workers == s.workers
    ensures s.duration >= 0 ==> v.duration == s.duration
    ensures IsAcceptedIsolation(s.isolationLevel) ==> v.isolationLevel == s.isolationLevel
    ensures !IsAcceptedIsolation(s.isolationLevel) ==> v.isolationLevel == ReadCommitted
  {
    Settings(if s.tps < 0 then 0 else s.tps,
             if s.batchSize < 1 then 1 else s.batchSize,
             if s.workers < 1 then 1 else s.workers,
             if s.duration < 0 then 0 else s.duration,
             if IsAcceptedIsolation(s.isolationLevel) then s.isolationLevel else ReadCommitted)
  }

  /** The fixed points of Validate are exactly the in-range settings. */
  lemma ValidatedFixedPoints(s: Settings)
    ensures Validated(s) == s <==> InRange(s)
  {
  }

  lemma ValidatedIdempotent(s: Settings)
    ensures Validated(Validated(s)) == Validated(s)
  {
    ValidatedFixedPoints(Validated(s));
  }

  lemma DefaultSettingsValid()
    ensures Validated(DefaultSettings()) == DefaultSettings()
  {
    ValidatedFixedPoints(DefaultSettings());
  }

  class Config {
    var tps: int
    var batchSize: int
    var workers: int
    var duration: int
    var isolationLevel: string

    function Value(): Settings
      reads this
    {
      Settings(tps, batchSize, workers, duration, isolationLevel)
    }

    constructor (s: Settings)
      ensures Value() == s
    {
      tps, batchSize, workers := s.tps, s.batchSize, s.workers;
      duration, isolationLevel := s.duration, s.isolationLevel;
    }

    /** Repairs the fields in place; the returned error is always nil. */
    method Validate() returns (err: Option<ConfigError>)
      modifies this
      ensures err == None
      ensures Value() == Validated(old(Value()))
    {
      if tps < 0 {
        tps := 0;
      }
      if batchSize < 1 {
        batchSize := 1;
      }
      if workers < 1 {
        workers := 1;
      }
      if duration < 0 {
        duration := 0;
      }
      if !(isolationLevel == ReadCommitted || isolationLevel == RepeatableRead || isolationLevel == Serializable) {
        isolationLevel := ReadCommitted;
      }
      return None;
    }
  }

  method DefaultConfig() returns (c: Config)
    ensures fresh(c) && c.Value() == DefaultSettings()
  {
    c := new Config(DefaultSettings());
  }
}
