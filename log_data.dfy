/**
 * The rows the write load generator invents: a level, a service and a message
 * picked from fixed lists, and a metadata JSON object with three random
 * numbers. Every `rand.Intn(n)` call is a draw in `[0, n)` passed in.
 */
module LogData {
  import opened Wrappers
  import opened Decimal
  import opened SqlText
  import opened BatchInsert

  const Levels: seq<string> := ["INFO", "WARN", "ERROR", "DEBUG"]
  const Services: seq<string> := ["auth", "api", "worker", "scheduler", "notification", "payment"]
  const Messages: seq<string> := [
    "Request processed successfully",
    "Database connection established",
    "Cache invalidated",
    "Task completed",
    "User authentication verified",
    "Payment transaction initiated",
    "Email notification sent",
    "API rate limit checked"]

  /** Exclusive upper bounds of the three metadata numbers. */
  const RequestIdBound: nat := 1000000
  const UserIdBound: nat := 10000
  const DurationBound: nat := 1000

  /** The draws one row consumes, in the order the generator makes them. */
  datatype RowDraw = RowDraw(level: int, service: int, message: int, requestId: int, userId: int, durationMs: int)

  predicate ValidDraw(d: RowDraw) {
    && 0 <= d.level < |Levels| && 0 <= d.service < |Services| && 0 <= d.message < |Messages|
    && 0 <= d.requestId < RequestIdBound && 0 <= d.userId < UserIdBound && 0 <= d.durationMs < DurationBound
  }

  /** The three numbers a metadata object carries. */
  datatype MetadataFields = MetadataFields(requestId: nat, userId: nat, durationMs: nat)

  const MetaOpen: string := "{\"request_id\": "
  const MetaUser: string := ", \"user_id\": "
  const MetaDuration: string := ", \"duration_ms\": "
  const MetaClose: string := "}"

  /** `fmt.Sprintf(`{"request_id": %d, "user_id": %d, "duration_ms": %d}`, ...)`: a JSON object. */
  function Metadata(f: MetadataFields): (m: string)
    ensures |m| >= 2 && m[0] == '{' && m[|m| - 1] == '}'
  {
    MetaOpen + (NatToString(f.requestId) + (MetaUser + (NatToString(f.userId)
      + (MetaDuration + (NatToString(f.durationMs) + MetaClose)))))
  }

  /** Removes a literal prefix. */
  function StripPrefix(prefix: string, s: string): (r: Option<string>)
    ensures r.Some? ==> s == prefix + r.value
  {
    if |prefix| <= |s| && s[..|prefix|] == prefix then Some(s[|prefix|..]) else None
  }

  /** Reads a non-empty run of decimal digits. */
  function ReadNumber(s: string): (r: Option<(nat, string)>)
    ensures r.Some? ==> |r.value.1| < |s|
  {
    var k := DigitRun(s);
    DigitRunIsDigits(s);
    if k == 0 then None else Some((DigitsValue(s[..k]), s[k..]))
  }

  /** Reads back the three numbers of a metadata object written by Metadata. */
  function ParseMetadata(s: string): Option<MetadataFields> {
    match StripPrefix(MetaOpen, s)
    case None => None
    case Some(s1) =>
      match ReadNumber(s1)
      case None => None
      case Some((requestId, s2)) =>
        match StripPrefix(MetaUser, s2)
        case None => None
        case Some(s3) =>
          match ReadNumber(s3)
          case None => None
          case Some((userId, s4)) =>
            match StripPrefix(MetaDuration, s4)
            case None => None
            case Some(s5) =>
              match ReadNumber(s5)
              case None => None
              case Some((durationMs, s6)) =>
                if s6 == MetaClose then Some(MetadataFields(requestId, userId, durationMs)) else None
  }

  lemma StripPrefixOf(prefix: string, rest: string)
    ensures StripPrefix(prefix, prefix + rest) == Some(rest)
  {
    assert (prefix + rest)[..|prefix|] == prefix;
  }

  lemma ReadNumberOf(n: nat, rest: string)
    requires StartsWithoutDigit(rest)
    ensures ReadNumber(NatToString(n) + rest) == Some((n, rest))
  {
    var t := NatToString(n);
    DigitsValueOfNatToString(n);
    DigitRunAppend(t, rest);
    DigitRunAllDigits(t);
    assert (t + rest)[..|t|] == t;
    assert (t + rest)[|t|..] == rest;
  }

  /** The metadata text determines its numbers: ParseMetadata inverts Metadata. */
  lemma ParseMetadataOfMetadata(f: MetadataFields)
    ensures ParseMetadata(Metadata(f)) == Some(f)
  {
    var r, u, d := NatToString(f.requestId), NatToString(f.userId), NatToString(f.durationMs);
    var s5 := d + MetaClose;
    var s4 := MetaDuration + s5;
    var s3 := u + s4;
    var s2 := MetaUser + s3;
    var s1 := r + s2;
    StripPrefixOf(MetaOpen, s1);
    ReadNumberOf(f.requestId, s2);
    StripPrefixOf(MetaUser, s3);
    ReadNumberOf(f.userId, s4);
    StripPrefixOf(MetaDuration, s5);
    ReadNumberOf(f.durationMs, MetaClose);
  }

  /** Different numbers give different metadata texts. */
  lemma MetadataInjective(f: MetadataFields, g: MetadataFields)
    requires Metadata(f) == Metadata(g)
    ensures f == g
  {
    ParseMetadataOfMetadata(f);
    ParseMetadataOfMetadata(g);
  }

  /**
   * randomLevel, randomService, randomMessage and randomMetadata for one row:
   * the level, service and message come from the fixed lists.
   */
  function RandomRow(d: RowDraw): (row: LogFields)
    requires ValidDraw(d)
    ensures row.level in Levels && row.service in Services && row.message in Messages
  {
    LogFields(Levels[d.level], Services[d.service], Messages[d.message],
              Metadata(MetadataFields(d.requestId, d.userId, d.durationMs)))
  }

  /**
   * A generated row's metadata carries the three drawn numbers, each below
   * its bound.
   */
  lemma RandomRowFields(d: RowDraw)
    requires ValidDraw(d)
    ensures var row := RandomRow(d);
      && ParseMetadata(row.metadata) == Some(MetadataFields(d.requestId, d.userId, d.durationMs))
      && d.requestId < RequestIdBound && d.userId < UserIdBound && d.durationMs < DurationBound
  {
    ParseMetadataOfMetadata(MetadataFields(d.requestId, d.userId, d.durationMs));
  }
}
