/**
 * The read server's HTTP handlers for logs, search and stats, without HTTP:
 * each takes its query parameters and what the database answered, and gives
 * back the statement it sent and the response it would encode. Every request
 * that reaches the database records exactly one outcome.
 */
module ReadHandler {
  import opened Wrappers
  import opened Decimal
  import opened SqlText
  import opened MetricsCore
  import ReadMetrics

  const DefaultLimit: int := 100

  /**
   * The `limit` query parameter: its value when it parses as an integer
   * greater than 0, and 100 otherwise (absent, malformed or not positive).
   */
  function ParseLimit(param: string): (limit: int)
    ensures limit > 0
    ensures limit == DefaultLimit || Atoi(param) == Some(limit)
    ensures (Atoi(param).Some? && Atoi(param).value > 0) ==> limit == Atoi(param).value
    ensures (Atoi(param).None? || Atoi(param).value <= 0) ==> limit == DefaultLimit
  {
    if param != "" && Atoi(param).Some? && Atoi(param).value > 0 then Atoi(param).value else DefaultLimit
  }

  /** A limit written in decimal is read back as itself. */
  lemma ParseLimitOfDecimal(n: nat)
    requires 0 < n <= Int64Max
    ensures ParseLimit(NatToString(n)) == n
  {
    AtoiOfNatToString(n);
  }

  /**
   * Text that is not an int64 in decimal, or one that is not positive, falls
   * back to the default; every other text is the limit itself.
   */
  lemma ParseLimitFallsBack(param: string)
    ensures (!IsDecimalText(param) || TextValue(param) <= 0 || TextValue(param) > Int64Max) ==> ParseLimit(param) == DefaultLimit
    ensures (IsDecimalText(param) && 0 < TextValue(param) <= Int64Max) ==> ParseLimit(param) == TextValue(param)
  {
  }

  /** A few texts a client may send, read as the handler reads them. */
  lemma ParseLimitExamples()
    ensures ParseLimit("") == DefaultLimit
    ensures ParseLimit("0") == DefaultLimit
    ensures ParseLimit("-5") == DefaultLimit
    ensures ParseLimit("ten") == DefaultLimit
    ensures ParseLimit("+25") == 25
  {
    assert AllDigits("0") && DigitsValue("0") == 0;
    assert "-5"[1..] == "5" && AllDigits("5") && DigitsValue("5") == 5;
    assert !AllDigits("ten") by { assert !IsDigit("ten"[0]); }
    assert "+25"[1..] == "25" && AllDigits("25") && DigitsValue("25") == 25;
  }

  /** The column list and table shared by the logs and search statements. */
  const SelectLogs: string := "\n\t\tSELECT id, timestamp, " + "level, service, message\n\t\tFROM logs\n"

  const LogsOrderLimit: string := "\t\tORDER BY timestamp DESC\n\t\tLIMIT "

  const LogsPrefix: string := SelectLogs + LogsOrderLimit

  /** The statement text of GET /logs. */
  const LogsQuery: string := LogsPrefix + (Param(1) + "\n\t")

  const SearchBase: string := SelectLogs + "\t\tWHERE 1=1\n\t"

  const LevelFilter: string := " AND level = "
  const ServiceFilter: string := " AND service = "
  const RecentOrderLimit: string := " AND timestamp > NOW() - " + "INTERVAL '1 hour' ORDER BY " + "timestamp DESC LIMIT "

  /** Text that neither mentions a parameter nor can continue a preceding `$n`. */
  predicate Inert(s: string) {
    NoDollar(s) && s != [] && !IsDigit(s[0])
  }

  lemma SelectLogsHasNoDollar()
    ensures NoDollar(SelectLogs)
  {
    var a, b := "\n\t\tSELECT id, timestamp, ", "level, service, message\n\t\tFROM logs\n";
    assert NoDollar(a) && NoDollar(b);
    NoDollarAppend(a, b);
  }

  lemma LogsPrefixHasNoDollar()
    ensures NoDollar(LogsPrefix)
  {
    SelectLogsHasNoDollar();
    assert NoDollar(LogsOrderLimit);
    NoDollarAppend(SelectLogs, LogsOrderLimit);
  }

  lemma SearchBaseHasNoDollar()
    ensures NoDollar(SearchBase)
  {
    SelectLogsHasNoDollar();
    var w := "\t\tWHERE 1=1\n\t";
    assert NoDollar(w);
    NoDollarAppend(SelectLogs, w);
  }

  lemma FilterTextsAreInert()
    ensures Inert(LevelFilter) && Inert(ServiceFilter) && Inert(RecentOrderLimit)
  {
    assert Inert(LevelFilter);
    assert Inert(ServiceFilter);
    var a, b, c := " AND timestamp > NOW() - ", "INTERVAL '1 hour' ORDER BY ", "timestamp DESC LIMIT ";
    assert NoDollar(a) && NoDollar(b) && NoDollar(c);
    NoDollarAppend(a, b);
    NoDollarAppend(a + b, c);
    assert RecentOrderLimit[0] == a[0];
  }

  /** Text without parameters around one `$n`: the scanner finds just n. */
  lemma OneParameter(prefix: string, n: nat, suffix: string)
    requires NoDollar(prefix) && Inert(suffix)
    ensures Placeholders(prefix + (Param(n) + suffix)) == [n]
  {
    PlaceholdersOfParam(n);
    PlaceholdersNoDollar(suffix);
    PlaceholdersAppend(Param(n), suffix);
    PlaceholdersNoDollar(prefix);
    assert (Param(n) + suffix)[0] == '$';
    PlaceholdersAppend(prefix, Param(n) + suffix);
  }

  /** GET /logs binds its one argument, the limit, as `$1`. */
  lemma LogsQueryNumbering()
    ensures Placeholders(LogsQuery) == Numbered(1)
  {
    LogsPrefixHasNoDollar();
    assert Inert("\n\t");
    OneParameter(LogsPrefix, 1, "\n\t");
  }

  /** The text a filter adds: ` AND level = $n` when its value is set, nothing otherwise. */
  function Filter(text: string, value: string, n: nat): string {
    if value != "" then Clause(text, n) else ""
  }

  /** The arguments a filter adds. */
  function FilterArg(value: string): seq<Arg> {
    if value != "" then [Text(value)] else []
  }

  /** The statement SearchLogs sends: the set filters in order, then the LIMIT, numbered from `$1`. */
  function SearchStatement(level: string, service: string, limit: int): Statement {
    var levelCount := |FilterArg(level)|;
    var limitIndex := 1 + levelCount + |FilterArg(service)|;
    Statement(
      SearchBase + Filter(LevelFilter, level, 1) + Filter(ServiceFilter, service, 1 + levelCount)
        + Clause(RecentOrderLimit, limitIndex),
      FilterArg(level) + FilterArg(service) + [Int(limit)])
  }

  lemma ClauseNumbering(text: string, n: nat)
    requires Inert(text)
    ensures Placeholders(Clause(text, n)) == [n]
    ensures StartsWithoutDigit(Clause(text, n))
  {
    PlaceholdersOfClause(text, n);
    assert Clause(text, n)[0] == text[0];
  }

  lemma FilterNumbering(text: string, value: string, n: nat)
    requires Inert(text)
    ensures Placeholders(Filter(text, value, n)) == if value != "" then [n] else []
    ensures StartsWithoutDigit(Filter(text, value, n))
  {
    if value != "" {
      ClauseNumbering(text, n);
    }
  }

  /** Adding a filter's clause only when its value is set appends Filter. */
  lemma FilterStep(query: string, text: string, value: string, n: nat)
    ensures (if value != "" then query + Clause(text, n) else query) == query + Filter(text, value, n)
  {
    if value == "" {
      assert query + "" == query;
    }
  }

  lemma SearchSql(level: string, service: string, limit: int, withLevel: string, withService: string, query: string)
    requires withLevel == SearchBase + Filter(LevelFilter, level, 1)
    requires withService == withLevel + Filter(ServiceFilter, service, 1 + |FilterArg(level)|)
    requires query == withService + Clause(RecentOrderLimit, 1 + |FilterArg(level)| + |FilterArg(service)|)
    ensures query == SearchStatement(level, service, limit).sql
  {
  }

  lemma FourParts(base: string, lf: string, sf: string, rc: string)
    requires NoDollar(base) && StartsWithoutDigit(lf) && StartsWithoutDigit(sf) && StartsWithoutDigit(rc)
    ensures Placeholders(base + lf + sf + rc) == Placeholders(lf) + Placeholders(sf) + Placeholders(rc)
  {
    PlaceholdersNoDollar(base);
    PlaceholdersAppend(base, lf);
    assert Placeholders(base + lf) == Placeholders(lf);
    PlaceholdersAppend(base + lf, sf);
    PlaceholdersAppend(base + lf + sf, rc);
  }

  /**
   * A search statement mentions exactly the parameters `$1` to `$k` for its k
   * arguments, in order: the level (if set), the service (if set), the limit.
   */
  lemma SearchStatementNumbering(level: string, service: string, limit: int)
    ensures var stmt := SearchStatement(level, service, limit);
      && |stmt.args| == 1 + (if level != "" then 1 else 0) + (if service != "" then 1 else 0)
      && Placeholders(stmt.sql) == Numbered(|stmt.args|)
      && stmt.args[|stmt.args| - 1] == Int(limit)
  {
    var l := |FilterArg(level)|;
    var k := 1 + l + |FilterArg(service)|;
    var stmt := SearchStatement(level, service, limit);
    assert |stmt.args| == k;
    SearchTextNumbering(level, service, k);
  }

  /** The search text, filters and LIMIT clause together, numbers `$1` to `$k`. */
  lemma SearchTextNumbering(level: string, service: string, k: nat)
    requires k == 1 + |FilterArg(level)| + |FilterArg(service)|
    ensures Placeholders(SearchBase + Filter(LevelFilter, level, 1) + Filter(ServiceFilter, service, 1 + |FilterArg(level)|)
      + Clause(RecentOrderLimit, k)) == Numbered(k)
  {
    var l := |FilterArg(level)|;
    SearchBaseHasNoDollar();
    FilterTextsAreInert();
    FilterNumbering(LevelFilter, level, 1);
    FilterNumbering(ServiceFilter, service, 1 + l);
    ClauseNumbering(RecentOrderLimit, k);
    PartsNumbering(SearchBase, Filter(LevelFilter, level, 1), Filter(ServiceFilter, service, 1 + l),
      Clause(RecentOrderLimit, k), level != "", service != "", k);
  }

  /** A text without parameters, then up to two filters and the LIMIT clause, numbers `$1` to `$k`. */
  lemma PartsNumbering(base: string, lf: string, sf: string, rc: string, hasLevel: bool, hasService: bool, k: nat)
    requires NoDollar(base) && StartsWithoutDigit(lf) && StartsWithoutDigit(sf) && StartsWithoutDigit(rc)
    requires Placeholders(lf) == (if hasLevel then [1] else [])
    requires Placeholders(sf) == (if hasService then [1 + (if hasLevel then 1 else 0)] else [])
    requires k == 1 + (if hasLevel then 1 else 0) + (if hasService then 1 else 0)
    requires Placeholders(rc) == [k]
    ensures Placeholders(base + lf + sf + rc) == Numbered(k)
  {
    FourParts(base, lf, sf, rc);
    NumberedFilters(hasLevel, hasService);
  }

  lemma NumberedFilters(hasLevel: bool, service: bool)
    ensures var l := if hasLevel then 1 else 0;
      var k := 1 + l + (if service then 1 else 0);
      (if hasLevel then [1] else []) + (if service then [1 + l] else []) + [k] == Numbered(k)
  {
  }

  /** A row scan: the row, or the error Scan returned. */
  datatype Scan<T> = Scanned(row: T) | ScanFailed

  /** What the database answered: an error from Query, or the row scans, whether rows.Err reported an error, and the latency. */
  datatype QueryResult<T> = QueryFailed | Answered(scans: seq<Scan<T>>, iterationFailed: bool, latency: int)

  datatype HandlerError = QueryError | ScanError | IterationError

  predicate AllScanned<T>(scans: seq<Scan<T>>) {
    forall k :: 0 <= k < |scans| ==> scans[k].Scanned?
  }

  function ScannedRows<T>(scans: seq<Scan<T>>): (rows: seq<T>)
    requires AllScanned(scans)
    ensures |rows| == |scans| && forall k :: 0 <= k < |scans| ==> rows[k] == scans[k].row
  {
    if scans == [] then [] else ScannedRows(scans[..|scans| - 1]) + [scans[|scans| - 1].row]
  }

  /** The rows a handler collects, or the first error that ends the request. */
  function ReadOutcome<T>(result: QueryResult<T>): (r: Result<seq<T>, HandlerError>)
    ensures r.Success? <==> result.Answered? && AllScanned(result.scans) && !result.iterationFailed
    ensures r.Success? ==> r.value == ScannedRows(result.scans)
    ensures r == Failure(QueryError) <==> result.QueryFailed?
    ensures r == Failure(ScanError) <==> result.Answered? && !AllScanned(result.scans)
  {
    match result
    case QueryFailed => Failure(QueryError)
    case Answered(scans, iterationFailed, _) =>
      if !AllScanned(scans) then Failure(ScanError)
      else if iterationFailed then Failure(IterationError)
      else Success(ScannedRows(scans))
  }

  /** The `for rows.Next()` loop: appends every scanned row, and stops at the first failed scan. */
  method ReadRows<T>(scans: seq<Scan<T>>) returns (rows: seq<T>, ok: bool)
    ensures ok <==> AllScanned(scans)
    ensures ok ==> rows == ScannedRows(scans)
  {
    rows := [];
    var i := 0;
    while i < |scans|
      invariant 0 <= i <= |scans|
      invariant AllScanned(scans[..i]) && rows == ScannedRows(scans[..i])
    {
      match scans[i] {
        case ScanFailed =>
          assert !scans[i].Scanned?;
          return rows, false;
        case Scanned(row) =>
          assert scans[..i + 1][..i] == scans[..i];
          rows := rows + [row];
      }
      i := i + 1;
    }
    assert scans[..i] == scans;
    ok := true;
  }

  datatype LogEntry = LogEntry(id: int, timestamp: int, level: string, service: string, message: string)

  datatype StatsEntry = StatsEntry(level: string, count: int, firstSeen: int, lastSeen: int)

  /** The body of a logs response: the rows and their number. */
  datatype LogsPage = LogsPage(logs: seq<LogEntry>, count: nat)

  class Handler {
    const collector: ReadMetrics.Collector

    constructor (collector: ReadMetrics.Collector)
      ensures this.collector == collector
    {
      this.collector := collector;
    }

    /** Runs one query: a success with its latency after all rows are read, a failure on any error. */
    method Run<T>(result: QueryResult<T>) returns (r: Result<seq<T>, HandlerError>)
      requires collector.Valid()
      modifies collector
      ensures collector.Valid()
      ensures r == ReadOutcome(result)
      ensures collector.totalRequests == old(collector.totalRequests) + 1
      ensures r.Success? ==>
        && collector.successRequests == old(collector.successRequests) + 1
        && collector.failedRequests == old(collector.failedRequests)
        && collector.latencies == AppendCapped(old(collector.latencies), [result.latency])
      ensures r.Failure? ==>
        && collector.successRequests == old(collector.successRequests)
        && collector.failedRequests == old(collector.failedRequests) + 1
        && collector.latencies == old(collector.latencies)
    {
      match result {
        case QueryFailed =>
          collector.RecordFailure();
          return Failure(QueryError);
        case Answered(scans, iterationFailed, latency) =>
          var rows, ok := ReadRows(scans);
          if !ok {
            collector.RecordFailure();
            return Failure(ScanError);
          }
          if iterationFailed {
            collector.RecordFailure();
            return Failure(IterationError);
          }
          AppendCappedSnoc(collector.latencies, [], latency);
          assert [] + [latency] == [latency];
          collector.RecordSuccess(latency);
          return Success(rows);
      }
    }

    /** GET /logs: the newest rows, as many as the limit allows. */
    method GetLogs(limitParam: string, result: QueryResult<LogEntry>) returns (stmt: Statement, resp: Result<LogsPage, HandlerError>)
      requires collector.Valid()
      modifies collector
      ensures collector.Valid()
      ensures stmt == Statement(LogsQuery, [Int(ParseLimit(limitParam))])
      ensures Placeholders(stmt.sql) == Numbered(|stmt.args|)
      ensures collector.totalRequests == old(collector.totalRequests) + 1
      ensures resp.Success? <==> ReadOutcome(result).Success?
      ensures resp.Success? ==> resp.value.logs == ReadOutcome(result).value && resp.value.count == |resp.value.logs|
      ensures resp.Failure? ==> resp == Failure(ReadOutcome(result).error)
      ensures resp.Success? ==>
        && collector.successRequests == old(collector.successRequests) + 1
        && collector.failedRequests == old(collector.failedRequests)
        && collector.latencies == AppendCapped(old(collector.latencies), [result.latency])
      ensures resp.Failure? ==>
        && collector.successRequests == old(collector.successRequests)
        && collector.failedRequests == old(collector.failedRequests) + 1
        && collector.latencies == old(collector.latencies)
    {
      var limit := DefaultLimit;
      if limitParam != "" {
        var l := Atoi(limitParam);
        if l.Some? && l.value > 0 {
          limit := l.value;
        }
      }
      stmt := Statement(LogsQuery, [Int(limit)]);
      LogsQueryNumbering();
      var r := Run(result);
      match r {
        case Success(logs) => resp := Success(LogsPage(logs, |logs|));
        case Failure(e) => resp := Failure(e);
      }
    }

    /** The query text and arguments of GET /logs/search, grown clause by clause. */
    method BuildSearch(level: string, service: string, limit: int) returns (stmt: Statement)
      ensures stmt == SearchStatement(level, service, limit)
      ensures |stmt.args| == 1 + (if level != "" then 1 else 0) + (if service != "" then 1 else 0)
      ensures Placeholders(stmt.sql) == Numbered(|stmt.args|)
    {
      var query := SearchBase;
      var args: seq<Arg> := [];
      var argCount := 1;
      ghost var before := query;
      if level != "" {
        query := query + Clause(LevelFilter, argCount);
        args := args + [Text(level)];
        argCount := argCount + 1;
      }
      FilterStep(before, LevelFilter, level, 1);
      ghost var withLevel := query;
      if service != "" {
        query := query + Clause(ServiceFilter, argCount);
        args := args + [Text(service)];
        argCount := argCount + 1;
      }
      FilterStep(withLevel, ServiceFilter, service, 1 + |FilterArg(level)|);
      assert argCount == 1 + |FilterArg(level)| + |FilterArg(service)|;
      assert args == FilterArg(level) + FilterArg(service);
      ghost var withService := query;
      query := query + Clause(RecentOrderLimit, argCount);
      args := args + [Int(limit)];
      stmt := Statement(query, args);
      SearchSql(level, service, limit, withLevel, withService, query);
      SearchStatementNumbering(level, service, limit);
    }

    /** GET /logs/search: rows of the last hour matching the set filters. */
    method SearchLogs(level: string, service: string, limitParam: string, result: QueryResult<LogEntry>)
      returns (stmt: Statement, resp: Result<LogsPage, HandlerError>)
      requires collector.Valid()
      modifies collector
      ensures collector.Valid()
      ensures stmt == SearchStatement(level, service, ParseLimit(limitParam))
      ensures Placeholders(stmt.sql) == Numbered(|stmt.args|)
      ensures collector.totalRequests == old(collector.totalRequests) + 1
      ensures resp.Success? <==> ReadOutcome(result).Success?
      ensures resp.Success? ==> resp.value.logs == ReadOutcome(result).value && resp.value.count == |resp.value.logs|
      ensures resp.Failure? ==> resp == Failure(ReadOutcome(result).error)
      ensures resp.Success? ==>
        && collector.successRequests == old(collector.successRequests) + 1
        && collector.failedRequests == old(collector.failedRequests)
        && collector.latencies == AppendCapped(old(collector.latencies), [result.latency])
      ensures resp.Failure? ==>
        && collector.successRequests == old(collector.successRequests)
        && collector.failedRequests == old(collector.failedRequests) + 1
        && collector.latencies == old(collector.latencies)
    {
      var limit := DefaultLimit;
      if limitParam != "" {
        var l := Atoi(limitParam);
        if l.Some? && l.value > 0 {
          limit := l.value;
        }
      }
      stmt := BuildSearch(level, service, limit);
      var r := Run(result);
      match r {
        case Success(logs) => resp := Success(LogsPage(logs, |logs|));
        case Failure(e) => resp := Failure(e);
      }
    }

    /** GET /logs/stats: the per-level aggregate of the last hour. */
    method GetStats(result: QueryResult<StatsEntry>) returns (resp: Result<seq<StatsEntry>, HandlerError>)
      requires collector.Valid()
      modifies collector
      ensures collector.Valid()
      ensures resp == ReadOutcome(result)
      ensures collector.totalRequests == old(collector.totalRequests) + 1
      ensures resp.Success? ==>
        && collector.successRequests == old(collector.successRequests) + 1
        && collector.failedRequests == old(collector.failedRequests)
        && collector.latencies == AppendCapped(old(collector.latencies), [result.latency])
      ensures resp.Failure? ==>
        && collector.successRequests == old(collector.successRequests)
        && collector.failedRequests == old(collector.failedRequests) + 1
        && collector.latencies == old(collector.latencies)
    {
      resp := Run(result);
    }
  }
}
