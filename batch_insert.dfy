/**
 * The multi-row INSERT that both the write load generator and the batch
 * endpoint of the write server build: one `($a, $b, $c, $d)` tuple per row,
 * tuples joined by ", ", and four arguments per row in column order.
 */
module BatchInsert {
  import opened Decimal
  import opened SqlText

  /** The four columns written per row, in the order of the INSERT's column list. */
  datatype LogFields = LogFields(level: string, service: string, message: string, metadata: string)

  /** "INSERT INTO logs (level, service, message, metadata) VALUES ", in two pieces that are each checked for `$`. */
  const InsertPrefix: string := InsertHead + InsertTail
  const InsertHead: string := "INSERT INTO logs (level, "
  const InsertTail: string := "service, message, metadata) VALUES "

  /** The statement the generator executes when its batch size is exactly 1. */
  const SingleInsert: string := InsertPrefix + "($1, $2, $3, $4)"

  /** The value tuple of row `i` (counting from 0): parameters 4i+1 to 4i+4. */
  function Tuple(i: nat): string {
    FormatTuple(i * 4)
  }

  /** `fmt.Sprintf("($%d, $%d, $%d, $%d)", offset+1, offset+2, offset+3, offset+4)` */
  function FormatTuple(offset: nat): string {
    Clause("(", offset + 1) + Clause(", ", offset + 2) + Clause(", ", offset + 3) + Clause(", ", offset + 4) + ")"
  }

  /** The tuples of rows 0 to n-1, separated by ", ". */
  function TupleList(n: nat): string {
    if n == 0 then "" else TupleList(n - 1) + SeparatedTuple(n - 1)
  }

  /** The tuple of row i, preceded by ", " unless it is the first. */
  function SeparatedTuple(i: nat): string {
    (if i > 0 then ", " else "") + Tuple(i)
  }

  /** An n-row batch statement; it mentions exactly the parameters $1 to $4n, in order. */
  function BatchQuery(n: nat): (r: string)
    ensures Placeholders(r) == Numbered(4 * n)
  {
    PlaceholdersOfTupleList(n);
    TupleListStartsWithoutDigit(n);
    InsertPrefixHasNoParameter();
    PlaceholdersAppend(InsertPrefix, TupleList(n));
    InsertPrefix + TupleList(n)
  }

  function Fields(r: LogFields): seq<Arg> {
    [Text(r.level), Text(r.service), Text(r.message), Text(r.metadata)]
  }

  /** The arguments of a batch: the fields of every row, row after row. */
  function RowArgs(rows: seq<LogFields>): seq<Arg> {
    if rows == [] then [] else RowArgs(rows[..|rows| - 1]) + Fields(rows[|rows| - 1])
  }

  /** Arguments 4i+1 to 4i+4 (counting from 1) are the columns of row i, in order. */
  lemma {:induction false} RowArgsAt(rows: seq<LogFields>, i: nat)
    requires i < |rows|
    ensures |RowArgs(rows)| == 4 * |rows|
    ensures RowArgs(rows)[4 * i..4 * i + 4] == Fields(rows[i])
    decreases |rows|
  {
    var init := rows[..|rows| - 1];
    RowArgsLength(init);
    if i < |rows| - 1 {
      RowArgsAt(init, i);
      assert RowArgs(rows)[4 * i..4 * i + 4] == RowArgs(init)[4 * i..4 * i + 4];
    }
  }

  lemma {:induction false} RowArgsLength(rows: seq<LogFields>)
    ensures |RowArgs(rows)| == 4 * |rows|
    decreases |rows|
  {
    if rows != [] {
      RowArgsLength(rows[..|rows| - 1]);
    }
  }

  /** The parameter numbers of the tuple that follows m arguments: m + 1 to m + 4. */
  function NextFour(m: nat): seq<nat> {
    [m + 1, m + 2, m + 3, m + 4]
  }

  /** Tuple i mentions exactly the parameters 4i + 1 to 4i + 4. */
  lemma PlaceholdersOfTuple(i: nat)
    ensures Placeholders(Tuple(i)) == NextFour(4 * i)
  {
    var o := i * 4;
    var c1, c2, c3, c4 := Clause("(", o + 1), Clause(", ", o + 2), Clause(", ", o + 3), Clause(", ", o + 4);
    OpeningClause(o + 1);
    CommaClause(o + 2);
    CommaClause(o + 3);
    CommaClause(o + 4);
    TupleNumbers(c1, c2, c3, c4, o);
    assert Tuple(i) == c1 + c2 + c3 + c4 + ")";
  }

  /** Four clauses of one parameter each, closed by ")", mention those four parameters. */
  lemma TupleNumbers(c1: string, c2: string, c3: string, c4: string, m: nat)
    requires Placeholders(c1) == [m + 1] && Placeholders(c2) == [m + 2]
    requires Placeholders(c3) == [m + 3] && Placeholders(c4) == [m + 4]
    requires StartsWithoutDigit(c2) && StartsWithoutDigit(c3) && StartsWithoutDigit(c4)
    ensures Placeholders(c1 + c2 + c3 + c4 + ")") == NextFour(m)
  {
    FourClauses(c1, c2, c3, c4);
    assert [m + 1] + [m + 2] + [m + 3] + [m + 4] == NextFour(m);
  }

  /** A tuple's opening `($n` mentions exactly parameter n. */
  lemma OpeningClause(n: nat)
    ensures Placeholders(Clause("(", n)) == [n]
  {
    PlaceholdersOfClause("(", n);
  }

  /** A separator followed by `$n` mentions exactly parameter n and does not start with a digit. */
  lemma CommaClause(n: nat)
    ensures Placeholders(Clause(", ", n)) == [n]
    ensures StartsWithoutDigit(Clause(", ", n))
  {
    PlaceholdersOfClause(", ", n);
    assert Clause(", ", n)[0] == ',';
  }

  lemma TupleOpens(i: nat)
    ensures Tuple(i)[0] == '('
  {
    var o := i * 4;
    assert Tuple(i) == "(" + (Param(o + 1) + Clause(", ", o + 2) + Clause(", ", o + 3) + Clause(", ", o + 4) + ")");
  }

  lemma FourClauses(c1: string, c2: string, c3: string, c4: string)
    requires StartsWithoutDigit(c2) && StartsWithoutDigit(c3) && StartsWithoutDigit(c4)
    ensures Placeholders(c1 + c2 + c3 + c4 + ")") == Placeholders(c1) + Placeholders(c2) + Placeholders(c3) + Placeholders(c4)
  {
    PlaceholdersAppend(c1, c2);
    PlaceholdersAppend(c1 + c2, c3);
    PlaceholdersAppend(c1 + c2 + c3, c4);
    PlaceholdersNoDollar(")");
    PlaceholdersAppend(c1 + c2 + c3 + c4, ")");
  }

  lemma {:induction false} PlaceholdersOfTupleList(n: nat)
    ensures Placeholders(TupleList(n)) == Numbered(4 * n)
    decreases n
  {
    if n > 0 {
      PlaceholdersOfTupleList(n - 1);
      PlaceholdersOfSeparatedTuple(n - 1);
      ListStep(TupleList(n - 1), SeparatedTuple(n - 1), 4 * (n - 1));
    }
  }

  /** A list numbered 1 to m, followed by a tuple of the next four numbers, is numbered 1 to m + 4. */
  lemma ListStep(list: string, tuple: string, m: nat)
    requires Placeholders(list) == Numbered(m)
    requires Placeholders(tuple) == NextFour(m) && StartsWithoutDigit(tuple)
    ensures Placeholders(list + tuple) == Numbered(m + 4)
  {
    PlaceholdersAppend(list, tuple);
    NumberedSnoc4(m, Placeholders(list), Placeholders(tuple));
  }

  lemma PlaceholdersOfSeparatedTuple(i: nat)
    ensures Placeholders(SeparatedTuple(i)) == NextFour(4 * i)
    ensures StartsWithoutDigit(SeparatedTuple(i))
  {
    var sep := if i > 0 then ", " else "";
    PlaceholdersOfTuple(i);
    TupleOpens(i);
    PlaceholdersNoDollar(sep);
    PlaceholdersAppend(sep, Tuple(i));
    if sep == [] {
      assert sep + Tuple(i) == Tuple(i);
    }
  }

  lemma NumberedSnoc4(m: nat, init: seq<nat>, last: seq<nat>)
    requires init == Numbered(m) && last == NextFour(m)
    ensures init + last == Numbered(m + 4)
  {
  }

  lemma {:induction false} TupleListStartsWithoutDigit(n: nat)
    ensures StartsWithoutDigit(TupleList(n))
    decreases n
  {
    if n == 1 {
      assert TupleList(1) == Tuple(0);
    } else if n > 1 {
      TupleListStartsWithoutDigit(n - 1);
    }
  }

  lemma InsertPrefixHasNoParameter()
    ensures Placeholders(InsertPrefix) == []
  {
    assert NoDollar(InsertHead);
    assert NoDollar(InsertTail);
    NoDollarAppend(InsertHead, InsertTail);
    PlaceholdersNoDollar(InsertPrefix);
  }

  /** The one-row statement is the batch statement for a single row. */
  lemma SingleInsertIsBatchOfOne()
    ensures BatchQuery(1) == SingleInsert
  {
    FirstTupleText();
    assert TupleList(1) == Tuple(0);
  }

  lemma FirstTupleText()
    ensures Tuple(0) == "($1, $2, $3, $4)"
  {
    FirstTupleClauses();
  }

  lemma FirstTupleClauses()
    ensures Clause("(", 1) + Clause(", ", 2) + Clause(", ", 3) + Clause(", ", 4) + ")" == "($1, $2, $3, $4)"
  {
    DigitParam(1, '1');
    DigitParam(2, '2');
    DigitParam(3, '3');
    DigitParam(4, '4');
  }

  lemma DigitParam(n: nat, c: char)
    requires n < 10 && c == DigitChar(n)
    ensures Param(n) == ['$', c]
  {
  }

  /** One turn of the builder's loop: the separator (after the first row), then the tuple. */
  lemma QueryStep(prefix: string, before: string, separated: string, tuple: string, i: nat)
    requires before == prefix + TupleList(i)
    requires separated == if i > 0 then before + ", " else before
    requires tuple == FormatTuple(i * 4)
    ensures separated + tuple == prefix + TupleList(i + 1)
  {
    assert tuple == Tuple(i);
    if i > 0 {
      AppendAssociative(before, ", ", tuple);
    } else {
      assert "" + tuple == tuple;
    }
    AppendAssociative(prefix, TupleList(i), SeparatedTuple(i));
  }

  lemma AppendAssociative(a: string, b: string, c: string)
    ensures (a + b) + c == a + (b + c)
  {
  }

  lemma ArgsStep(rows: seq<LogFields>, i: nat)
    requires i < |rows|
    ensures RowArgs(rows[..i + 1]) == RowArgs(rows[..i]) + Fields(rows[i])
  {
    assert rows[..i + 1][..i] == rows[..i];
  }

  /** Builds the statement by appending one tuple and four arguments per row. */
  method BuildBatchInsert(rows: seq<LogFields>) returns (stmt: Statement)
    ensures stmt == Statement(BatchQuery(|rows|), RowArgs(rows))
    ensures |stmt.args| == 4 * |rows|
    ensures Placeholders(stmt.sql) == Numbered(|stmt.args|)
  {
    var query := InsertPrefix;
    var args: seq<Arg> := [];
    var i := 0;
    while i < |rows|
      invariant 0 <= i <= |rows|
      invariant query == InsertPrefix + TupleList(i)
      invariant args == RowArgs(rows[..i])
    {
      ghost var before := query;
      if i > 0 {
        query := query + ", ";
      }
      var offset := i * 4;
      var tuple := FormatTuple(offset);
      ghost var separated := query;
      query := query + tuple;
      QueryStep(InsertPrefix, before, separated, tuple, i);
      var row := rows[i];
      args := args + [Text(row.level), Text(row.service), Text(row.message), Text(row.metadata)];
      ArgsStep(rows, i);
      i := i + 1;
    }
    assert rows[..i] == rows;
    stmt := Statement(query, args);
    BatchStatementNumbering(rows);
  }

  lemma BatchStatementNumbering(rows: seq<LogFields>)
    ensures |RowArgs(rows)| == 4 * |rows|
    ensures Placeholders(BatchQuery(|rows|)) == Numbered(|RowArgs(rows)|)
  {
    RowArgsLength(rows);
  }
}
