/**
 * Positional parameters of PostgreSQL statement text. A statement refers to
 * its arguments as `$1`, `$2`, ...; `Placeholders` lists the numbers it refers
 * to, in order, and is the reference the query builders are proved against.
 */
module SqlText {
  import opened Decimal

  /** An argument passed beside a statement (`[]interface{}` in the source). */
  datatype Arg = Text(s: string) | Int(i: int)

  /** A statement text with its arguments, as handed to Exec or Query. */
  datatype Statement = Statement(sql: string, args: seq<Arg>)

  /** The length of the run of decimal digits at the start of `s`. */
  function DigitRun(s: string): (k: nat)
    ensures k <= |s|
    ensures k < |s| ==> !IsDigit(s[k])
    decreases |s|
  {
    if |s| == 0 || !IsDigit(s[0]) then 0 else 1 + DigitRun(s[1..])
  }

  lemma {:induction false} DigitRunIsDigits(s: string)
    ensures AllDigits(s[..DigitRun(s)])
    decreases |s|
  {
    if |s| > 0 && IsDigit(s[0]) {
      DigitRunIsDigits(s[1..]);
      assert s[..DigitRun(s)] == [s[0]] + s[1..][..DigitRun(s[1..])];
    }
  }

  /** The parameter numbers `$n` that `s` mentions, left to right. */
  function Placeholders(s: string): seq<nat>
    decreases |s|
  {
    if |s| == 0 then []
    else
      var rest := s[1..];
      var k := DigitRun(rest);
      DigitRunIsDigits(rest);
      if s[0] == '$' && k > 0 then [DigitsValue(rest[..k])] + Placeholders(rest[k..])
      else Placeholders(rest)
  }

  /** `[1, 2, ..., n]`: the parameter numbers of a statement that uses `n` arguments in order. */
  function Numbered(n: nat): seq<nat> {
    seq(n, i => i + 1)
  }

  predicate StartsWithoutDigit(s: string) {
    s == [] || !IsDigit(s[0])
  }

  lemma {:induction false} DigitRunAllDigits(s: string)
    requires AllDigits(s)
    ensures DigitRun(s) == |s|
    decreases |s|
  {
    if |s| > 0 {
      DigitRunAllDigits(s[1..]);
    }
  }

  lemma {:induction false} DigitRunAppend(x: string, y: string)
    requires StartsWithoutDigit(y)
    ensures DigitRun(x + y) == DigitRun(x)
    decreases |x|
  {
    if |x| > 0 && IsDigit(x[0]) {
      assert (x + y)[1..] == x[1..] + y;
      DigitRunAppend(x[1..], y);
    }
  }

  /** Scanning a concatenation scans each part, unless the second part could continue a number. */
  lemma {:induction false} PlaceholdersAppend(a: string, b: string)
    requires StartsWithoutDigit(b)
    ensures Placeholders(a + b) == Placeholders(a) + Placeholders(b)
    decreases |a|
  {
    if |a| == 0 {
      assert a + b == b;
    } else {
      var k := DigitRun(a[1..]);
      if a[0] == '$' && k > 0 {
        PlaceholdersAppend(a[1..][k..], b);
        AppendAfterParameter(a + b, a, b, k);
      } else {
        PlaceholdersAppend(a[1..], b);
        AppendAfterCharacter(a + b, a, b);
      }
    }
  }

  /** The step of PlaceholdersAppend when `a` opens with a parameter `$` followed by k digits. */
  lemma AppendAfterParameter(ab: string, a: string, b: string, k: nat)
    requires ab == a + b && StartsWithoutDigit(b) && |a| > 0 && a[0] == '$'
    requires k == DigitRun(a[1..]) && k > 0
    requires Placeholders(a[1..][k..] + b) == Placeholders(a[1..][k..]) + Placeholders(b)
    ensures Placeholders(ab) == Placeholders(a) + Placeholders(b)
  {
    ParameterFirst(ab, a, b, k);
    ParameterFirstAlone(a, k);
    ConsAssociative(DigitsValue(a[1..][..k]), Placeholders(a[1..][k..]), Placeholders(b));
  }

  lemma ConsAssociative(v: nat, x: seq<nat>, y: seq<nat>)
    ensures [v] + (x + y) == ([v] + x) + y
  {
  }

  lemma ParameterFirstAlone(a: string, k: nat)
    requires |a| > 0 && a[0] == '$' && k == DigitRun(a[1..]) && k > 0
    ensures AllDigits(a[1..][..k])
    ensures Placeholders(a) == [DigitsValue(a[1..][..k])] + Placeholders(a[1..][k..])
  {
    ParameterFirst(a, a, [], k);
    assert a[1..][k..] + [] == a[1..][k..];
  }

  /** A text that opens with `$` and the k digits at the start of `a[1..]` mentions that parameter first. */
  lemma ParameterFirst(ab: string, a: string, b: string, k: nat)
    requires ab == a + b && StartsWithoutDigit(b) && |a| > 0 && a[0] == '$'
    requires k == DigitRun(a[1..]) && k > 0
    ensures AllDigits(a[1..][..k])
    ensures Placeholders(ab) == [DigitsValue(a[1..][..k])] + Placeholders(a[1..][k..] + b)
  {
    var rest := a[1..];
    assert ab[0] == a[0] && ab[1..] == rest + b;
    DigitRunAppend(rest, b);
    SplitAppend(rest, b, k);
    DigitRunIsDigits(rest);
  }

  /** The step of PlaceholdersAppend when the first character of `a` does not open a parameter. */
  lemma AppendAfterCharacter(ab: string, a: string, b: string)
    requires ab == a + b && StartsWithoutDigit(b) && |a| > 0
    requires !(a[0] == '$' && DigitRun(a[1..]) > 0)
    requires Placeholders(a[1..] + b) == Placeholders(a[1..]) + Placeholders(b)
    ensures Placeholders(ab) == Placeholders(a) + Placeholders(b)
  {
    CharacterFirst(ab, a, b);
    CharacterFirst(a, a, []);
    assert a[1..] + [] == a[1..];
  }

  /** A text whose first character does not open a parameter mentions what the rest mentions. */
  lemma CharacterFirst(ab: string, a: string, b: string)
    requires ab == a + b && StartsWithoutDigit(b) && |a| > 0
    requires !(a[0] == '$' && DigitRun(a[1..]) > 0)
    ensures Placeholders(ab) == Placeholders(a[1..] + b)
  {
    assert ab[0] == a[0] && ab[1..] == a[1..] + b;
    DigitRunAppend(a[1..], b);
  }

  lemma SplitAppend(x: string, y: string, k: nat)
    requires k <= |x|
    ensures (x + y)[..k] == x[..k] && (x + y)[k..] == x[k..] + y
  {
  }

  predicate NoDollar(s: string) {
    forall i :: 0 <= i < |s| ==> s[i] != '$'
  }

  lemma NoDollarAppend(a: string, b: string)
    requires NoDollar(a) && NoDollar(b)
    ensures NoDollar(a + b)
  {
  }

  lemma {:induction false} PlaceholdersNoDollar(s: string)
    requires NoDollar(s)
    ensures Placeholders(s) == []
    decreases |s|
  {
    if |s| > 0 {
      PlaceholdersNoDollar(s[1..]);
    }
  }

  /** `$n`, the way `fmt.Sprintf("$%d", n)` writes it. */
  function Param(n: nat): string {
    "$" + NatToString(n)
  }

  /** A piece of statement text followed by the next parameter. */
  function Clause(text: string, n: nat): string {
    text + Param(n)
  }

  lemma PlaceholdersOfParam(n: nat)
    ensures Placeholders(Param(n)) == [n]
  {
    var s := Param(n);
    var t := NatToString(n);
    assert s[1..] == t;
    DigitsValueOfNatToString(n);
    DigitRunAllDigits(t);
    assert s[1..][..|t|] == t;
    assert s[1..][|t|..] == [];
    DigitsValueOfNatToString(n);
  }

  /** Text without `$` followed by one parameter: the scanner finds exactly that parameter. */
  lemma PlaceholdersOfClause(text: string, n: nat)
    requires NoDollar(text)
    ensures Placeholders(text + Param(n)) == [n]
  {
    PlaceholdersAppend(text, Param(n));
    PlaceholdersNoDollar(text);
    PlaceholdersOfParam(n);
  }
}
