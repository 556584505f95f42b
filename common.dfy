/** Optional values and results, used for the Go functions that return an `error`. */
module Wrappers {

  datatype Option<+T> = None | Some(value: T)

  datatype Result<+T, +E> = Success(value: T) | Failure(error: E)
}

/**
 * Decimal text for integers: the `%d` verb of Go's fmt package (for
 * non-negative values) and Go's strconv.Atoi on a 64-bit platform.
 */
module Decimal {
  import opened Wrappers

  const Int64Min: int := -0x8000_0000_0000_0000
  const Int64Max: int := 0x7fff_ffff_ffff_ffff

  const Two64: int := 0x1_0000_0000_0000_0000

  /** Go's 64-bit `int` arithmetic: the result is taken modulo 2^64 into the int64 range. */
  function WrapInt64(x: int): (r: int)
    ensures Int64Min <= r <= Int64Max
    ensures Int64Min <= x <= Int64Max ==> r == x
    ensures (x - r) % Two64 == 0
  {
    (x - Int64Min) % Two64 + Int64Min
  }

  predicate IsDigit(c: char) {
    '0' <= c <= '9'
  }

  predicate AllDigits(s: string) {
    forall i :: 0 <= i < |s| ==> IsDigit(s[i])
  }

  function DigitChar(d: nat): (c: char)
    requires d < 10
    ensures IsDigit(c)
  {
    (d + '0' as int) as char
  }

  function DigitValue(c: char): (d: nat)
    requires IsDigit(c)
    ensures d < 10
  {
    c as int - '0' as int
  }

  /** The decimal text of `n`, as `fmt.Sprintf("%d", n)` writes it: no sign, no leading zeros. */
  function NatToString(n: nat): (s: string)
    ensures 1 <= |s|
    ensures |s| > 1 ==> s[0] != '0'
    decreases n
  {
    if n < 10 then [DigitChar(n)] else NatToString(n / 10) + [DigitChar(n % 10)]
  }

  /** The number a string of decimal digits denotes (leading zeros allowed). */
  function DigitsValue(s: string): nat
    requires AllDigits(s)
    decreases |s|
  {
    if s == [] then 0 else 10 * DigitsValue(s[..|s| - 1]) + DigitValue(s[|s| - 1])
  }

  lemma {:induction false} DigitValueOfDigitChar(d: nat)
    requires d < 10
    ensures DigitValue(DigitChar(d)) == d
  {
  }

  /** Reading back what NatToString wrote gives the number again. */
  lemma {:induction false} DigitsValueOfNatToString(n: nat)
    ensures AllDigits(NatToString(n)) && DigitsValue(NatToString(n)) == n
    decreases n
  {
    var s := NatToString(n);
    if n < 10 {
      DigitValueOfDigitChar(n);
    } else {
      assert s == NatToString(n / 10) + [DigitChar(n % 10)];
      assert s[..|s| - 1] == NatToString(n / 10);
      DigitsValueOfNatToString(n / 10);
      DigitValueOfDigitChar(n % 10);
    }
  }

  /** Different numbers have different decimal texts. */
  lemma NatToStringInjective(m: nat, n: nat)
    requires NatToString(m) == NatToString(n)
    ensures m == n
  {
    DigitsValueOfNatToString(m);
    DigitsValueOfNatToString(n);
  }

  predicate IsSign(c: char) {
    c == '+' || c == '-'
  }

  /** The text strconv.Atoi parses: one optional sign, then at least one digit, and nothing else. */
  predicate IsDecimalText(s: string) {
    && |s| >= 1
    && (IsDigit(s[0]) || (IsSign(s[0]) && |s| >= 2))
    && forall i :: 1 <= i < |s| ==> IsDigit(s[i])
  }

  /** Digits read left to right, each one as `n = n*10 + d`, starting from `acc`. */
  function ScanDigits(acc: nat, s: string): nat
    requires AllDigits(s)
    decreases |s|
  {
    if s == [] then acc else ScanDigits(10 * acc + DigitValue(s[0]), s[1..])
  }

  /** The integer a decimal text denotes: its digits scanned from the left, negated after a '-'. */
  function TextValue(s: string): int
    requires IsDecimalText(s)
  {
    if IsSign(s[0]) then
      assert AllDigits(s[1..]) by { assert forall i :: 0 <= i < |s| - 1 ==> s[1..][i] == s[i + 1]; }
      var m: int := ScanDigits(0, s[1..]);
      if s[0] == '-' then -m else m
    else ScanDigits(DigitValue(s[0]), s[1..])
  }

  lemma {:induction false} ScanDigitsSnoc(acc: nat, s: string, c: char)
    requires AllDigits(s) && IsDigit(c)
    ensures AllDigits(s + [c]) && ScanDigits(acc, s + [c]) == 10 * ScanDigits(acc, s) + DigitValue(c)
    decreases |s|
  {
    if s == [] {
      assert s + [c] == [c] && [c][1..] == [];
    } else {
      assert (s + [c])[1..] == s[1..] + [c];
      ScanDigitsSnoc(10 * acc + DigitValue(s[0]), s[1..], c);
    }
  }

  /** Scanning from the left gives the value DigitsValue builds from the right. */
  lemma {:induction false} ScanDigitsValue(s: string)
    requires AllDigits(s)
    ensures ScanDigits(0, s) == DigitsValue(s)
    decreases |s|
  {
    if s != [] {
      var init := s[..|s| - 1];
      assert s == init + [s[|s| - 1]];
      ScanDigitsValue(init);
      ScanDigitsSnoc(0, init, s[|s| - 1]);
    }
  }

  /** Splitting off the sign the way Atoi does recognises exactly the decimal texts, with their value. */
  lemma DecimalTextParts(s: string, digits: string)
    requires |s| >= 1 && digits == if IsSign(s[0]) then s[1..] else s
    ensures (|digits| >= 1 && AllDigits(digits)) <==> IsDecimalText(s)
    ensures IsDecimalText(s) ==>
      TextValue(s) == if s[0] == '-' then -(DigitsValue(digits) as int) else DigitsValue(digits)
  {
    if IsSign(s[0]) {
      assert forall i :: 0 <= i < |digits| ==> digits[i] == s[i + 1];
    }
    if IsDecimalText(s) {
      ScanDigitsValue(digits);
    }
  }

  /**
   * strconv.Atoi on a 64-bit platform: an optional '+' or '-', then at least
   * one decimal digit and nothing else, with a value that fits in an int64.
   */
  function Atoi(s: string): (r: Option<int>)
    ensures r.Some? <==> IsDecimalText(s) && Int64Min <= TextValue(s) <= Int64Max
    ensures r.Some? ==> r.value == TextValue(s)
  {
    if |s| == 0 then None
    else
      var digits := if s[0] == '+' || s[0] == '-' then s[1..] else s;
      DecimalTextParts(s, digits);
      if |digits| == 0 || !AllDigits(digits) then None
      else
        var v: int := if s[0] == '-' then -(DigitsValue(digits) as int) else DigitsValue(digits);
        if Int64Min <= v <= Int64Max then Some(v) else None
  }

  /** Atoi reads back every int64 that `%d` writes. */
  lemma AtoiOfNatToString(n: nat)
    requires n <= Int64Max
    ensures Atoi(NatToString(n)) == Some(n)
  {
    var s := NatToString(n);
    DigitsValueOfNatToString(n);
    assert s[0] != '+' && s[0] != '-' by { assert IsDigit(s[0]); }
  }

  /** A sign in front of the digits is read as well: '-' negates, '+' does not. */
  lemma AtoiOfSigned(n: nat)
    ensures n <= -Int64Min ==> Atoi("-" + NatToString(n)) == Some(-(n as int))
    ensures n <= Int64Max ==> Atoi("+" + NatToString(n)) == Some(n)
  {
    DigitsValueOfNatToString(n);
    assert ("-" + NatToString(n))[1..] == NatToString(n);
    assert ("+" + NatToString(n))[1..] == NatToString(n);
  }
}
