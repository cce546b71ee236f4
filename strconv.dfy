/**
 * A model of Go's strconv.Atoi on a 64-bit platform, as the fixture
 * discovery uses it to turn a directory name into its ordering key.
 *
 * Atoi(s) behaves as ParseInt(s, 10, 64): an optional '+' or '-', then one
 * or more decimal digits (no underscores, no base prefix, no spaces), with
 * a value in the int64 range. The digits are scanned left to right as
 * ParseUint does, so the first problem met decides the error: a character
 * that is not a digit gives ErrSyntax, an accumulated value above 2^64 - 1
 * gives ErrRange, and a value that fits in uint64 but not in int64 gives
 * ErrRange once the sign is applied.
 */
module Strconv {
  import opened Wrappers

  const MaxUint64: nat := 0xFFFF_FFFF_FFFF_FFFF
  const MaxInt64: int := 0x7FFF_FFFF_FFFF_FFFF
  const MinInt64: int := -0x8000_0000_0000_0000

  /** The two causes a *strconv.NumError can carry. */
  datatype NumError = ErrSyntax | ErrRange

  predicate IsDigit(c: char) {
    '0' <= c <= '9'
  }

  function DigitValue(c: char): (d: nat)
    requires IsDigit(c)
    ensures d < 10
  {
    c as int - '0' as int
  }

  predicate AllDigits(s: string) {
    forall i :: 0 <= i < |s| ==> IsDigit(s[i])
  }

  predicate InInt64(v: int) {
    MinInt64 <= v <= MaxInt64
  }

  // ---------------------------------------------------------------------
  // Reference definition: what a decimal numeral denotes.
  // ---------------------------------------------------------------------

  function Pow10(n: nat): (p: nat)
    ensures p >= 1
  {
    if n == 0 then 1 else 10 * Pow10(n - 1)
  }

  /** Positional value of a digit string: the leading digit weighs 10^(|s|-1). */
  function DecimalValue(s: string): nat
    requires AllDigits(s)
  {
    if s == [] then 0 else DigitValue(s[0]) * Pow10(|s| - 1) + DecimalValue(s[1..])
  }

  predicate HasSign(s: string) {
    |s| > 0 && (s[0] == '+' || s[0] == '-')
  }

  /** The characters after an optional leading sign. */
  function Magnitude(s: string): string {
    if HasSign(s) then s[1..] else s
  }

  /** An optional sign followed by at least one decimal digit. */
  predicate IsNumeral(s: string) {
    Magnitude(s) != [] && AllDigits(Magnitude(s))
  }

  function NumeralValue(s: string): int
    requires IsNumeral(s)
  {
    var v: int := DecimalValue(Magnitude(s));
    if s[0] == '-' then -v else v
  }

  // ---------------------------------------------------------------------
  // The parser, step by step as strconv scans.
  // ---------------------------------------------------------------------

  /** ParseUint's loop for base 10: acc is the value of the digits seen so far. */
  function ScanDigits(s: string, acc: nat): Result<nat, NumError>
  {
    if s == [] then Ok(acc)
    else if !IsDigit(s[0]) then Err(ErrSyntax)
    else if acc * 10 + DigitValue(s[0]) > MaxUint64 then Err(ErrRange)
    else ScanDigits(s[1..], acc * 10 + DigitValue(s[0]))
  }

  /** ParseUint(s, 10, 64): the empty string is a syntax error. */
  function ParseUint(s: string): Result<nat, NumError>
  {
    if s == [] then Err(ErrSyntax) else ScanDigits(s, 0)
  }

  /** Atoi(s), that is ParseInt(s, 10, 64). */
  function Atoi(s: string): (r: Result<int, NumError>)
    ensures r.Ok? ==> InInt64(r.value)
  {
    if s == [] then Err(ErrSyntax)
    else
      var neg := s[0] == '-';
      var digits := if s[0] == '+' || neg then s[1..] else s;
      match ParseUint(digits)
      case Err(e) => Err(e)
      case Ok(n) =>
        var u: int := n;
        if !neg && u > MaxInt64 then Err(ErrRange)
        else if neg && u > -MinInt64 then Err(ErrRange)
        else if neg then Ok(-u)
        else Ok(u)
  }

  // ---------------------------------------------------------------------
  // Lemmas tying the parser to the reference definition.
  // ---------------------------------------------------------------------

  lemma MulMonotone(a: nat, b: nat, c: nat)
    requires a <= b
    ensures a * c <= b * c
  {
  }

  lemma {:induction false} DecimalValueBelow(s: string)
    requires AllDigits(s)
    ensures DecimalValue(s) < Pow10(|s|)
  {
    if s != [] {
      DecimalValueBelow(s[1..]);
      MulMonotone(DigitValue(s[0]), 9, Pow10(|s| - 1));
    }
  }

  lemma {:induction false} Pow10Monotone(m: nat, n: nat)
    requires m <= n
    ensures Pow10(m) <= Pow10(n)
  {
    if m < n {
      Pow10Monotone(m, n - 1);
    }
  }

  lemma ShiftDigit(acc: nat, d: nat, p: nat, rest: nat)
    ensures acc * (10 * p) + (d * p + rest) == (acc * 10 + d) * p + rest
  {
  }

  lemma Pow10Of19()
    ensures Pow10(19) == 10_000_000_000_000_000_000
  {
    assert Pow10(4) == 10_000;
    assert Pow10(8) == 100_000_000;
    assert Pow10(12) == 1_000_000_000_000;
    assert Pow10(16) == 10_000_000_000_000_000;
  }

  /** On digits, the scan computes the positional value unless it overflows uint64. */
  lemma {:induction false} ScanDigitsValue(s: string, acc: nat)
    requires AllDigits(s) && acc <= MaxUint64
    ensures var v := acc * Pow10(|s|) + DecimalValue(s);
            ScanDigits(s, acc) == if v <= MaxUint64 then Ok(v) else Err(ErrRange)
  {
    if s != [] {
      var n := acc * 10 + DigitValue(s[0]);
      var p := Pow10(|s| - 1);
      ShiftDigit(acc, DigitValue(s[0]), p, DecimalValue(s[1..]));
      if n <= MaxUint64 {
        ScanDigitsValue(s[1..], n);
      } else {
        MulMonotone(1, p, n);
      }
    }
  }

  /** The scan succeeds only on strings made of digits. */
  lemma {:induction false} ScanDigitsOnlyDigits(s: string, acc: nat)
    requires ScanDigits(s, acc).Ok?
    ensures AllDigits(s)
  {
    if s != [] {
      ScanDigitsOnlyDigits(s[1..], acc * 10 + DigitValue(s[0]));
    }
  }

  /**
   * A string that is not all digits, and too short for its digits to
   * overflow uint64 before the first bad character, is a syntax error.
   */
  lemma {:induction false} ScanDigitsSyntax(s: string, acc: nat)
    requires !AllDigits(s)
    requires (acc + 1) * Pow10(|s| - 1) <= MaxUint64 + 1
    ensures ScanDigits(s, acc) == Err(ErrSyntax)
  {
    if IsDigit(s[0]) {
      var n := acc * 10 + DigitValue(s[0]);
      assert !AllDigits(s[1..]) by {
        var i :| 0 <= i < |s| && !IsDigit(s[i]);
        assert s[1..][i - 1] == s[i];
      }
      var p := Pow10(|s| - 2);
      assert Pow10(|s| - 1) == 10 * p;
      MulMonotone(n + 1, 10 * (acc + 1), p);
      assert (n + 1) * p <= (acc + 1) * Pow10(|s| - 1);
      MulMonotone(1, p, n + 1);
      ScanDigitsSyntax(s[1..], n);
    }
  }

  /** Atoi accepts exactly the numerals whose value fits in int64, with that value. */
  lemma AtoiIsNumeralValue(s: string)
    ensures Atoi(s).Ok? <==> IsNumeral(s) && InInt64(NumeralValue(s))
    ensures Atoi(s).Ok? ==> Atoi(s).value == NumeralValue(s)
  {
    var m := Magnitude(s);
    if s != [] && m != [] {
      if AllDigits(m) {
        ScanDigitsValue(m, 0);
      } else if ScanDigits(m, 0).Ok? {
        ScanDigitsOnlyDigits(m, 0);
      }
    }
  }

  /** A numeral outside the int64 range is a range error, never a syntax error. */
  lemma AtoiOutOfRange(s: string)
    requires IsNumeral(s) && !InInt64(NumeralValue(s))
    ensures Atoi(s) == Err(ErrRange)
  {
    ScanDigitsValue(Magnitude(s), 0);
  }

  /** Any name of up to 20 characters that is not a numeral is a syntax error. */
  lemma AtoiShortNonNumeral(s: string)
    requires !IsNumeral(s) && |s| <= 20
    ensures Atoi(s) == Err(ErrSyntax)
  {
    var m := Magnitude(s);
    if m != [] {
      Pow10Monotone(|m| - 1, 19);
      Pow10Of19();
      ScanDigitsSyntax(m, 0);
    }
  }

  /** A leading sign is accepted, so "-3" is a valid key. */
  lemma AtoiAcceptsSign()
    ensures Atoi("-3") == Ok(-3) && Atoi("+3") == Ok(3) && Atoi("007") == Ok(7)
  {
    assert Magnitude("-3") == "3" && Magnitude("+3") == "3" && Magnitude("007") == "007";
    assert DecimalValue("3") == 3;
    assert "007"[1..] == "07" && "07"[1..] == "7";
    assert DecimalValue("007") == 7;
    AtoiIsNumeralValue("-3");
    AtoiIsNumeralValue("+3");
    AtoiIsNumeralValue("007");
  }

  lemma AtoiRejectsMalformed()
    ensures Atoi("") == Err(ErrSyntax) && Atoi("+") == Err(ErrSyntax)
    ensures Atoi("1_0") == Err(ErrSyntax) && Atoi(" 1") == Err(ErrSyntax)
  {
    assert "+"[1..] == "";
    assert "1_0"[1..] == "_0";
  }
}
