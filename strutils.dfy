/** Integer recognition and parsing on top of strconv (utils/strutils/numeric.go). */
module StrUtils {
  import opened Wrappers

  /** The width of Go's int on the 64-bit platforms the worker runs on. */
  const IntSize: nat := 64

  /** A value or a panic: lo.Must panics when the parse it wraps fails. */
  datatype Must<T> = Value(value: T) | Panic

  /** The int64 range. */
  const MinInt64: int := -0x8000_0000_0000_0000
  const MaxInt64: int := 0x7fff_ffff_ffff_ffff

  predicate InInt64(v: int) { MinInt64 <= v <= MaxInt64 }

  predicate IsDigit(c: char) { '0' <= c <= '9' }

  predicate AllDigits(s: string) { forall i :: 0 <= i < |s| ==> IsDigit(s[i]) }

  predicate IsSign(c: char) { c == '+' || c == '-' }

  /** The digits after an optional leading sign. */
  function Magnitude(s: string): string
  {
    if |s| > 0 && IsSign(s[0]) then s[1..] else s
  }

  /** The syntax strconv accepts in base 10: an optional sign, then one or more decimal digits. */
  predicate DecimalSyntax(s: string)
  {
    |Magnitude(s)| > 0 && AllDigits(Magnitude(s))
  }

  /** The value of a string of decimal digits, most significant first. */
  function DigitsValue(ds: string): (v: int)
    requires AllDigits(ds)
    ensures v >= 0
  {
    if |ds| == 0 then 0
    else DigitsValue(ds[..|ds| - 1]) * 10 + (ds[|ds| - 1] as int - '0' as int)
  }

  /** The value a well-formed decimal string denotes, before any range check. */
  function DecimalValue(s: string): int
    requires DecimalSyntax(s)
  {
    if |s| > 0 && s[0] == '-' then -DigitsValue(Magnitude(s)) else DigitsValue(Magnitude(s))
  }

  /** strconv.ParseInt(s, 10, 64): the value, or nil (an error) on bad syntax or out of range. */
  function ParseInt64(s: string): (r: Option<int>)
    ensures r.Some? <==> DecimalSyntax(s) && InInt64(DecimalValue(s))
    ensures r.Some? ==> r.value == DecimalValue(s)
  {
    if |s| == 0 then None
    else
      var digits := if IsSign(s[0]) then s[1..] else s;
      if |digits| == 0 || !AllDigits(digits) then None
      else
        var v := if s[0] == '-' then -DigitsValue(digits) else DigitsValue(digits);
        if InInt64(v) then Some(v) else None
  }

  /** strconv.Atoi(s): ParseInt at the platform's int width, which is 64 bits here. */
  function Atoi(s: string): (r: Option<int>)
    ensures r.Some? <==> DecimalSyntax(s) && InInt64(DecimalValue(s))
    ensures r.Some? ==> r.value == DecimalValue(s)
  {
    ParseInt64(s)
  }

  /** IsInteger: true exactly when Atoi accepts s. The empty string and a lone sign are rejected. */
  predicate IsInteger(s: string)
    ensures IsInteger(s) ==> s != "" && s != "+" && s != "-"
    ensures IsInteger(s) <==> DecimalSyntax(s) && InInt64(DecimalValue(s))
  {
    Atoi(s).Some?
  }

  /** MustInt: Atoi's value, or a panic on invalid input. */
  function MustInt(s: string): (r: Must<int>)
    ensures r.Value? <==> IsInteger(s)
    ensures r.Value? ==> r.value == DecimalValue(s) && InInt64(r.value)
  {
    match Atoi(s)
    case Some(v) => Value(v)
    case None => Panic
  }

  /** MustInt64: the base-10 int64 value, or a panic on invalid input. */
  function MustInt64(s: string): (r: Must<int>)
    ensures r.Value? ==> DecimalSyntax(s) && r.value == DecimalValue(s) && InInt64(r.value)
  {
    match ParseInt64(s)
    case Some(v) => Value(v)
    case None => Panic
  }

  /** With a 64-bit int, whatever IsInteger accepts MustInt64 parses without panicking, to the same value. */
  lemma IsIntegerMustInt64(s: string)
    ensures IsInteger(s) <==> MustInt64(s).Value?
    ensures IsInteger(s) ==> MustInt64(s) == MustInt(s)
  {
  }

  /** The decimal digits of a natural number (strconv.FormatInt for n >= 0): the inverse of parsing. */
  function FormatNat(n: nat): (s: string)
    ensures |s| > 0 && AllDigits(s)
  {
    if n < 10 then [('0' as int + n) as char]
    else FormatNat(n / 10) + [('0' as int + n % 10) as char]
  }

  /** strconv.FormatInt(n, 10): a minus sign for negative numbers, then the digits. */
  function FormatInt(n: int): string
  {
    if n < 0 then "-" + FormatNat(-n) else FormatNat(n)
  }

  lemma {:induction false} DigitsValueFormatNat(n: nat)
    ensures DigitsValue(FormatNat(n)) == n
  {
    if n >= 10 {
      DigitsValueFormatNat(n / 10);
      var s := FormatNat(n);
      assert s[..|s| - 1] == FormatNat(n / 10);
    }
  }

  /** The digits FormatNat writes are well-formed decimal syntax denoting n. */
  lemma FormatNatDecimal(n: nat)
    ensures Magnitude(FormatNat(n)) == FormatNat(n) && DecimalSyntax(FormatNat(n)) && DecimalValue(FormatNat(n)) == n
  {
    var s := FormatNat(n);
    DigitsValueFormatNat(n);
    assert IsDigit(s[0]);
  }

  /** Atoi reads back every int64 that FormatInt writes: the two are inverse on the int range. */
  lemma AtoiFormatInt(n: int)
    requires InInt64(n)
    ensures IsInteger(FormatInt(n)) && Atoi(FormatInt(n)) == Some(n)
  {
    if n < 0 {
      var m, s := FormatNat(-n), FormatInt(n);
      FormatNatDecimal(-n);
      assert s == "-" + m && s[1..] == m;
      assert Magnitude(s) == m;
      assert DecimalValue(s) == -DigitsValue(m);
    } else {
      FormatNatDecimal(n);
    }
  }

  /** A sign is part of the syntax: "+7" and "-7" are integers, "+" and "" are not. */
  lemma SignExamples()
    ensures IsInteger("+7") && IsInteger("-7") && !IsInteger("+") && !IsInteger("")
  {
    assert DigitsValue("7") == 7;
  }
}
