/**
  Decimal conversion between Go's `int` and strings, as `strconv.Atoi` and `strconv.Itoa`
  perform it: an optional sign, then one or more ASCII digits, within the 64-bit range.
*/
module Strconv {
  import opened Wrappers
  import opened Bytes

  predicate IsDigit(c: char)
  {
    '0' <= c <= '9'
  }

  predicate AllDigits(s: string)
  {
    forall i :: 0 <= i < |s| ==> IsDigit(s[i])
  }

  function DigitChar(d: nat): (c: char)
    requires d < 10
    ensures IsDigit(c)
  {
    (d + '0' as int) as char
  }

  /** The number a string of decimal digits denotes, read from the left. */
  function DigitsValue(s: string): nat
    requires AllDigits(s)
  {
    if s == [] then 0 else DigitsValue(s[..|s| - 1]) * 10 + (s[|s| - 1] as int - '0' as int)
  }

  /** The decimal digits of a natural number, without leading zeros. */
  function NatDigits(m: nat): (s: string)
    ensures |s| > 0 && AllDigits(s)
  {
    if m < 10 then [DigitChar(m)] else NatDigits(m / 10) + [DigitChar(m % 10)]
  }

  lemma {:induction false} NatDigitsValue(m: nat)
    ensures DigitsValue(NatDigits(m)) == m
  {
    if m >= 10 {
      var s := NatDigits(m);
      assert s[..|s| - 1] == NatDigits(m / 10);
      NatDigitsValue(m / 10);
    }
  }

  /** `strconv.Itoa`. */
  function Itoa(n: int): (s: string)
    ensures |s| > 0
    ensures n >= 0 <==> IsDigit(s[0])
  {
    if n < 0 then "-" + NatDigits(-n) else NatDigits(n)
  }

  /** `s` is a decimal numeral: an optional '+' or '-', then at least one digit. */
  predicate IsNumeral(s: string)
  {
    |s| > 0
    && (s[0] == '+' || s[0] == '-' ==> |s| > 1 && AllDigits(s[1..]))
    && (s[0] != '+' && s[0] != '-' ==> AllDigits(s))
  }

  /** The number a numeral denotes, negated after a '-'. */
  function NumeralValue(s: string): int
    requires IsNumeral(s)
  {
    if s[0] == '-' then -(DigitsValue(s[1..]) as int)
    else if s[0] == '+' then DigitsValue(s[1..])
    else DigitsValue(s)
  }

  /**
    `strconv.Atoi`: a value on success, None where Go reports a syntax or range error.
    A sign is accepted only when digits follow it; the empty string is an error.
  */
  function Atoi(s: string): (r: Option<int64>)
    ensures r.Some? <==> IsNumeral(s) && MinInt64 <= NumeralValue(s) <= MaxInt64
    ensures r.Some? ==> r.value == NumeralValue(s)
  {
    if |s| == 0 then None
    else
      var negative := s[0] == '-';
      var digits := if s[0] == '-' || s[0] == '+' then s[1..] else s;
      if |digits| == 0 || !AllDigits(digits) then None
      else
        var v: int := if negative then -(DigitsValue(digits) as int) else DigitsValue(digits);
        if MinInt64 <= v <= MaxInt64 then Some(v) else None
  }

  /** Parsing what Itoa printed gives the number back. */
  lemma ItoaRoundTrip(n: int64)
    ensures Atoi(Itoa(n)) == Some(n)
  {
    if n < 0 {
      var m: nat := -(n as int);
      assert Itoa(n)[1..] == NatDigits(m);
      NatDigitsValue(m);
    } else {
      NatDigitsValue(n);
    }
  }
}
