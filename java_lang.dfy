/** The few `java.lang` behaviours the helper relies on: 32-bit `int`,
    `Integer.parseInt`, the decimal text of an `int` (`"" + n`), and the
    `(int)` cast of a floating-point value. */
module JavaLang {
  import opened Wrappers

  const IntMin: int := -0x8000_0000
  const IntMax: int := 0x7fff_ffff

  /** The values of a Java `int`. */
  predicate IsInt(n: int)
  {
    IntMin <= n <= IntMax
  }

  predicate IsDigit(c: char)
  {
    '0' <= c <= '9'
  }

  predicate AllDigits(s: string)
  {
    forall i :: 0 <= i < |s| ==> IsDigit(s[i])
  }

  function DigitValue(c: char): (d: nat)
    requires IsDigit(c)
    ensures d < 10
  {
    c as int - '0' as int
  }

  function DigitChar(d: nat): (c: char)
    requires d < 10
    ensures IsDigit(c) && DigitValue(c) == d
  {
    ('0' as int + d) as char
  }

  /** The number a string of decimal digits denotes, most significant first. */
  function DigitsValue(s: string): nat
    requires AllDigits(s)
  {
    if s == [] then 0 else DigitsValue(s[..|s| - 1]) * 10 + DigitValue(s[|s| - 1])
  }

  /** Text `Integer.parseInt` accepts: an optional `+` or `-`, then at least
      one digit. */
  predicate IsDecimal(s: string)
  {
    (s != [] && AllDigits(s)) || (|s| > 1 && s[0] in "+-" && AllDigits(s[1..]))
  }

  /** `Integer.parseInt(s)`, with `None` where Java throws
      `NumberFormatException`: text that is not decimal, or whose value does
      not fit in an `int`. */
  function ParseInt(s: string): (r: Option<int>)
    ensures r.Some? ==> IsDecimal(s) && IsInt(r.value)
    ensures s != [] && AllDigits(s) && DigitsValue(s) <= IntMax ==> r == Some(DigitsValue(s))
    ensures s != [] && AllDigits(s) && DigitsValue(s) > IntMax ==> r == None
    ensures |s| > 1 && s[0] == '-' && AllDigits(s[1..]) ==>
              r == if -(DigitsValue(s[1..]) as int) >= IntMin then Some(-(DigitsValue(s[1..]) as int)) else None
    ensures |s| > 1 && s[0] == '+' && AllDigits(s[1..]) ==>
              r == if DigitsValue(s[1..]) <= IntMax then Some(DigitsValue(s[1..])) else None
  {
    if s == [] then None
    else if s[0] in "+-" then
      if |s| == 1 || !AllDigits(s[1..]) then None
      else
        var v: int := if s[0] == '-' then -(DigitsValue(s[1..]) as int) else DigitsValue(s[1..]);
        if IsInt(v) then Some(v) else None
    else if !AllDigits(s) then None
    else if IsInt(DigitsValue(s)) then Some(DigitsValue(s))
    else None
  }

  /** The decimal digits of a natural number, without leading zeros. */
  function NatDigits(n: nat): (s: string)
    ensures |s| >= 1 && AllDigits(s)
    ensures s[0] == '0' ==> n == 0 && s == "0"
  {
    if n < 10 then [DigitChar(n)] else NatDigits(n / 10) + [DigitChar(n % 10)]
  }

  /** `"" + n` for an `int` n: a minus sign for negative values, then the
      digits of the magnitude. */
  function IntToString(n: int): (s: string)
    ensures |s| >= 1
    ensures s[0] == '-' <==> n < 0
    ensures n >= 0 ==> AllDigits(s) && (s[0] == '0' ==> s == "0")
    ensures n < 0 ==> |s| > 1 && AllDigits(s[1..]) && s[1] != '0'
  {
    if n < 0 then "-" + NatDigits(-n) else NatDigits(n)
  }

  /** Reading back the digits of n gives n. */
  lemma {:induction false} DigitsValueOfNatDigits(n: nat)
    ensures DigitsValue(NatDigits(n)) == n
  {
    var s := NatDigits(n);
    if n >= 10 {
      DigitsValueOfNatDigits(n / 10);
      assert s[..|s| - 1] == NatDigits(n / 10);
    }
  }

  /** `Integer.parseInt` reads back the decimal text of every `int`. */
  lemma ParseIntOfIntToString(n: int)
    requires IsInt(n)
    ensures ParseInt(IntToString(n)) == Some(n)
  {
    if n < 0 {
      assert IntToString(n) == "-" + NatDigits(-n);
      ParseIntOfMinusDigits(-n);
    } else {
      assert IntToString(n) == NatDigits(n);
      ParseIntOfDigits(n);
    }
  }

  /** The digits of a natural number within `int` range parse back to it. */
  lemma ParseIntOfDigits(m: nat)
    requires m <= IntMax
    ensures ParseInt(NatDigits(m)) == Some(m)
  {
    DigitsValueOfNatDigits(m);
  }

  /** A minus sign before the digits of a positive number within `int`
      range parses back to its negation. */
  lemma ParseIntOfMinusDigits(m: nat)
    requires 0 < m <= -IntMin
    ensures ParseInt("-" + NatDigits(m)) == Some(-(m as int))
  {
    var s := "-" + NatDigits(m);
    assert s[1..] == NatDigits(m);
    DigitsValueOfNatDigits(m);
  }

  /** `(int) x` for a floating-point x: rounds toward zero and saturates at
      the bounds of `int`. */
  function TruncateToInt(x: real): (r: int)
    ensures IsInt(r)
    ensures x >= 0.0 ==> 0 <= r && r as real <= x && (x < r as real + 1.0 || r == IntMax)
    ensures x < 0.0 ==> r <= 0 && x <= r as real && (r as real - 1.0 < x || r == IntMin)
  {
    if x >= IntMax as real then IntMax
    else if x <= IntMin as real then IntMin
    else if x >= 0.0 then x.Floor
    else -((-x).Floor)
  }
}
