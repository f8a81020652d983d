/** Decimal numerals, as Python's `str` and `int` write and read them. */
module Digits {

  function DigitChar(d: nat): (c: char)
    requires d < 10
    ensures '0' <= c <= '9'
  {
    '0' + d as char
  }

  predicate IsDigit(c: char) {
    '0' <= c <= '9'
  }

  function DigitValue(c: char): (d: nat)
    requires IsDigit(c)
    ensures d < 10
  {
    (c - '0') as int
  }

  predicate AllDigits(s: string) {
    forall i :: 0 <= i < |s| ==> IsDigit(s[i])
  }

  function Str(n: nat): (s: string)
    ensures |s| > 0 && AllDigits(s)
  {
    if n < 10 then [DigitChar(n)] else Str(n / 10) + [DigitChar(n % 10)]
  }

  function Int(s: string): nat
    requires AllDigits(s)
  {
    if s == "" then 0 else 10 * Int(s[..|s| - 1]) + DigitValue(s[|s| - 1])
  }

  lemma {:induction false} IntOfStr(n: nat)
    ensures Int(Str(n)) == n
  {
    if n >= 10 {
      IntOfStr(n / 10);
      assert Str(n)[..|Str(n)| - 1] == Str(n / 10);
    }
  }

  function StrOfInt(n: int): (s: string)
    ensures |s| > 0 && '/' !in s
  {
    if n < 0 then "-" + Str(-n) else Str(n)
  }

  lemma StrOfIntInjective(m: int, n: int)
    requires StrOfInt(m) == StrOfInt(n)
    ensures m == n
  {
    assert StrOfInt(m)[0] == StrOfInt(n)[0];
    if m < 0 && n < 0 {
      assert Str(-m) == StrOfInt(m)[1..] == StrOfInt(n)[1..] == Str(-n);
      IntOfStr(-m);
      IntOfStr(-n);
    } else if m >= 0 && n >= 0 {
      IntOfStr(m);
      IntOfStr(n);
    }
  }
}
