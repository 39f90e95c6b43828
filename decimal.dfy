/**
 * Decimal notation of integers, as Python's "%d" / str() print them and as
 * int() reads a run of ASCII digits back.
 */
module Decimal {

  predicate IsDigit(c: char)
  {
    '0' <= c <= '9'
  }

  predicate AllDigits(s: string)
  {
    forall i :: 0 <= i < |s| ==> IsDigit(s[i])
  }

  function DigitValue(c: char): nat
    requires IsDigit(c)
  {
    (c as int) - ('0' as int)
  }

  function DigitChar(d: nat): (c: char)
    requires d < 10
    ensures IsDigit(c) && DigitValue(c) == d
  {
    (('0' as int) + d) as char
  }

  /** int(s) for a string of ASCII digits (leading zeros allowed). */
  function ValueOf(s: string): nat
    requires AllDigits(s)
  {
    if s == [] then 0 else ValueOf(s[..|s| - 1]) * 10 + DigitValue(s[|s| - 1])
  }

  /** "%d" % n for a natural number: no sign, no leading zeros. */
  function Show(n: nat): (s: string)
    ensures |s| > 0 && AllDigits(s)
  {
    if n < 10 then [DigitChar(n)] else Show(n / 10) + [DigitChar(n % 10)]
  }

  /** "%d" % i for any integer. */
  function ShowInt(i: int): string
  {
    if i < 0 then "-" + Show(-i) else Show(i)
  }

  /** Reading back what Show printed gives the number. */
  lemma {:induction false} ValueOfShow(n: nat)
    ensures ValueOf(Show(n)) == n
  {
    var s := Show(n);
    if n >= 10 {
      ValueOfShow(n / 10);
      assert s[..|s| - 1] == Show(n / 10);
    }
  }

  /** Show never begins with a zero except for the number zero itself. */
  lemma ShowFirstDigit(n: nat)
    ensures Show(n)[0] == '0' <==> n == 0
  {
    if n >= 10 {
      ShowFirstDigit(n / 10);
    }
  }
}
