// Decimal texts of integers.
module Decimals {

  predicate Digit(c: char) {
    '0' <= c <= '9'
  }

  predicate Digits(s: string) {
    forall i :: 0 <= i < |s| ==> Digit(s[i])
  }

  // str of a natural number
  function Decimal(n: nat): (r: string)
    ensures r != "" && Digits(r)
  {
    (if n < 10 then "" else Decimal(n / 10)) + [('0' as int + n % 10) as char]
  }

  function FromDecimal(s: string): nat
    requires Digits(s)
  {
    if s == "" then 0
    else
      var n := |s| - 1;
      assert Digit(s[n]);
      10 * FromDecimal(s[..n]) + (s[n] as int - '0' as int)
  }

  lemma {:induction false} LastDigit(d: string, k: nat)
    requires Digits(d) && k < 10
    ensures var s := d + [('0' as int + k) as char]; Digits(s) && FromDecimal(s) == 10 * FromDecimal(d) + k
  {
    var s := d + [('0' as int + k) as char];
    assert s[..|s| - 1] == d;
  }

  lemma {:induction false} DecimalReadsBack(n: nat)
    ensures FromDecimal(Decimal(n)) == n
  {
    hide FromDecimal;
    if n < 10 {
      NoDigits();
      LastDigit("", n);
    } else {
      DecimalReadsBack(n / 10);
      LastDigit(Decimal(n / 10), n % 10);
    }
  }

  lemma {:induction false} NoDigits()
    ensures FromDecimal("") == 0
  {
  }

  // str of an integer, and int() of such a text
  function IntText(x: int): (r: string)
    ensures r != ""
  {
    if x < 0 then "-" + Decimal(-x) else Decimal(x)
  }

  predicate IntLike(s: string) {
    s != "" && if s[0] == '-' then |s| > 1 && Digits(s[1..]) else Digits(s)
  }

  function ReadInt(s: string): int
    requires IntLike(s)
  {
    var n: int := if s[0] == '-' then FromDecimal(s[1..]) else FromDecimal(s);
    if s[0] == '-' then -n else n
  }

  lemma {:induction false} IntReadsBack(x: int)
    ensures IntLike(IntText(x)) && ReadInt(IntText(x)) == x
  {
    var n: nat := if x < 0 then -x else x;
    DecimalReadsBack(n);
    assert Digit(Decimal(n)[0]);
    assert ("-" + Decimal(n))[1..] == Decimal(n);
  }
}
