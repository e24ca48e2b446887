// Quotients, for code that divides.
module Arithmetic {

  lemma {:induction false} MultipleBound(d: nat, x: int)
    ensures x >= 1 ==> d * x >= d
    ensures x <= -1 ==> d * x + d <= 0
  {
  }

  lemma {:induction false} Division(n: nat, q: nat, r: nat, d: nat)
    requires n == d * q + r && r < d
    ensures n / d == q && n % d == r
  {
    assert n == d * (n / d) + n % d;
    MultipleBound(d, n / d - q);
    assert d * (n / d - q) == d * (n / d) - d * q;
  }
}
