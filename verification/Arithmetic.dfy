/** The nonlinear facts behind mixed-radix positions. */
module Arithmetic {
  lemma SmallMultiple(m: int, x: int)
    requires 0 - m < m * x < m
    ensures x == 0
  {}

  lemma DivUnique(n: nat, m: nat, d: nat, r: nat)
    requires r < m && n == m * d + r
    ensures n / m == d && n % m == r
  {
    var d', r' := n / m, n % m;
    assert n == m * d' + r';
    assert m * (d - d') == m * d - m * d' == r' - r;
    SmallMultiple(m, d - d');
  }

  lemma DivOfSum(x: nat, r: nat, p: nat)
    requires p > 0
    ensures (p * x + r) / p == x + r / p
  {
    assert r == p * (r / p) + r % p;
    assert p * (x + r / p) == p * x + p * (r / p);
    DivUnique(p * x + r, p, x + r / p, r % p);
  }

  lemma ModOfSum(x: nat, r: nat, c: nat)
    requires c > 0
    ensures (c * x + r) % c == r % c
  {
    assert r == c * (r / c) + r % c;
    assert c * (x + r / c) == c * x + c * (r / c);
    DivUnique(c * x + r, c, x + r / c, r % c);
  }

  lemma OneMore(m: nat, n: nat)
    ensures m * (n + 1) == m * n + m
  {}

  /** A digit below position p*c is not affected by reducing modulo a multiple of p*c. */
  lemma LowDigit(k: nat, p: nat, c: nat, q: nat, m: nat)
    requires p > 0 && c > 0 && m > 0 && m == p * c * q
    ensures (k % m / p) % c == (k / p) % c
  {
    var a, r := k / m, k % m;
    var x := q * a;
    assert k == m * a + r;
    assert m * a == p * (c * x) by { Reassociate(p, c, q, a); }
    DivOfSum(c * x, r, p);
    ModOfSum(x, r / p, c);
  }

  lemma Reassociate(p: nat, c: nat, q: nat, a: nat)
    ensures (p * c * q) * a == p * (c * (q * a))
  {
    assert (p * c * q) * a == (p * c) * (q * a);
    assert (p * c) * (q * a) == p * (c * (q * a));
  }

  lemma QuotientBound(k: nat, m: nat, c: nat)
    requires m > 0 && k < m * c
    ensures k / m < c
  {}

  lemma PositionBound(m: nat, d: nat, c: nat, low: nat)
    requires low < m && d < c
    ensures m * d + low < m * c
  {
    assert m * c == m * d + m * (c - d);
    assert m * (c - d) == m + m * (c - d - 1);
    assert m * (c - d - 1) >= 0;
  }
}
