/** Division by a variable, kept behind names so that proofs use only its laws. */
module Arithmetic {

  function Quot(n: int, p: int): (q: int)
    requires p > 0
    ensures n >= 0 ==> q >= 0
  {
    QuotSign(n, p);
    n / p
  }

  function Rem(n: int, p: int): (r: int)
    requires p > 0
    ensures 0 <= r < p
  {
    n % p
  }

  lemma QuotSign(n: int, p: int)
    requires p > 0
    ensures n >= 0 ==> n / p >= 0
  {
    Euclid(n, p);
    if n >= 0 && n / p < 0 { MulLe(n / p, -1, p); }
  }

  lemma Euclid(n: int, p: int)
    requires p > 0
    ensures n == (n / p) * p + n % p && 0 <= n % p < p
  {
  }

  lemma MulLe(a: int, b: int, p: int)
    requires a <= b && p >= 0
    ensures a * p <= b * p
  {
  }

  lemma MulSucc(a: int, p: int)
    ensures (a + 1) * p == a * p + p && p * (a + 1) == p * a + p
  {
  }

  lemma MulAssoc(a: int, b: int, c: int)
    ensures (a * b) * c == a * (b * c)
  {
  }

  lemma MulAdd(a: int, b: int, c: int)
    ensures (a + b) * c == a * c + b * c
  {
  }

  lemma MulPos(a: int, p: int)
    requires a >= 0 && p > 0
    ensures a * p >= 0
  {
  }

  lemma QuotRem(n: int, p: int)
    requires p > 0
    ensures n == Quot(n, p) * p + Rem(n, p)
  {
    Euclid(n, p);
  }

  /** The quotient and the remainder are the only ones. */
  lemma QuotRemUnique(n: int, p: int, q: int, r: int)
    requires p > 0 && 0 <= r < p && n == q * p + r
    ensures Quot(n, p) == q && Rem(n, p) == r
  {
    QuotRem(n, p);
    hide Quot, Rem;
    var q', r' := Quot(n, p), Rem(n, p);
    assert (q' + 1) * p == q' * p + p && (q + 1) * p == q * p + p;
    if q' < q { MulLe(q' + 1, q, p); }
    if q < q' { MulLe(q + 1, q', p); }
  }

  function Pow2(n: nat): (p: int)
    ensures p > 0
  {
    if n == 0 then 1 else 2 * Pow2(n - 1)
  }

  lemma {:induction false} PowAdd(a: nat, b: nat)
    ensures Pow2(a + b) == Pow2(a) * Pow2(b)
  {
    if b > 0 {
      PowAdd(a, b - 1);
      assert Pow2(a) * (2 * Pow2(b - 1)) == 2 * (Pow2(a) * Pow2(b - 1));
    }
  }

  /** A quotient by a product is a quotient of a quotient, and the remainders nest. */
  lemma QuotQuot(n: int, p: int, q: int)
    requires p > 0 && q > 0
    ensures p * q > 0 && Quot(n, p * q) == Quot(Quot(n, p), q)
    ensures Rem(n, p * q) == Rem(Quot(n, p), q) * p + Rem(n, p)
  {
    QuotRem(n, p);
    QuotRem(Quot(n, p), q);
    hide Quot, Rem;
    var a, r := Quot(n, p), Rem(n, p);
    var b, s := Quot(a, q), Rem(a, q);
    MulLe(1, p, q);
    assert n == (b * q + s) * p + r;
    assert (b * q + s) * p + r == b * (p * q) + (s * p + r) by { assert (b * q + s) * p == b * q * p + s * p; }
    MulLe(s, q - 1, p);
    assert s * p + r < p * q by { assert (q - 1) * p == q * p - p; }
    MulLe(0, s + 1, p);
    assert s * p >= 0 by { if s > 0 { MulLe(1, s, p); } }
    QuotRemUnique(n, p * q, b, s * p + r);
  }

  /** Numbers that agree below p agree below every divisor of p, digit by digit. */
  lemma SameRemainder(m: int, n: int, p: int)
    requires p > 0
    ensures Rem(m, p) == Rem(n, p) <==> exists k :: m == n + k * p
  {
    QuotRem(m, p);
    QuotRem(n, p);
    hide Quot, Rem;
    if Rem(m, p) == Rem(n, p) {
      var k := Quot(m, p) - Quot(n, p);
      assert m == n + k * p;
    }
    if exists k :: m == n + k * p {
      var k :| m == n + k * p;
      assert m == (Quot(n, p) + k) * p + Rem(n, p);
      QuotRemUnique(m, p, Quot(n, p) + k, Rem(n, p));
    }
  }
}
