/** Integer powers, and the few facts about them that the fixed-point and floating-point modules share. */
module Powers {

  function Pow(b: nat, e: nat): nat {
    if e == 0 then 1 else b * Pow(b, e - 1)
  }

  function Pow2(e: nat): (p: nat)
    ensures 1 <= p
  {
    if e == 0 then 1 else 2 * Pow2(e - 1)
  }

  lemma {:induction false} PowAdd(b: nat, m: nat, n: nat)
    ensures Pow(b, m + n) == Pow(b, m) * Pow(b, n)
  {
    if m > 0 {
      PowAdd(b, m - 1, n);
      assert Pow(b, m + n) == b * Pow(b, m - 1 + n);
      MulAssoc(b, Pow(b, m - 1), Pow(b, n));
    }
  }

  lemma {:induction false} PowMonotone(a: nat, b: nat, n: nat)
    requires a <= b
    ensures Pow(a, n) <= Pow(b, n)
  {
    if n > 0 {
      PowMonotone(a, b, n - 1);
      MulMonotone(Pow(a, n - 1), Pow(b, n - 1), a);
      MulMonotone(a, b, Pow(b, n - 1));
    }
  }

  lemma {:induction false} PowPositive(b: nat, n: nat)
    requires b > 0
    ensures Pow(b, n) > 0
  {
    if n > 0 {
      PowPositive(b, n - 1);
      MulMonotone(1, b, Pow(b, n - 1));
    }
  }

  lemma {:induction false} Pow2Add(a: nat, b: nat)
    ensures Pow2(a + b) == Pow2(a) * Pow2(b)
  {
    if a > 0 {
      Pow2Add(a - 1, b);
      assert Pow2(a + b) == 2 * Pow2(a - 1 + b);
      MulAssoc(2, Pow2(a - 1), Pow2(b));
    }
  }

  lemma {:induction false} Pow2Monotone(a: nat, b: nat)
    requires a <= b
    ensures Pow2(a) <= Pow2(b)
  {
    if a < b {
      Pow2Monotone(a, b - 1);
    }
  }

  /** Powers of two order their exponents. */
  lemma Pow2Reflects(a: nat, b: nat)
    requires Pow2(a) < Pow2(b)
    ensures a < b
  {
    if b <= a {
      Pow2Monotone(b, a);
    }
  }

  lemma MulAssoc(a: int, b: int, c: int)
    ensures (a * b) * c == a * (b * c)
  {
  }

  lemma MulMonotone(a: int, b: int, c: int)
    requires a <= b && 0 <= c
    ensures a * c <= b * c && c * a <= c * b
  {
  }

  lemma MulStrict(a: int, b: int, c: int)
    requires a < b && 0 < c
    ensures a * c < b * c && c * a < c * b
  {
  }

  /** A factor of at most `f` scales a bound by at most `f`. */
  lemma MulBound(u: int, c: int, y: int, f: int)
    requires -c <= u <= c && 0 <= y <= f
    ensures -(c * f) <= u * y <= c * f
  {
    MulMonotone(u, c, y);
    MulMonotone(-c, u, y);
    MulMonotone(y, f, c);
  }

  /** A common positive factor cancels from a bound. */
  lemma CancelBound(v: int, c: int, f: int)
    requires f > 0 && -(c * f) <= v * f <= c * f
    ensures -c <= v <= c
  {
    if v > c {
      MulStrict(c, v, f);
    } else if v < -c {
      MulStrict(v, -c, f);
    }
  }

  /** Integer division, with the fact that the solver finds hard: it stays non-negative. */
  function Div(a: nat, f: nat): nat
    requires f > 0
  {
    DivNonNegative(a, f);
    a / f
  }

  lemma DivNonNegative(a: int, f: int)
    requires a >= 0 && f > 0
    ensures a / f >= 0
  {
    var q := a / f;
    assert a == f * q + a % f;
    if q < 0 {
      MulMonotone(q, -1, f);
    }
  }
}
