/**
 The fixed-point power of the pressure average: square-and-multiply on numbers
 scaled by 2^fracBits, rounding to nearest after every multiplication.
 */
module FixedPower {
  import opened Powers

  const U64: nat := 0x1_0000_0000_0000_0000

  /** In the scale `f`, `r` is within `slack` half units of the exact power (x/f)^n. */
  ghost predicate Near(r: int, x: nat, f: nat, n: nat, slack: int) {
    var scale := Pow(f, n);
    -(slack * scale) <= 2 * (r * scale - Pow(x, n) * f) <= slack * scale
  }

  /** Rounding a product to nearest keeps the unit interval and costs at most one half unit. */
  lemma RoundedProduct(r: int, x: int, f: int, p: int)
    requires f > 0 && f % 2 == 0 && 0 <= r <= f && 0 <= x <= f
    requires p == (r * x + f / 2) / f
    ensures 0 <= p <= f
    ensures -f <= 2 * (p * f - r * x) <= f
  {
    MulBound(r, f, x, f);
    MulMonotone(0, r, x);
    RoundedQuotient(r * x, f, p);
  }

  lemma RoundedQuotient(product: int, f: int, p: int)
    requires f > 0 && f % 2 == 0 && 0 <= product <= f * f
    requires p == (product + f / 2) / f
    ensures 0 <= p <= f
    ensures -f <= 2 * (p * f - product) <= f
  {
    var s := product + f / 2;
    assert s == f * p + s % f;
    if p > f {
      MulMonotone(f + 1, p, f);
    } else if p < 0 {
      MulMonotone(p, -1, f);
    }
  }

  /** The errors of two factors add up, with one more half unit for rounding their product. */
  lemma NearProduct(r: int, y: int, p: int, x: nat, f: nat, m: nat, k: nat, c: int, b: int)
    requires f > 0 && f % 2 == 0 && 0 <= r <= f && 0 <= y <= f && x <= f && 0 <= b && 0 <= c
    requires Near(r, x, f, m, c) && Near(y, x, f, k, b)
    requires p == (r * y + f / 2) / f
    ensures Near(p, x, f, m + k, c + b + 1)
  {
    RoundedProduct(r, y, f, p);
    PowAdd(f, m, k);
    PowAdd(x, m, k);
    PowMonotone(x, f, m);
    PowPositive(f, m);
    PowPositive(f, k);
    NearProductStep(r, y, p, f, Pow(f, m), Pow(f, k), Pow(x, m), Pow(x, k), c, b);
  }

  /** The arithmetic of NearProduct, with the powers as plain numbers. */
  lemma NearProductStep(r: int, y: int, p: int, f: int, fm: int, fk: int, xm: int, xk: int, c: int, b: int)
    requires f > 0 && fm > 0 && fk > 0 && 0 <= xm <= fm && 0 <= y <= f && 0 <= b && 0 <= c
    requires -(c * fm) <= 2 * (r * fm - xm * f) <= c * fm
    requires -(b * fk) <= 2 * (y * fk - xk * f) <= b * fk
    requires -f <= 2 * (p * f - r * y) <= f
    ensures var scale := fm * fk; -((c + b + 1) * scale) <= 2 * (p * scale - (xm * xk) * f) <= (c + b + 1) * scale
  {
    var u, v, w := 2 * (r * fm - xm * f), 2 * (y * fk - xk * f), 2 * (p * f - r * y);
    var scale := fm * fk;
    var error := 2 * (p * scale - (xm * xk) * f);
    assert error * f == w * scale + (u * y) * fk + (v * xm) * f by {
      ErrorIdentity(r, y, p, f, fm, fk, xm, xk);
    }
    assert 0 < scale by {
      MulStrict(0, fm, fk);
    }
    assert -(f * scale) <= w * scale <= f * scale by {
      MulBound(w, f, scale, scale);
    }
    assert -(c * scale * f) <= (u * y) * fk <= c * scale * f by {
      MulBound(u, c * fm, y, f);
      MulBound(u * y, (c * fm) * f, fk, fk);
      assert ((c * fm) * f) * fk == c * scale * f by {
        Rearrange(c, fm, f, fk);
      }
    }
    assert -(b * scale * f) <= (v * xm) * f <= b * scale * f by {
      assert 0 <= b * fk by {
        MulMonotone(0, b, fk);
      }
      MulBound(v, b * fk, xm, fm);
      MulBound(v * xm, (b * fk) * fm, f, f);
      assert ((b * fk) * fm) * f == b * scale * f by {
        MulAssoc(b, fk, fm);
      }
    }
    var total := (c + b + 1) * scale;
    assert total * f == c * scale * f + b * scale * f + f * scale by {
      assert total == c * scale + b * scale + scale;
    }
    CancelBound(error, total, f);
  }

  lemma Rearrange(c: int, fm: int, f: int, fk: int)
    ensures ((c * fm) * f) * fk == c * (fm * fk) * f
  {
    MulAssoc(c * fm, f, fk);
    MulAssoc(c * fm, fk, f);
    MulAssoc(c, fm, fk);
  }

  lemma ErrorIdentity(r: int, y: int, p: int, f: int, fm: int, fk: int, xm: int, xk: int)
    ensures 2 * (p * (fm * fk) - (xm * xk) * f) * f
         == 2 * (p * f - r * y) * (fm * fk) + (2 * (r * fm - xm * f) * y) * fk + (2 * (y * fk - xk * f) * xm) * f
  {
  }

  /** The error of `r` against the exact x^n, both in the scale f^(n-1): half a unit per factor. */
  ghost predicate WithinHalfUnitPerFactor(r: nat, x: nat, f: nat, n: nat)
    requires n >= 1
  {
    var scale := Pow(f, n - 1);
    -(n * scale) <= 2 * (r * scale - Pow(x, n)) <= n * scale
  }

  lemma NearIsWithin(r: nat, x: nat, f: nat, n: nat)
    requires n >= 1 && f > 0 && Near(r, x, f, n, n)
    ensures WithinHalfUnitPerFactor(r, x, f, n)
  {
    var scale := Pow(f, n - 1);
    assert Pow(f, n) == scale * f;
    var error := 2 * (r * scale - Pow(x, n));
    assert error * f == 2 * (r * Pow(f, n) - Pow(x, n) * f) by {
      MulAssoc(r, scale, f);
    }
    MulAssoc(n, scale, f);
    CancelBound(error, n * scale, f);
  }

  /** Nothing wraps in 64 bits while the scale has at most 31 fraction bits. */
  lemma NoWrap(r: nat, x: nat, fracBits: nat)
    requires 1 <= fracBits <= 31
    requires r <= Pow2(fracBits) && x <= Pow2(fracBits)
    ensures Pow2(fracBits) % 2 == 0 && Pow2(fracBits - 1) == Pow2(fracBits) / 2
    ensures Product(r, x) + Pow2(fracBits) / 2 < U64
  {
    var f := Pow2(fracBits);
    assert f == 2 * Pow2(fracBits - 1);
    ScaleLimit(fracBits, 31);
    hide Pow2;
    MulBound(r, 0x8000_0000, x, 0x8000_0000);
    MulMonotone(0, r, x);
  }

  lemma ScaleLimit(fracBits: nat, top: nat)
    requires fracBits <= top == 31
    ensures Pow2(fracBits) <= 0x8000_0000
  {
    Pow2Monotone(fracBits, top);
    assert Pow2(8) == 0x100 && Pow2(7) == 0x80;
    hide Pow2;
    Pow2Add(8, 7);
    assert Pow2(15) == 0x8000;
    Pow2Add(8, 8);
    assert Pow2(16) == 0x1_0000;
    Pow2Add(15, 16);
  }

  /** Unsigned 64-bit arithmetic. */
  function Wrapped(a: nat): nat {
    a % U64
  }

  lemma SmallIsUnwrapped(a: nat)
    requires a < U64
    ensures Wrapped(a) == a
  {
  }

  function Product(r: nat, y: nat): nat {
    MulMonotone(0, r, y);
    r * y
  }

  function ShiftedRight(a: nat, bits: nat): nat {
    Div(a, Pow2(bits))
  }

  /** The product of two numbers of the scale 2^fracBits, rounded to nearest. */
  function Rounded(r: nat, y: nat, fracBits: nat): nat {
    ShiftedRight(Product(r, y) + Pow2(fracBits) / 2, fracBits)
  }

  /** In the scale `f`, `p` is within half a unit of the product of `r` and `y`. */
  predicate IsClose(p: int, r: int, y: int, f: int) {
    -f <= 2 * (p * f - r * y) <= f
  }

  lemma RoundedIsClose(r: nat, y: nat, fracBits: nat)
    requires 1 <= fracBits <= 31
    requires r <= Pow2(fracBits) && y <= Pow2(fracBits)
    ensures Rounded(r, y, fracBits) <= Pow2(fracBits) && IsClose(Rounded(r, y, fracBits), r, y, Pow2(fracBits))
  {
    NoWrap(r, y, fracBits);
    hide Pow2;
    RoundedProduct(r, y, Pow2(fracBits), Rounded(r, y, fracBits));
  }

  /** Computes the product in 64 bits, off by at most half a unit of the scale. */
  method RoundedMul(r: nat, y: nat, fracBits: nat) returns (p: nat)
    requires 1 <= fracBits <= 31
    requires r <= Pow2(fracBits) && y <= Pow2(fracBits)
    ensures p == Rounded(r, y, fracBits) <= Pow2(fracBits)
    ensures IsClose(p, r, y, Pow2(fracBits))
  {
    RoundedIsClose(r, y, fracBits);
    hide Product, ShiftedRight;
    NoWrap(r, y, fracBits);
    hide Pow2;
    var half, product := Pow2(fracBits - 1), Product(r, y);
    SmallIsUnwrapped(product);
    SmallIsUnwrapped(product + half);
    hide Wrapped;
    var s := Wrapped(product);
    s := Wrapped(s + half);
    p := ShiftedRight(s, fracBits);
  }

  /** What one multiplication of the loop does to the errors. */
  lemma LoopProduct(r: nat, y: nat, p: nat, x: nat, fracBits: nat, m: nat, k: nat, c: nat, b: nat)
    requires 1 <= fracBits <= 31
    requires r <= Pow2(fracBits) && y <= Pow2(fracBits) && x <= Pow2(fracBits)
    requires Near(r, x, Pow2(fracBits), m, c) && Near(y, x, Pow2(fracBits), k, b)
    requires p == Rounded(r, y, fracBits)
    ensures p <= Pow2(fracBits)
    ensures Near(p, x, Pow2(fracBits), m + k, c + b + 1)
  {
    NoWrap(r, y, fracBits);
    RoundedProduct(r, y, Pow2(fracBits), p);
    NearProduct(r, y, p, x, Pow2(fracBits), m, k, c, b);
  }

  /** Halving the exponent moves its low bit into the factors already taken. */
  lemma HalveExponent(n: nat, weight: nat)
    ensures (n % 2) * weight + (n / 2) * (2 * weight) == n * weight
  {
    MulAssoc(n / 2, 2, weight);
    assert n == n % 2 + (n / 2) * 2;
  }

  /**
   The loop of `fixed_power_int`, in 64-bit arithmetic. For every exponent the result
   stays in the unit interval and is off by at most half a unit per factor.
   */
  method FixedPowerInt(x0: nat, fracBits: nat, n0: nat) returns (result: nat)
    requires 1 <= fracBits <= 31
    requires x0 <= Pow2(fracBits)
    ensures result <= Pow2(fracBits)
    ensures n0 == 0 ==> result == Pow2(fracBits)
    ensures n0 >= 1 ==> WithinHalfUnitPerFactor(result, x0, Pow2(fracBits), n0)
  {
    var f := Pow2(fracBits);
    var x, n := x0, n0;
    result := f;
    if n == 0 {
      return;
    }
    // `done` factors are in the result already; x stands for the power `weight` of the base.
    ghost var done: nat, weight: nat := 0, 1;
    assert Pow(f, 1) == f && Pow(x0, 1) == x0;
    while true
      invariant n > 0 && weight >= 1 && done + n * weight == n0
      invariant result <= f && x <= f
      invariant Near(x, x0, f, weight, weight - 1)
      invariant Near(result, x0, f, done, done)
      decreases n
    {
      HalveExponent(n, weight);
      if n % 2 == 1 {
        ghost var before := result;
        result := RoundedMul(result, x, fracBits);
        LoopProduct(before, x, result, x0, fracBits, done, weight, done, weight - 1);
        done := done + weight;
      }
      n := n / 2;
      if n == 0 {
        break;
      }
      ghost var root := x;
      x := RoundedMul(x, x, fracBits);
      LoopProduct(root, root, x, x0, fracBits, weight, weight, weight - 1, weight - 1);
      weight := 2 * weight;
    }
    NearIsWithin(result, x0, f, n0);
  }
}
