/**
 Binary32 numbers (IEEE 754-2019, section 3.4) as bit patterns, and rounding a ratio of
 integers to the nearest of them, ties to even (section 4.3.1).

 Only the non-negative finite numbers occur: the patterns below INFINITY_BITS. Their values
 are whole multiples of the smallest subnormal 2^-149, so they are compared as integers.
 */
module Binary32 {
  import opened Powers

  const INFINITY_BITS: nat := 0x7f80_0000
  const ONE_BITS: nat := 0x3f80_0000
  const HIDDEN: nat := 0x80_0000  // 2^23, the weight of the hidden bit

  /** The value of a pattern, counted in units of 2^-149. */
  ghost function Units(bits: nat): nat
  {
    var exponent, fraction := bits / HIDDEN, bits % HIDDEN;
    if exponent == 0 then fraction else (HIDDEN + fraction) * Pow2(exponent - 1)
  }

  /** The ratio n/d in the same units, times d. */
  ghost function Target(n: nat): nat {
    n * Pow2(149)
  }

  /** How far a pattern is from n/d, times d. */
  ghost function Distance(n: nat, d: nat, bits: nat): nat {
    var v, t: int := Units(bits) * d, Target(n);
    if v < t then t - v else v - t
  }

  /** No pattern is closer to n/d, and if another one is as close then this one is even. */
  ghost predicate NearestEven(n: nat, d: nat, bits: nat) {
    && bits < INFINITY_BITS
    && forall other: nat {:trigger Distance(n, d, other)} | other < INFINITY_BITS && other != bits ::
         Distance(n, d, bits) <= Distance(n, d, other)
         && (Distance(n, d, bits) == Distance(n, d, other) ==> bits % 2 == 0)
  }

  /** A significand of 24 bits, or 2^24 itself, above k exponent steps. */
  lemma UnitsOfSignificand(k: nat, q: nat)
    requires HIDDEN <= q <= 2 * HIDDEN
    ensures Units(k * HIDDEN + q) == q * Pow2(k)
  {
    hide Units;
    assert Pow2(k + 1) == 2 * Pow2(k);
    hide Pow2;
    if q < 2 * HIDDEN {
      UnitsOfParts(k + 1, q - HIDDEN);
      assert (k + 1) * HIDDEN + (q - HIDDEN) == k * HIDDEN + q;
    } else {
      UnitsOfParts(k + 2, 0);
      assert (k + 2) * HIDDEN + 0 == k * HIDDEN + q;
      MulAssoc(HIDDEN, 2, Pow2(k));
    }
  }

  lemma UnitsOfParts(exponent: nat, fraction: nat)
    requires exponent > 0 && fraction < HIDDEN
    ensures Units(exponent * HIDDEN + fraction) == (HIDDEN + fraction) * Pow2(exponent - 1)
  {
    hide Pow2;
    var bits := exponent * HIDDEN + fraction;
    assert bits / HIDDEN == exponent && bits % HIDDEN == fraction;
  }

  /** Patterns are ordered like the values they stand for. */
  lemma UnitsStep(bits: nat)
    ensures Units(bits) < Units(bits + 1)
  {
    var exponent, fraction := bits / HIDDEN, bits % HIDDEN;
    assert bits == exponent * HIDDEN + fraction;
    if exponent == 0 {
      assert bits + 1 == HIDDEN ==> Units(bits + 1) == HIDDEN * Pow2(0);
    } else {
      var k, q := exponent - 1, HIDDEN + fraction;
      assert bits == k * HIDDEN + q;
      UnitsOfSignificand(k, q);
      UnitsOfSignificand(k, q + 1);
      assert (q + 1) * Pow2(k) == q * Pow2(k) + Pow2(k);
    }
  }

  lemma {:induction false} UnitsMonotone(a: nat, b: nat)
    requires a <= b
    ensures Units(a) <= Units(b)
    ensures a < b ==> Units(a) < Units(b)
  {
    if a < b {
      UnitsMonotone(a, b - 1);
      UnitsStep(b - 1);
    }
  }

  /** Twice the midpoint between a pattern and the next one. */
  ghost function Midpoint(bits: nat): nat {
    Units(bits) + Units(bits + 1)
  }

  /** n/d is not above the midpoint of `bits` and the next pattern; on the midpoint `bits` is even. */
  ghost predicate BelowUpperMidpoint(n: nat, d: nat, bits: nat) {
    2 * Target(n) <= Midpoint(bits) * d && (2 * Target(n) == Midpoint(bits) * d ==> bits % 2 == 0)
  }

  ghost predicate AboveLowerMidpoint(n: nat, d: nat, bits: nat)
    requires bits > 0
  {
    Midpoint(bits - 1) * d <= 2 * Target(n) && (2 * Target(n) == Midpoint(bits - 1) * d ==> bits % 2 == 0)
  }

  /** Lying between the two midpoints around a pattern is enough to be nearest. */
  lemma NearestFromMidpoints(n: nat, d: nat, bits: nat)
    requires d > 0 && bits < INFINITY_BITS
    requires BelowUpperMidpoint(n, d, bits)
    requires bits > 0 ==> AboveLowerMidpoint(n, d, bits)
    ensures NearestEven(n, d, bits)
  {
    hide BelowUpperMidpoint, AboveLowerMidpoint, Distance;
    forall other: nat | other < INFINITY_BITS && other != bits
      ensures Distance(n, d, bits) <= Distance(n, d, other)
      ensures Distance(n, d, bits) == Distance(n, d, other) ==> bits % 2 == 0
    {
      if bits < other {
        CloserThanAbove(n, d, bits, other);
      } else {
        CloserThanBelow(n, d, bits, other);
      }
    }
  }

  lemma CloserThanAbove(n: nat, d: nat, bits: nat, other: nat)
    requires d > 0 && bits < other && BelowUpperMidpoint(n, d, bits)
    ensures Distance(n, d, bits) <= Distance(n, d, other)
    ensures Distance(n, d, bits) == Distance(n, d, other) ==> bits % 2 == 0
  {
    hide Units, Target;
    UnitsStep(bits);
    UnitsMonotone(bits + 1, other);
    MulStrict(Units(bits), Units(bits + 1), d);
    MulMonotone(Units(bits + 1), Units(other), d);
    assert Midpoint(bits) * d == Units(bits) * d + Units(bits + 1) * d;
  }

  lemma CloserThanBelow(n: nat, d: nat, bits: nat, other: nat)
    requires d > 0 && other < bits && AboveLowerMidpoint(n, d, bits)
    ensures Distance(n, d, bits) <= Distance(n, d, other)
    ensures Distance(n, d, bits) == Distance(n, d, other) ==> bits % 2 == 0
  {
    hide Units, Target;
    UnitsStep(bits - 1);
    UnitsMonotone(other, bits - 1);
    MulStrict(Units(bits - 1), Units(bits), d);
    MulMonotone(Units(other), Units(bits - 1), d);
    assert Midpoint(bits - 1) * d == Units(bits - 1) * d + Units(bits) * d;
  }

  /** Conversely, a nearest pattern lies between the midpoints towards its neighbours. */
  lemma MidpointsFromNearest(n: nat, d: nat, bits: nat)
    requires d > 0 && NearestEven(n, d, bits)
    ensures bits + 1 < INFINITY_BITS ==> BelowUpperMidpoint(n, d, bits)
    ensures bits > 0 ==> AboveLowerMidpoint(n, d, bits)
  {
    hide Units, Target;
    if bits + 1 < INFINITY_BITS {
      UnitsStep(bits);
      MulStrict(Units(bits), Units(bits + 1), d);
      assert Distance(n, d, bits) <= Distance(n, d, bits + 1);
      assert Midpoint(bits) * d == Units(bits) * d + Units(bits + 1) * d;
    }
    if bits > 0 {
      UnitsStep(bits - 1);
      MulStrict(Units(bits - 1), Units(bits), d);
      assert Distance(n, d, bits) <= Distance(n, d, bits - 1);
      assert Midpoint(bits - 1) * d == Units(bits - 1) * d + Units(bits) * d;
    }
  }

  lemma MidpointsOrdered(a: nat, b: nat)
    requires a <= b
    ensures Midpoint(a) <= Midpoint(b)
    ensures Midpoint(a) == Midpoint(b) ==> a == b
  {
    hide Units;
    UnitsMonotone(a, b);
    UnitsMonotone(a + 1, b + 1);
  }

  /** Rounding preserves order: a smaller ratio never gets a larger pattern. */
  lemma OrderPreserved(n1: nat, d1: nat, bits1: nat, n2: nat, d2: nat, bits2: nat)
    requires d1 > 0 && d2 > 0
    requires NearestEven(n1, d1, bits1) && NearestEven(n2, d2, bits2)
    requires n1 * d2 <= n2 * d1
    ensures bits1 <= bits2
  {
    if bits1 > bits2 {
      MidpointsFromNearest(n1, d1, bits1);
      MidpointsFromNearest(n2, d2, bits2);
      hide NearestEven, Midpoint, Target, BelowUpperMidpoint, AboveLowerMidpoint;
      MidpointsOrdered(bits2, bits1 - 1);
      CrossedPatterns(n1, d1, bits1, n2, d2, bits2);
      assert false;
    }
  }

  /** Were the patterns in the wrong order, both ratios would be the midpoint of two neighbours that are both even. */
  lemma CrossedPatterns(n1: nat, d1: nat, bits1: nat, n2: nat, d2: nat, bits2: nat)
    requires d1 > 0 && d2 > 0 && bits1 > 0 && n1 * d2 <= n2 * d1
    requires AboveLowerMidpoint(n1, d1, bits1) && BelowUpperMidpoint(n2, d2, bits2)
    requires Midpoint(bits2) <= Midpoint(bits1 - 1)
    ensures Midpoint(bits2) == Midpoint(bits1 - 1) && bits1 % 2 == 0 && bits2 % 2 == 0
  {
    hide Midpoint, Target;
    TargetsOrdered(n1, d1, n2, d2);
    CrossedMidpoints(Midpoint(bits2), Midpoint(bits1 - 1), Target(n1), Target(n2), d1, d2);
  }

  lemma TargetsOrdered(n1: nat, d1: nat, n2: nat, d2: nat)
    requires n1 * d2 <= n2 * d1
    ensures Target(n1) * d2 <= Target(n2) * d1
  {
    hide Pow2;
    var c := Pow2(149);
    MulMonotone(n1 * d2, n2 * d1, c);
    Swap(n1, c, d2);
    Swap(n2, c, d1);
  }

  lemma Swap(n: int, c: int, d: int)
    ensures (n * c) * d == (n * d) * c
  {
  }

  /** If the midpoints are crossed, both ratios are exactly on them. */
  lemma CrossedMidpoints(low: nat, high: nat, t1: nat, t2: nat, d1: nat, d2: nat)
    requires d1 > 0 && d2 > 0 && low <= high
    requires high * d1 <= 2 * t1 && 2 * t2 <= low * d2 && t1 * d2 <= t2 * d1
    ensures low == high && high * d1 == 2 * t1 && 2 * t2 == low * d2
  {
    var a, b, x, y := high * d1, low * d2, 2 * t1, 2 * t2;
    // high*d1*d2 <= 2*t1*d2 <= 2*t2*d1 <= low*d2*d1 <= high*d1*d2
    MulMonotone(a, x, d2);
    MulMonotone(y, b, d1);
    assert x * d2 <= y * d1 by {
      MulAssoc(2, t1, d2);
      MulAssoc(2, t2, d1);
    }
    var dd := d1 * d2;
    assert a * d2 == high * dd by {
      MulAssoc(high, d1, d2);
    }
    assert b * d1 == low * dd by {
      MulAssoc(low, d2, d1);
    }
    assert dd > 0 by {
      MulStrict(0, d1, d2);
    }
    StrictCases(low, high, dd);
    StrictCases(a, x, d2);
    StrictCases(y, b, d1);
  }

  lemma StrictCases(a: int, b: int, c: int)
    requires c > 0 && a <= b
    ensures a * c <= b * c
    ensures a * c == b * c ==> a == b
  {
    if a < b {
      MulStrict(a, b, c);
    }
  }

  /** A common factor of numerator and denominator does not change the pattern. */
  lemma CommonFactorIgnored(k: nat, n: nat, d: nat, bits1: nat, bits2: nat)
    requires k > 0 && d > 0
    requires NearestEven(n, d, bits1) && k * d > 0 && NearestEven(k * n, k * d, bits2)
    ensures bits1 == bits2
  {
    assert n * (k * d) == (k * n) * d;
    OrderPreserved(n, d, bits1, k * n, k * d, bits2);
    OrderPreserved(k * n, k * d, bits2, n, d, bits1);
  }

  /** Zero is the pattern of the ratio zero. */
  lemma ZeroIsNearest(d: nat)
    requires d > 0
    ensures NearestEven(0, d, 0)
  {
    assert Units(0) == 0 && Units(1) == 1;
    NearestFromMidpoints(0, d, 0);
  }

  lemma OneIsNearest(k: nat)
    requires k == 126
    ensures NearestEven(1, 1, ONE_BITS)
  {
    UnitsOfSignificand(k, HIDDEN);
    assert Units(ONE_BITS) == HIDDEN * Pow2(k);
    assert Target(1) == HIDDEN * Pow2(k) by {
      Pow2Add(23, k);
      Pow2OfHidden();
    }
    hide Units, Target;
    assert Distance(1, 1, ONE_BITS) == 0;
    forall other: nat | other < INFINITY_BITS && other != ONE_BITS
      ensures 0 < Distance(1, 1, other)
    {
      if other < ONE_BITS {
        UnitsMonotone(other, ONE_BITS);
      } else {
        UnitsMonotone(ONE_BITS, other);
      }
    }
  }

  lemma Pow2OfHidden()
    ensures Pow2(23) == HIDDEN
  {
    Pow2Add(11, 12);
    assert Pow2(11) == 0x800 && Pow2(12) == 0x1000;
  }

  /** A ratio of at most one gets a pattern of at most 1.0. */
  lemma AtMostOne(n: nat, d: nat, bits: nat)
    requires d > 0 && n <= d && NearestEven(n, d, bits)
    ensures bits <= ONE_BITS
  {
    OneIsNearest(126);
    hide NearestEven;
    OrderPreserved(n, d, bits, 1, 1, ONE_BITS);
  }
}
