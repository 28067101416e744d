/** The integer-only encoder that turns a ratio of two counters into a binary32 model input. */
module RatioBits {
  import opened Powers
  import opened Binary32

  const U64_MAX: nat := 0xffff_ffff_ffff_ffff

  /** Position of the highest set bit, counted from one; zero for zero. */
  function Fls(x: nat): (r: nat)
    ensures x > 0 ==> r > 0 && Pow2(r - 1) <= x < Pow2(r)
    ensures x == 0 ==> r == 0
  {
    if x == 0 then 0 else 1 + Fls(x / 2)
  }

  /** The shift that scales n/d into 24 significant bits. */
  ghost predicate Normalizes(n: nat, d: nat, shift: nat) {
    d * HIDDEN <= n * Pow2(shift) < d * (2 * HIDDEN)
  }

  /** Exactly the ratios the encoder accepts: zero, and those it can normalize inside 64 bits. */
  ghost predicate Encodable(n: nat, d: nat) {
    d > 0 && (n == 0 || exists shift: nat :: shift < 64 && Normalizes(n, d, shift) && n * Pow2(shift) <= U64_MAX)
  }

  /** 2^e <= n/d < 2^(e+1), for exponents of either sign. */
  ghost predicate InBinade(n: nat, d: nat, e: int) {
    if e >= 0 then d * Pow2(e) <= n < 2 * (d * Pow2(e)) else d <= n * Pow2(-e) < 2 * d
  }

  /** The difference of the bit lengths is the exponent, or one too much. */
  lemma LengthsGiveExponent(n: nat, d: nat)
    requires n > 0 && d > 0
    ensures var e := Fls(n) - Fls(d);
            if e >= 0 then d * Pow2(e) < 2 * n && n < 2 * (d * Pow2(e)) && d * Pow2(e) < Pow2(Fls(n))
            else n * Pow2(-e) < 2 * d && d < 2 * (n * Pow2(-e)) && n * Pow2(-e) < Pow2(Fls(d))
  {
    var e := Fls(n) - Fls(d);
    if e >= 0 {
      LongerAtLeast(d, n, e);
    } else {
      LongerAtLeast(n, d, -e);
    }
  }

  lemma LongerAtLeast(a: nat, b: nat, k: nat)
    requires a > 0 && b > 0 && Fls(b) == Fls(a) + k
    ensures a * Pow2(k) < 2 * b && b < 2 * (a * Pow2(k)) && a * Pow2(k) < Pow2(Fls(b))
  {
    var l := Fls(a);
    var low, p := Pow2(l - 1), Pow2(k);
    assert Pow2(l) == 2 * low && Pow2(Fls(b)) == 2 * Pow2(Fls(b) - 1);
    Pow2Add(l, k);
    MulStrict(a, 2 * low, p);
    MulMonotone(low, a, p);
    MulAssoc(2, low, p);
  }

  /** Powers of two up to 2^64 fit the word they bound. */
  lemma LengthBound(x: nat)
    requires 0 < x <= U64_MAX
    ensures Fls(x) <= 64 && Pow2(Fls(x)) <= U64_MAX + 1
  {
    var k := 64;
    Pow2Of64(k);
    Pow2Reflects(Fls(x) - 1, k);
    Pow2Monotone(Fls(x), k);
  }

  lemma Pow2Of64(k: nat)
    requires k == 64
    ensures Pow2(k) == U64_MAX + 1
  {
    assert Pow2(8) == 0x100;
    hide Pow2;
    Pow2Add(k / 8, k / 8);
    assert Pow2(k / 4) == 0x1_0000;
    Pow2Add(k / 4, k / 4);
    assert Pow2(k / 2) == 0x1_0000_0000;
    Pow2Add(k / 2, k / 2);
  }

  /** Inside a binade below 2^24 the shift 23 - e normalizes, and no other shift does. */
  lemma BinadeNormalizes(n: nat, d: nat, e: int)
    requires n > 0 && d > 0 && e <= 23 && InBinade(n, d, e)
    ensures Normalizes(n, d, 23 - e)
  {
    hide Pow2;
    Pow2OfHidden();
    if e >= 0 {
      var p, q := Pow2(e), Pow2(23 - e);
      Pow2Add(e, 23 - e);
      assert p * q == HIDDEN;
      MulMonotone(d * p, n, q);
      MulStrict(n, 2 * (d * p), q);
      MulAssoc(d, p, q);
      MulAssoc(2, d * p, q);
    } else {
      var p := Pow2(-e);
      Pow2Add(-e, 23);
      MulAssoc(n, p, HIDDEN);
      MulMonotone(d, n * p, HIDDEN);
      MulStrict(n * p, 2 * d, HIDDEN);
    }
  }

  lemma NormalizesUnique(n: nat, d: nat, a: nat, b: nat)
    requires d > 0 && a < b
    ensures !(Normalizes(n, d, a) && Normalizes(n, d, b))
  {
    assert Pow2(a + 1) == 2 * Pow2(a);
    Pow2Monotone(a + 1, b);
    MulMonotone(Pow2(a + 1), Pow2(b), n);
    assert n * Pow2(a + 1) == 2 * (n * Pow2(a));
  }

  lemma LargeRatioRefused(n: nat, d: nat, e: int)
    requires d > 0 && e >= 24 && InBinade(n, d, e)
    ensures n > 0 && !Encodable(n, d)
  {
    Pow2Monotone(24, e);
    Pow2OfHidden();
    assert Pow2(24) == 2 * Pow2(23);
    MulMonotone(2 * HIDDEN, Pow2(e), d);
    MulStrict(0, d, 2 * HIDDEN);
    forall shift: nat
      ensures !Normalizes(n, d, shift)
    {
      MulMonotone(1, Pow2(shift), n);
    }
  }

  /** For denominators below 2^40 the encoder refuses exactly the ratios of 2^24 and more. */
  lemma EncodableBelow2To24(n: nat, d: nat)
    requires 0 < d < 0x100_0000_0000 && n <= U64_MAX
    ensures Encodable(n, d) <==> n < d * (2 * HIDDEN)
  {
    if n > 0 {
      var e := ExponentExists(n, d);
      if e >= 24 {
        LargeRatioRefused(n, d, e);
        Pow2Monotone(24, e);
        Pow2OfHidden();
        assert Pow2(24) == 2 * Pow2(23);
        MulMonotone(2 * HIDDEN, Pow2(e), d);
      } else {
        BinadeNormalizes(n, d, e);
        var shift := 23 - e;
        assert d * (2 * HIDDEN) <= U64_MAX;
        if shift >= 64 {
          Pow2Monotone(41, -e);
          Pow2Below41();
          MulMonotone(1, n, Pow2(-e));
          assert false;
        }
        assert Encodable(n, d);
        MulMonotone(1, Pow2(shift), n);
      }
    }
  }

  lemma Pow2Below41()
    ensures Pow2(41) == 0x200_0000_0000
  {
    Pow2Add(20, 21);
    Pow2Add(10, 10);
    assert Pow2(10) == 1024 && Pow2(21) == 2 * Pow2(20);
  }

  lemma ExponentExists(n: nat, d: nat) returns (e: int)
    requires n > 0 && d > 0
    ensures InBinade(n, d, e)
  {
    LengthsGiveExponent(n, d);
    e := Fls(n) - Fls(d);
    if e >= 0 && n < d * Pow2(e) {
      HalfBinade(n, d, e);
      e := e - 1;
    } else if e < 0 && n * Pow2(-e) < d {
      DoubleBinade(n, d, e);
      e := e - 1;
    }
  }

  lemma DoubleBinade(n: nat, d: nat, e: int)
    requires e < 0 && n * Pow2(-e) < d < 2 * (n * Pow2(-e))
    ensures InBinade(n, d, e - 1)
  {
    assert Pow2(-e + 1) == 2 * Pow2(-e);
    assert n * Pow2(-e + 1) == 2 * (n * Pow2(-e));
  }

  lemma HalfBinade(n: nat, d: nat, e: int)
    requires e >= 0 && n < d * Pow2(e) < 2 * n
    ensures InBinade(n, d, e - 1)
  {
    if e == 0 {
      assert Pow2(1) == 2 && Pow2(0) == 1;
      hide Pow2;
      assert d * Pow2(e) == d && n * Pow2(1) == 2 * n;
    } else {
      HalfProduct(d, e);
      hide Pow2;
    }
  }

  lemma HalfProduct(d: nat, e: int)
    requires e > 0
    ensures d * Pow2(e) == 2 * (d * Pow2(e - 1))
  {
    assert Pow2(e) == 2 * Pow2(e - 1);
    hide Pow2;
    MulAssoc(2, d, Pow2(e - 1));
  }

  lemma QuotientRange(d: nat, quotient: nat, remainder: nat, scaled: nat)
    requires d > 0 && scaled == quotient * d + remainder && remainder < d
    requires d * HIDDEN <= scaled < d * (2 * HIDDEN)
    ensures HIDDEN <= quotient < 2 * HIDDEN
  {
    assert (quotient + 1) * d == quotient * d + d;
    if quotient < HIDDEN {
      MulMonotone(quotient + 1, HIDDEN, d);
    }
    if quotient >= 2 * HIDDEN {
      MulMonotone(2 * HIDDEN, quotient, d);
    }
  }
  /** `q` is the integer nearest scaled/d, ties to even, with the two ends of its range seen exactly. */
  ghost predicate RoundedTo(q: int, scaled: int, d: int) {
    && HIDDEN <= q <= 2 * HIDDEN
    && (2 * q - 1) * d <= 2 * scaled <= (2 * q + 1) * d
    && (2 * scaled == (2 * q - 1) * d || 2 * scaled == (2 * q + 1) * d ==> q % 2 == 0)
    && (q == HIDDEN ==> q * d <= scaled)
    && (q == 2 * HIDDEN ==> scaled < q * d)
  }

  lemma RoundQuotient(d: nat, quotient: nat, remainder: nat, scaled: nat, rounded: nat)
    requires d > 0 && scaled == quotient * d + remainder && remainder < d
    requires d * HIDDEN <= scaled < d * (2 * HIDDEN)
    requires rounded == if remainder > d - remainder || (remainder == d - remainder && quotient % 2 == 1)
                        then quotient + 1 else quotient
    ensures RoundedTo(rounded, scaled, d)
  {
    QuotientRange(d, quotient, remainder, scaled);
    var qd := quotient * d;
    assert (2 * quotient - 1) * d == 2 * qd - d;
    assert (2 * quotient + 1) * d == 2 * qd + d;
    assert (2 * quotient + 3) * d == 2 * qd + 3 * d;
    assert (quotient + 1) * d == qd + d;
  }

  /** The pattern built from a rounded significand is the one nearest to the ratio. */
  lemma RoundedIsNearest(n: nat, d: nat, shift: nat, rounded: nat)
    requires d > 0 && shift <= 149 && HIDDEN <= rounded <= 2 * HIDDEN
    requires RoundedTo(rounded, ShiftedLeft(n, shift), d)
    ensures NearestEven(n, d, (149 - shift) * HIDDEN + rounded)
  {
    hide RoundedTo, Units, Pow2, NearestEven;
    var k, scaled := 149 - shift, n * Pow2(shift);
    var bits := k * HIDDEN + rounded;
    assert bits < INFINITY_BITS && bits % 2 == rounded % 2 && bits > 0;
    assert Target(n) == scaled * Pow2(k) by {
      Pow2Add(shift, k);
      MulAssoc(n, Pow2(shift), Pow2(k));
    }
    NeighbouringUnits(k, rounded);
    hide Target;
    BelowMidpoint(n, d, scaled, rounded, bits, Pow2(k));
    AboveMidpoint(n, d, scaled, rounded, bits, Pow2(k));
    NearestFromMidpoints(n, d, bits);
  }

  lemma NeighbouringUnits(k: nat, q: nat)
    requires HIDDEN <= q <= 2 * HIDDEN
    ensures var bits := k * HIDDEN + q;
            && Units(bits - 1) < Units(bits) < Units(bits + 1)
            && Units(bits) == q * Pow2(k)
            && (q < 2 * HIDDEN ==> Units(bits + 1) == (q + 1) * Pow2(k))
            && (q > HIDDEN ==> Units(bits - 1) == (q - 1) * Pow2(k))
  {
    hide Units;
    var bits := k * HIDDEN + q;
    UnitsOfSignificand(k, q);
    if q < 2 * HIDDEN {
      UnitsOfSignificand(k, q + 1);
    }
    if q > HIDDEN {
      UnitsOfSignificand(k, q - 1);
    }
    UnitsStep(bits);
    UnitsStep(bits - 1);
  }

  lemma BelowMidpoint(n: nat, d: nat, scaled: nat, q: nat, bits: nat, g: nat)
    requires d > 0 && g > 0 && RoundedTo(q, scaled, d) && bits % 2 == q % 2
    requires Target(n) == scaled * g && Units(bits) == q * g && Units(bits) < Units(bits + 1)
    requires q < 2 * HIDDEN ==> Units(bits + 1) == (q + 1) * g
    ensures BelowUpperMidpoint(n, d, bits)
  {
    hide Units, Target;
    if q < 2 * HIDDEN {
      ScaleUp(2 * scaled, (2 * q + 1) * d, g);
      Regroup(q, 1, d, g);
    } else {
      ScaleUp(scaled, q * d, g);
      MulStrict(Units(bits), Units(bits + 1), d);
      MulStrict(scaled, q * d, g);
      assert (q * g) * d == (q * d) * g;
      assert Midpoint(bits) * d == Units(bits) * d + Units(bits + 1) * d;
    }
  }

  lemma AboveMidpoint(n: nat, d: nat, scaled: nat, q: nat, bits: nat, g: nat)
    requires d > 0 && g > 0 && RoundedTo(q, scaled, d) && bits % 2 == q % 2 && bits > 0
    requires Target(n) == scaled * g && Units(bits) == q * g && Units(bits - 1) < Units(bits)
    requires q > HIDDEN ==> Units(bits - 1) == (q - 1) * g
    ensures AboveLowerMidpoint(n, d, bits)
  {
    hide Units, Target;
    if q > HIDDEN {
      ScaleUp((2 * q - 1) * d, 2 * scaled, g);
      Regroup(q, -1, d, g);
    } else {
      MulMonotone(q * d, scaled, g);
      MulStrict(Units(bits - 1), Units(bits), d);
      assert (q * g) * d == (q * d) * g;
      assert Midpoint(bits - 1) * d == Units(bits - 1) * d + Units(bits) * d;
    }
  }

  lemma ScaleUp(a: int, b: int, g: int)
    requires g > 0 && a <= b
    ensures a * g <= b * g && (a * g == b * g ==> a == b)
  {
    StrictCases(a, b, g);
  }

  lemma Regroup(q: int, step: int, d: int, g: int)
    ensures ((2 * q + step) * d) * g == (q * g + (q + step) * g) * d
  {
    assert q * g + (q + step) * g == (2 * q + step) * g;
    Swap(2 * q + step, d, g);
  }

  /** The two guards on the first guess of the exponent, with the overflow tests of 64-bit shifts. */
  predicate GuessTooLarge(n: nat, d: nat, e: int) {
    if e >= 0 then d > Div(U64_MAX, Pow2(e)) || n < d * Pow2(e)
    else n > Div(U64_MAX, Pow2(-e)) || n * Pow2(-e) < d
  }

  lemma GuessGivesBinade(n: nat, d: nat)
    requires 0 < n <= U64_MAX && 0 < d <= U64_MAX
    ensures var e := Fls(n) - Fls(d); InBinade(n, d, if GuessTooLarge(n, d, e) then e - 1 else e)
  {
    var e := Fls(n) - Fls(d);
    LengthsGiveExponent(n, d);
    LengthBound(n);
    LengthBound(d);
    hide Fls, Pow2, InBinade, GuessTooLarge, Div;
    GuessMeans(n, d, e);
    if e >= 0 {
      GuessAbove(n, d, e);
    } else {
      GuessBelow(n, d, e);
    }
  }

  /** The overflow tests never fire, so the guards compare what they mean to compare. */
  lemma GuessMeans(n: nat, d: nat, e: int)
    requires if e >= 0 then d * Pow2(e) <= U64_MAX else n * Pow2(-e) <= U64_MAX
    ensures GuessTooLarge(n, d, e) <==> if e >= 0 then n < d * Pow2(e) else n * Pow2(-e) < d
  {
    hide Div, Pow2;
    if e >= 0 {
      FitsWord(d, Pow2(e));
    } else {
      FitsWord(n, Pow2(-e));
    }
  }

  lemma GuessAbove(n: nat, d: nat, e: nat)
    requires d * Pow2(e) < 2 * n && n < 2 * (d * Pow2(e))
    ensures InBinade(n, d, if n < d * Pow2(e) then e - 1 else e)
  {
    hide Pow2;
    if n < d * Pow2(e) {
      HalfBinade(n, d, e);
    }
  }

  lemma GuessBelow(n: nat, d: nat, e: int)
    requires e < 0 && n * Pow2(-e) < 2 * d && d < 2 * (n * Pow2(-e))
    ensures InBinade(n, d, if n * Pow2(-e) < d then e - 1 else e)
  {
    hide Pow2;
    if n * Pow2(-e) < d {
      DoubleBinade(n, d, e);
    }
  }

  /** A product that fits the word passes the division test in front of its shift. */
  lemma FitsWord(a: nat, p: nat)
    requires p > 0
    ensures a <= Div(U64_MAX, p) <==> a * p <= U64_MAX
  {
    var q := U64_MAX / p;
    assert U64_MAX == q * p + U64_MAX % p;
    if a <= q {
      MulMonotone(a, q, p);
    } else {
      MulMonotone(q + 1, a, p);
      assert (q + 1) * p == q * p + p;
    }
  }

  predicate Overflows(n: nat, shift: nat) {
    n > Div(U64_MAX, Pow2(shift))
  }

  function ShiftedLeft(n: nat, shift: nat): nat {
    MulMonotone(1, Pow2(shift), n);
    n * Pow2(shift)
  }

  /** Since no other shift normalizes, the tests on this one decide whether the ratio is encodable. */
  lemma ShiftDecides(n: nat, d: nat, shift: nat)
    requires n > 0 && d > 0 && Normalizes(n, d, shift)
    ensures Encodable(n, d) <==> shift < 64 && !Overflows(n, shift)
  {
    FitsWord(n, Pow2(shift));
    forall other: nat | other != shift
      ensures !Normalizes(n, d, other)
    {
      if other < shift {
        NormalizesUnique(n, d, other, shift);
      } else {
        NormalizesUnique(n, d, shift, other);
      }
    }
  }

  lemma EncodableAtZero(n: nat, d: nat)
    ensures d == 0 ==> !Encodable(n, d)
    ensures d > 0 && n == 0 ==> Encodable(n, d)
  {
  }

  /**
   The encoder. It succeeds exactly on the encodable ratios, and then yields the binary32
   pattern nearest to n/d, ties to even.
   */
  method Encode(n: nat, d: nat) returns (ok: bool, bits: nat)
    requires n <= U64_MAX && d <= U64_MAX
    ensures ok <==> Encodable(n, d)
    ensures ok ==> NearestEven(n, d, bits)
  {
    hide InBinade, Normalizes, GuessTooLarge, NearestEven, RoundedTo, Pow2, Encodable, Overflows, Fls, ShiftedLeft, Div;
    bits := 0;
    EncodableAtZero(n, d);
    if d == 0 {
      return false, bits;
    }
    if n == 0 {
      ZeroIsNearest(d);
      return true, bits;
    }
    var exponent: int := Fls(n) - Fls(d);
    GuessGivesBinade(n, d);
    if GuessTooLarge(n, d, exponent) {
      exponent := exponent - 1;
    }
    var shift := 23 - exponent;
    if shift < 0 {
      LargeRatioRefused(n, d, exponent);
      return false, bits;
    }
    BinadeNormalizes(n, d, exponent);
    ShiftDecides(n, d, shift);
    if shift >= 64 || Overflows(n, shift) {
      return false, bits;
    }
    var quotient, remainder := DivideRounding(n, d, shift);
    RoundedIsNearest(n, d, shift, quotient);
    bits := Assemble(quotient, exponent);
    return true, bits;
  }

  /** The last steps: a carry out of the significand moves to the exponent; the range test cannot fail. */
  method Assemble(rounded: nat, e: int) returns (bits: nat)
    requires HIDDEN <= rounded <= 2 * HIDDEN && -40 <= e <= 23
    ensures bits == (126 + e) * HIDDEN + rounded
  {
    var quotient, exponent := rounded, e;
    if quotient == 2 * HIDDEN {
      quotient := quotient / 2;
      exponent := exponent + 1;
    }
    if quotient < HIDDEN || quotient >= 2 * HIDDEN || exponent < -126 || exponent > 127 {
      assert false;
    }
    bits := (exponent + 127) * HIDDEN + (quotient - HIDDEN);
  }

  method DivideRounding(n: nat, d: nat, shift: nat) returns (quotient: nat, remainder: nat)
    requires d > 0 && Normalizes(n, d, shift)
    ensures RoundedTo(quotient, ShiftedLeft(n, shift), d) && HIDDEN <= quotient <= 2 * HIDDEN
  {
    var scaled := ShiftedLeft(n, shift);
    quotient, remainder := Div(scaled, d), scaled % d;
    ghost var floor := quotient;
    assert scaled == floor * d + remainder;
    if remainder > d - remainder || (remainder == d - remainder && quotient % 2 == 1) {
      quotient := quotient + 1;
    }
    RoundQuotient(d, floor, remainder, scaled, quotient);
  }
}
