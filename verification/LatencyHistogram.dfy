/** The log2 latency histogram, its merge over processors, and percentiles read from it. */
module LatencyHistogram {
  import opened Powers

  const BUCKETS: nat := 21
  const TOP_VALUE: nat := 0x10_0000  // 2^20, the value of the last bucket

  const U32_SIZE: nat := 0x1_0000_0000

  /** Latencies below one microsecond count as one. */
  function Clamped(latency: nat): nat {
    if latency == 0 then 1 else latency
  }

  /** The bucket a latency belongs to; the last one takes everything from its lower bound up. */
  ghost predicate InBucket(latency: nat, buckets: nat, i: nat) {
    i < buckets && Pow2(i) <= Clamped(latency) && (i < buckets - 1 ==> Clamped(latency) < Pow2(i + 1))
  }

  lemma BucketUnique(latency: nat, buckets: nat, i: nat, j: nat)
    requires InBucket(latency, buckets, i) && InBucket(latency, buckets, j)
    ensures i == j
  {
    if i < j {
      Pow2Monotone(i + 1, j);
    } else if j < i {
      Pow2Monotone(j + 1, i);
    }
  }

  method BucketIndex(latencyUs: nat, maxBuckets: nat) returns (idx: nat)
    ensures maxBuckets == 0 ==> idx == 0
    ensures maxBuckets > 0 ==> InBucket(latencyUs, maxBuckets, idx)
  {
    idx := 0;
    if maxBuckets == 0 {
      return;
    }
    var rest := latencyUs;
    while rest > 1 && idx < maxBuckets - 1
      invariant idx <= maxBuckets - 1
      invariant ShiftedTo(latencyUs, idx, rest)
      invariant rest == 0 ==> latencyUs == 0 && idx == 0
    {
      HalfScaled(rest, idx, latencyUs);
      hide ShiftedTo;
      rest := rest / 2;
      idx := idx + 1;
    }
    ShiftedToBucket(latencyUs, maxBuckets, idx, rest);
  }

  /** `rest` is the value shifted right by idx bits. */
  ghost predicate ShiftedTo(value: nat, idx: nat, rest: nat) {
    rest * Pow2(idx) <= value < (rest + 1) * Pow2(idx)
  }

  lemma ShiftedToBucket(value: nat, buckets: nat, idx: nat, rest: nat)
    requires ShiftedTo(value, idx, rest) && idx < buckets && (rest <= 1 || idx == buckets - 1)
    requires rest == 0 ==> value == 0 && idx == 0
    ensures InBucket(value, buckets, idx)
  {
    var p := Pow2(idx);
    assert Pow2(idx + 1) == 2 * p;
    if rest > 0 {
      MulMonotone(1, rest, p);
    }
    if rest <= 1 {
      MulMonotone(rest + 1, 2, p);
    }
  }

  lemma HalfScaled(rest: nat, idx: nat, value: nat)
    requires rest > 1 && ShiftedTo(value, idx, rest)
    ensures ShiftedTo(value, idx + 1, rest / 2)
  {
    var p, half := Pow2(idx), rest / 2;
    MulAssoc(half, 2, p);
    MulAssoc(half + 1, 2, p);
    MulMonotone(half * 2, rest, p);
    MulMonotone(rest + 1, (half + 1) * 2, p);
  }

  /** How many of the samples lie below a bound. */
  ghost function Below(samples: seq<nat>, bound: nat): (n: nat)
    ensures n <= |samples|
  {
    if samples == [] then 0
    else Below(samples[..|samples| - 1], bound) + (if Clamped(samples[|samples| - 1]) < bound then 1 else 0)
  }

  lemma {:induction false} BelowConcat(a: seq<nat>, b: seq<nat>, bound: nat)
    ensures Below(a + b, bound) == Below(a, bound) + Below(b, bound)
  {
    if b == [] {
      assert a + b == a;
    } else {
      assert (a + b)[..|a + b| - 1] == a + b[..|b| - 1];
      BelowConcat(a, b[..|b| - 1], bound);
    }
  }

  /** Counting does not depend on the order of the samples. */
  lemma {:induction false} BelowPermuted(a: seq<nat>, b: seq<nat>, bound: nat)
    requires multiset(a) == multiset(b)
    ensures Below(a, bound) == Below(b, bound)
    decreases |a|
  {
    if a == [] {
      assert |multiset(b)| == 0;
    } else {
      var x := a[|a| - 1];
      assert x in multiset(b);
      var k :| 0 <= k < |b| && b[k] == x;
      var rest := a[..|a| - 1];
      assert a == rest + [x];
      assert b == b[..k] + [x] + b[k + 1..];
      assert multiset(a) == multiset(rest) + multiset{x};
      assert multiset(b) == multiset(b[..k] + b[k + 1..]) + multiset{x};
      assert multiset(rest) == multiset(a) - multiset{x};
      BelowPermuted(rest, b[..k] + b[k + 1..], bound);
      BelowConcat(b[..k], b[k + 1..], bound);
      BelowConcat(b[..k] + [x], b[k + 1..], bound);
      BelowConcat(b[..k], [x], bound);
    }
  }

  ghost predicate Sorted(s: seq<nat>) {
    forall i, j :: 0 <= i < j < |s| ==> s[i] <= s[j]
  }

  /** In a sorted sequence the count below a bound separates the small elements from the large ones. */
  lemma {:induction false} SortedBelow(s: seq<nat>, bound: nat, k: nat)
    requires Sorted(s) && k < |s|
    ensures Clamped(s[k]) < bound <==> k < Below(s, bound)
  {
    var init, last := s[..|s| - 1], s[|s| - 1];
    if k < |s| - 1 {
      SortedBelow(init, bound, k);
    } else {
      if Clamped(last) < bound {
        AllBelow(init, bound, last);
      }
    }
  }

  lemma {:induction false} AllBelow(s: seq<nat>, bound: nat, top: nat)
    requires Clamped(top) < bound && forall j :: 0 <= j < |s| ==> s[j] <= top
    ensures Below(s, bound) == |s|
  {
    if s != [] {
      AllBelow(s[..|s| - 1], bound, top);
    }
  }

  /** The rank of the nearest-rank percentile, counted from one. */
  function Rank(total: nat, pct: nat): nat {
    (total * pct + 99) / 100
  }

  lemma RankInRange(total: nat, pct: nat)
    requires total > 0 && 1 <= pct <= 100
    ensures 1 <= Rank(total, pct) <= total
  {
    MulMonotone(1, pct, total);
    MulMonotone(pct, 100, total);
  }

  /**
   The answer of the histogram for a percentile: the power of two that the exact
   nearest-rank percentile lies above by less than a factor of two, or the top value.
   */
  ghost predicate Approximates(r: nat, samples: seq<nat>, pct: nat) {
    && (exists i: nat :: i < BUCKETS && r == Pow2(i))
    && forall sorted: seq<nat> | Sorted(sorted) && multiset(sorted) == multiset(samples) && |sorted| == |samples|
                              && 1 <= Rank(|samples|, pct) <= |samples| ::
         var x := Clamped(sorted[Rank(|samples|, pct) - 1]);
         r <= x && (x < 2 * r || r == TOP_VALUE)
  }

  /** How many samples are below a bound. */
  ghost function Smaller(samples: seq<nat>, bound: nat): nat {
    |set k: nat | k < |samples| && samples[k] < bound|
  }

  lemma {:induction false} BelowIsSmaller(samples: seq<nat>, bound: nat)
    requires bound >= 2
    ensures Below(samples, bound) == Smaller(samples, bound)
  {
    var small := set k: nat | k < |samples| && samples[k] < bound;
    if samples == [] {
      assert small == {};
    } else {
      var n := |samples| - 1;
      var init := samples[..n];
      BelowIsSmaller(init, bound);
      var before := set k: nat | k < |init| && init[k] < bound;
      assert small == if samples[n] < bound then before + {n} else before;
    }
  }

  /** The rank is the least one that takes in the asked percentage. */
  lemma RankIsLeast(total: nat, pct: nat)
    requires total > 0 && pct > 0
    ensures Rank(total, pct) > 0 && 100 * (Rank(total, pct) - 1) < total * pct <= 100 * Rank(total, pct)
  {
    MulMonotone(1, pct, total);
  }

  /**
   The answer said by counting: less than the asked percentage of the samples is below it, and at
   least that percentage is below twice as much, but for the last value and the first.
   */
  ghost predicate Splits(r: nat, samples: seq<nat>, pct: nat) {
    && (r > 1 ==> 100 * Smaller(samples, r) < |samples| * pct)
    && (r < 0x10_0000 ==> |samples| * pct <= 100 * Smaller(samples, 2 * r))
  }

  lemma BucketSplits(samples: seq<nat>, pct: nat, i: nat)
    requires i < BUCKETS && samples != [] && pct > 0
    requires Below(samples, Pow2(i)) < Rank(|samples|, pct)
    requires i < BUCKETS - 1 ==> Rank(|samples|, pct) <= Below(samples, Pow2(i + 1))
    ensures Splits(Pow2(i), samples, pct)
  {
    var r := Pow2(i);
    assert Pow2(i + 1) == 2 * r;
    RankIsLeast(|samples|, pct);
    if r > 1 {
      BelowIsSmaller(samples, r);
    }
    BelowIsSmaller(samples, 2 * r);
    assert i == BUCKETS - 1 ==> r == 0x10_0000 by {
      Pow2Add(10, 10);
      assert Pow2(10) == 0x400;
    }
    hide Below, Rank, Smaller;
  }

  /** The first bucket up to which there are enough samples approximates the percentile. */
  lemma BucketApproximates(samples: seq<nat>, pct: nat, i: nat)
    requires i < BUCKETS && 1 <= Rank(|samples|, pct) <= |samples|
    requires Below(samples, Pow2(i)) < Rank(|samples|, pct)
    requires i < BUCKETS - 1 ==> Rank(|samples|, pct) <= Below(samples, Pow2(i + 1))
    ensures Approximates(Pow2(i), samples, pct)
  {
    var rank := Rank(|samples|, pct);
    assert i == BUCKETS - 1 ==> Pow2(i) == TOP_VALUE by {
      Pow2Add(10, 10);
      assert Pow2(10) == 0x400;
    }
    hide Rank;
    forall sorted: seq<nat> | Sorted(sorted) && multiset(sorted) == multiset(samples) && |sorted| == |samples|
      ensures Pow2(i) <= Clamped(sorted[rank - 1])
      ensures Clamped(sorted[rank - 1]) < 2 * Pow2(i) || Pow2(i) == TOP_VALUE
    {
      BelowPermuted(samples, sorted, Pow2(i));
      SortedBelow(sorted, Pow2(i), rank - 1);
      if i < BUCKETS - 1 {
        BelowPermuted(samples, sorted, Pow2(i + 1));
        SortedBelow(sorted, Pow2(i + 1), rank - 1);
      }
    }
  }

  ghost function Sum(samples: seq<nat>): nat {
    if samples == [] then 0 else Sum(samples[..|samples| - 1]) + samples[|samples| - 1]
  }

  lemma {:induction false} SumConcat(a: seq<nat>, b: seq<nat>)
    ensures Sum(a + b) == Sum(a) + Sum(b)
  {
    if b == [] {
      assert a + b == a;
    } else {
      assert (a + b)[..|a + b| - 1] == a + b[..|b| - 1];
      SumConcat(a, b[..|b| - 1]);
    }
  }

  lemma SumOfOne(x: nat)
    ensures Sum([]) == 0 && Sum([x]) == x
  {
    assert [x][..0] == [];
  }

  /** How many samples fall into bucket i. */
  ghost function CountIn(samples: seq<nat>, i: nat): int {
    if i < BUCKETS - 1 then Below(samples, Pow2(i + 1)) - Below(samples, Pow2(i))
    else |samples| - Below(samples, Pow2(i))
  }

  lemma {:induction false} NoneBelowOne(samples: seq<nat>)
    ensures Below(samples, 1) == 0
  {
    if samples != [] {
      NoneBelowOne(samples[..|samples| - 1]);
    }
  }

  lemma CountAppended(samples: seq<nat>, latency: nat, idx: nat, i: nat)
    requires i < BUCKETS && InBucket(latency, BUCKETS, idx)
    ensures CountIn(samples + [latency], i) == CountIn(samples, i) + (if i == idx then 1 else 0)
  {
    var longer := samples + [latency];
    assert longer[..|longer| - 1] == samples;
    if i < idx {
      Pow2Monotone(i + 1, idx);
      Pow2Monotone(i, idx);
    } else if idx < i {
      Pow2Monotone(idx + 1, i);
      Pow2Monotone(idx + 1, i + 1);
    }
  }

  class Histogram {
    const count: array<nat>
    var sum: nat
    var total: nat
    ghost var samples: seq<nat>

    ghost predicate Valid()
      reads this, count
    {
      && count.Length == BUCKETS
      && total == |samples|
      && sum == Sum(samples)
      && forall i :: 0 <= i < BUCKETS ==> count[i] == CountIn(samples, i)
    }

    constructor ()
      ensures Valid() && fresh(count) && samples == []
    {
      count := new nat[BUCKETS](i => 0);
      sum, total, samples := 0, 0, [];
    }

    method Add(latencyUs: nat)
      requires Valid()
      modifies this, count
      ensures Valid() && samples == old(samples) + [latencyUs]
    {
      var idx := BucketIndex(Clamped(latencyUs), BUCKETS);
      forall i | 0 <= i < BUCKETS
        ensures CountIn(samples + [latencyUs], i) == CountIn(samples, i) + (if i == idx then 1 else 0)
      {
        CountAppended(samples, latencyUs, idx, i);
      }
      SumConcat(samples, [latencyUs]);
      count[idx] := count[idx] + 1;
      sum := sum + latencyUs;
      total := total + 1;
      samples := samples + [latencyUs];
    }

    /** The bucket search; with samples and a percentage in 1..100 it always ends inside the loop. */
    method Percentile(pct: nat) returns (r: nat)
      requires Valid()
      ensures samples == [] ==> r == 0
      ensures samples != [] && 1 <= pct <= 100 ==> Approximates(r, samples, pct) && Splits(r, samples, pct)
    {
      r := 0;
      if total == 0 {
        return;
      }
      var target := Rank(total, pct);
      var seen := 0;
      hide Splits, Approximates;
      NoneBelowOne(samples);
      for i := 0 to BUCKETS
        invariant seen == Below(samples, Pow2(i)) || (i == BUCKETS && seen == total)
        invariant i > 0 ==> seen < target
        invariant i == BUCKETS ==> seen == total
      {
        seen := seen + count[i];
        if seen >= target {
          r := Pow2(i);
          if 1 <= pct <= 100 {
            RankInRange(total, pct);
            BucketApproximates(samples, pct, i);
            BucketSplits(samples, pct, i);
          }
          return;
        }
      }
      if 1 <= pct <= 100 {
        RankInRange(total, pct);
        assert false;
      }
      r := TOP_VALUE;
    }
  }

  /** The processors' histograms are separate objects with separate counters. */
  ghost predicate Separate(cpus: seq<Histogram>)
  {
    && (forall c :: 0 <= c < |cpus| ==> cpus[c].count.Length == BUCKETS)
    && forall c, d :: 0 <= c < d < |cpus| ==> cpus[c] != cpus[d] && cpus[c].count != cpus[d].count
  }

  ghost function AllSamples(cpus: seq<Histogram>): seq<nat>
    reads cpus
  {
    if cpus == [] then [] else AllSamples(cpus[..|cpus| - 1]) + cpus[|cpus| - 1].samples
  }

  /** Adds one processor's counters to the merged histogram and clears them. */
  method Drain(from: Histogram, into: Histogram)
    requires from.Valid() && into.Valid() && from != into && from.count != into.count
    modifies from, from.count, into, into.count
    ensures from.Valid() && into.Valid()
    ensures into.samples == old(into.samples) + old(from.samples) && from.samples == []
  {
    ghost var left, right := into.samples, from.samples;
    for i := 0 to BUCKETS
      modifies into.count
      invariant forall k :: i <= k < BUCKETS ==> into.count[k] == old(into.count[k])
      invariant forall k :: 0 <= k < i ==> into.count[k] == old(into.count[k]) + old(from.count[k])
    {
      into.count[i] := into.count[i] + from.count[i];
    }
    into.sum := into.sum + from.sum;
    into.total := into.total + from.total;
    into.samples := left + right;
    SumConcat(left, right);
    forall i | 0 <= i < BUCKETS
      ensures CountIn(left + right, i) == CountIn(left, i) + CountIn(right, i)
    {
      BelowConcat(left, right, Pow2(i));
      BelowConcat(left, right, Pow2(i + 1));
    }
    for i := 0 to BUCKETS
      modifies from.count
      invariant forall k :: 0 <= k < i ==> from.count[k] == 0
      invariant forall k :: 0 <= k < BUCKETS ==> into.count[k] == CountIn(left + right, k)
    {
      from.count[i] := 0;
    }
    from.sum, from.total, from.samples := 0, 0, [];
  }

  /** Powers of two less than a factor of two apart, seen from below, are ordered. */
  lemma PowersOrdered(i: nat, j: nat, x: nat, y: nat)
    requires i < BUCKETS && j < BUCKETS && Pow2(i) <= x <= y
    requires y < 2 * Pow2(j) || j == BUCKETS - 1
    ensures Pow2(i) <= Pow2(j)
  {
    assert Pow2(j + 1) == 2 * Pow2(j);
    if j < i {
      Pow2Monotone(j + 1, i);
    } else {
      Pow2Monotone(i, j);
    }
  }

  /** A higher percentile of the same samples is never answered with a smaller value. */
  lemma PercentilesOrdered(samples: seq<nat>, low: nat, high: nat, p: nat, q: nat)
    requires samples != [] && 1 <= p <= q <= 100
    requires Approximates(low, samples, p) && Approximates(high, samples, q)
    ensures low <= high
  {
    RankInRange(|samples|, p);
    RankInRange(|samples|, q);
    MulMonotone(p, q, |samples|);
    assert Rank(|samples|, p) <= Rank(|samples|, q);
    var sorted := SortedCopy(samples);
    assert |sorted| == |samples| by {
      assert |multiset(sorted)| == |multiset(samples)|;
    }
    var i: nat :| i < BUCKETS && low == Pow2(i);
    var j: nat :| j < BUCKETS && high == Pow2(j);
    var x, y := Clamped(sorted[Rank(|samples|, p) - 1]), Clamped(sorted[Rank(|samples|, q) - 1]);
    hide Approximates, Rank;
    if j == BUCKETS - 1 || y < 2 * high {
      PowersOrdered(i, j, x, y);
    } else {
      TopIsLast(j);
    }
  }

  lemma TopIsLast(j: nat)
    requires j < BUCKETS && Pow2(j) == TOP_VALUE
    ensures j == BUCKETS - 1
  {
    Pow2Add(10, 10);
    assert Pow2(10) == 0x400;
    if j < BUCKETS - 1 {
      assert Pow2(j + 1) == 2 * Pow2(j);
      Pow2Monotone(j + 1, BUCKETS - 1);
    }
  }

  lemma {:induction false} SortedCopy(s: seq<nat>) returns (t: seq<nat>)
    ensures Sorted(t) && multiset(t) == multiset(s)
  {
    if s == [] {
      t := [];
    } else {
      assert s == s[..|s| - 1] + [s[|s| - 1]];
      var rest := SortedCopy(s[..|s| - 1]);
      t := Inserted(rest, s[|s| - 1]);
    }
  }

  lemma AppendedSorted(s: seq<nat>, top: nat)
    requires Sorted(s) && (s == [] || s[|s| - 1] <= top || forall v <- s :: v <= top)
    ensures Sorted(s + [top])
  {
    assert forall k :: 0 <= k < |s| ==> s[k] in s;
  }

  lemma {:induction false} Inserted(s: seq<nat>, x: nat) returns (t: seq<nat>)
    requires Sorted(s)
    ensures Sorted(t) && multiset(t) == multiset(s) + multiset{x}
  {
    if s == [] || s[|s| - 1] <= x {
      AppendedSorted(s, x);
      t := s + [x];
    } else {
      var init, last := s[..|s| - 1], s[|s| - 1];
      assert s == init + [last];
      assert Sorted(init) && forall v <- init :: v <= last;
      hide Sorted;
      var u := Inserted(init, x);
      forall v | v in u
        ensures v <= last
      {
        assert v in multiset(u);
        assert v == x || v in multiset(init);
      }
      AppendedSorted(u, last);
      t := u + [last];
    }
  }

  /** Merges the histograms of all processors into a new one and clears them. */
  method Merge(cpus: seq<Histogram>) returns (merged: Histogram)
    requires Separate(cpus) && forall c :: 0 <= c < |cpus| ==> cpus[c].Valid()
    modifies cpus, set c | 0 <= c < |cpus| :: cpus[c].count
    ensures fresh(merged) && fresh(merged.count) && merged.Valid()
    ensures merged.samples == old(AllSamples(cpus))
    ensures forall c :: 0 <= c < |cpus| ==> cpus[c].Valid() && cpus[c].samples == []
  {
    merged := new Histogram();
    for c := 0 to |cpus|
      invariant merged.Valid() && fresh(merged) && fresh(merged.count)
      invariant forall d :: 0 <= d < |cpus| ==> cpus[d].Valid()
      invariant forall d :: 0 <= d < c ==> cpus[d].samples == []
      invariant forall d :: c <= d < |cpus| ==> cpus[d].samples == old(cpus[d].samples)
      invariant merged.samples == old(AllSamples(cpus[..c]))
    {
      hide CountIn, Sum;
      assert cpus[..c + 1][..c] == cpus[..c];
      Drain(cpus[c], merged);
    }
    assert cpus[..|cpus|] == cpus;
  }

  /** The numbers published for a closed window: two percentiles, the average, and their ratio in percent. */
  method Publish(merged: Histogram) returns (p50: nat, p99: nat, average: nat, ratio: nat)
    requires merged.Valid()
    ensures merged.samples != [] ==> Approximates(p50, merged.samples, 50) && Approximates(p99, merged.samples, 99)
    ensures merged.samples != [] ==> average == Sum(merged.samples) / |merged.samples| % 0x1_0000_0000
    ensures merged.samples == [] ==> p50 == 0 && p99 == 0 && average == 0
    ensures p50 <= p99 && ratio <= 100
    ensures if p99 == 0 then ratio == 0 else ratio * p99 <= p50 * 100 < (ratio + 1) * p99
  {
    p50, p99, average, ratio := 0, 0, 0, 0;
    if merged.total != 0 {
      p50 := merged.Percentile(50);
      p99 := merged.Percentile(99);
      PercentilesOrdered(merged.samples, p50, p99, 50, 99);
      hide Approximates;
      average := Div(merged.sum, merged.total) % U32_SIZE;
      if p99 != 0 {
        RatioAtMost100(p50, p99);
        ratio := Div(p50 * 100, p99);
      }
    }
  }

  lemma RatioAtMost100(a: nat, b: nat)
    requires a <= b && b > 0
    ensures Div(a * 100, b) <= 100
    ensures Div(a * 100, b) * b <= a * 100 < (Div(a * 100, b) + 1) * b
  {
    var q := Div(a * 100, b);
    assert a * 100 == b * q + (a * 100) % b;
    assert (q + 1) * b == q * b + b;
    if q > 100 {
      MulMonotone(101, q, b);
    }
  }
}
