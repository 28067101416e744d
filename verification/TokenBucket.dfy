/** The token bucket of the dirty-rate limiter in exact arithmetic, and what it promises over whole runs. */
module TokenBucket {
  import opened Powers

  const NSEC_PER_SEC: nat := 1_000_000_000

  datatype Bucket = Bucket(wbps: nat, burst: nat, tokens: nat, lastRefill: nat)

  predicate WellFormed(b: Bucket, page: nat) {
    && b.tokens <= b.burst
    && (b.wbps == 0 <==> b.burst == 0)
    && (b.wbps > 0 ==> page <= b.burst)
  }

  /** What is credited for the time since the last refill, in bytes times NSEC_PER_SEC. */
  function Credit(b: Bucket, now: nat): nat
    requires b.lastRefill <= now
  {
    MulMonotone(0, now - b.lastRefill, b.wbps);
    (now - b.lastRefill) * b.wbps
  }

  function Max(a: nat, b: nat): nat {
    if a < b then b else a
  }

  /** Whole bytes are credited, and the clock of the bucket advances by the time they stand for. */
  function Refilled(b: Bucket, now: nat): Bucket {
    if b.wbps == 0 || b.burst == 0 then b
    else if b.tokens >= b.burst then b.(tokens := b.burst, lastRefill := now)
    else if now <= b.lastRefill then b
    else if Credit(b, now) >= (b.burst - b.tokens) * NSEC_PER_SEC then b.(tokens := b.burst, lastRefill := now)
    else
      var added := Credit(b, now) / NSEC_PER_SEC;
      if added == 0 then b
      else b.(tokens := b.tokens + added, lastRefill := b.lastRefill + Max(1, added * NSEC_PER_SEC / b.wbps))
  }

  /** The refill adds some bytes but does not fill the bucket. */
  predicate IsPartial(b: Bucket, now: nat) {
    b.tokens < Refilled(b, now).tokens < b.burst
  }

  /** Tokens and refill time together: what the bucket has gained ahead of the clock. */
  function Potential(b: Bucket): int {
    NSEC_PER_SEC * b.tokens - b.wbps * b.lastRefill
  }

  lemma PartialAdvance(b: Bucket, now: nat, added: nat)
    requires b.wbps > 0 && b.lastRefill < now
    requires added == Credit(b, now) / NSEC_PER_SEC && added > 0
    ensures var advanced := Max(1, added * NSEC_PER_SEC / b.wbps);
            && advanced <= now - b.lastRefill
            && NSEC_PER_SEC * added <= b.wbps * (advanced + 1)
            && (b.wbps <= NSEC_PER_SEC ==> b.wbps * advanced <= NSEC_PER_SEC * added)
  {
    var w, elapsed, bytes := b.wbps, now - b.lastRefill, added * NSEC_PER_SEC;
    var whole := bytes / w;
    assert bytes == w * whole + bytes % w;
    assert bytes <= elapsed * w;
    if whole > elapsed {
      MulMonotone(elapsed + 1, whole, w);
    }
    assert w * (whole + 1) == w * whole + w;
    assert whole == 0 ==> w * whole == 0 && w * 1 == w && w * 2 == w + w;
  }

  /** One refill: never above the burst, never ahead of the clock, and no gain beyond the elapsed time. */
  lemma RefillBounds(b: Bucket, now: nat, page: nat)
    requires WellFormed(b, page) && b.lastRefill <= now
    ensures var r := Refilled(b, now);
            && WellFormed(r, page) && r.wbps == b.wbps && r.burst == b.burst
            && b.tokens <= r.tokens && b.lastRefill <= r.lastRefill <= now
            && Potential(r) <= Potential(b) + (if IsPartial(b, now) then b.wbps else 0)
  {
    var r, w := Refilled(b, now), b.wbps;
    if b.tokens >= b.burst {
      MulMonotone(b.lastRefill, now, w);
    } else if b.lastRefill < now {
      assert w * now == w * b.lastRefill + Credit(b, now);
      if r.tokens < b.burst && b.tokens < r.tokens {
        var added := Credit(b, now) / NSEC_PER_SEC;
        PartialAdvance(b, now, added);
        var advanced := Max(1, added * NSEC_PER_SEC / w);
        assert w * (b.lastRefill + advanced) == w * b.lastRefill + w * advanced;
        assert w * (advanced + 1) == w * advanced + w;
      }
    }
  }

  /**
   What a refill makes of the bucket: the whole bytes that the time has earned are added up to the
   burst. The refill time moves to the present if that fills the bucket and stays if it earns nothing;
   otherwise it moves by the whole nanoseconds that the bytes stand for, and by one at least.
   */
  lemma RefillEarns(b: Bucket, now: nat, page: nat)
    requires WellFormed(b, page) && b.wbps > 0 && b.lastRefill <= now
    ensures 0 <= (now - b.lastRefill) * b.wbps
    ensures var r, earned := Refilled(b, now), (now - b.lastRefill) * b.wbps / 1_000_000_000;
            && r == b.(tokens := r.tokens, lastRefill := r.lastRefill)
            && r.tokens == (if b.tokens + earned <= b.burst then b.tokens + earned else b.burst)
            && (r.tokens == b.burst ==> r.lastRefill == now)
            && (r.tokens < b.burst && earned == 0 ==> r.lastRefill == b.lastRefill)
            && (r.tokens < b.burst && earned > 0 ==>
                  var advanced := r.lastRefill - b.lastRefill;
                  && advanced >= 1 && earned * 1_000_000_000 < b.wbps * (advanced + 1)
                  && (advanced == 1 || b.wbps * advanced <= earned * 1_000_000_000))
  {
    MulMonotone(0, now - b.lastRefill, b.wbps);
    var earned := Credit(b, now) / NSEC_PER_SEC;
    if b.tokens < b.burst && earned > 0 && Credit(b, now) < (b.burst - b.tokens) * NSEC_PER_SEC {
      var bytes := earned * NSEC_PER_SEC;
      var advanced := Max(1, bytes / b.wbps);
      assert Refilled(b, now) == b.(tokens := b.tokens + earned, lastRefill := b.lastRefill + advanced);
      hide Refilled;
      WholeNanoseconds(bytes, b.wbps);
    }
  }

  lemma WholeNanoseconds(bytes: nat, rate: nat)
    requires rate > 0
    ensures var advanced := Max(1, bytes / rate);
            bytes < rate * (advanced + 1) && (advanced == 1 || rate * advanced <= bytes)
  {
    assert bytes == rate * (bytes / rate) + bytes % rate;
    assert rate * (bytes / rate + 1) == rate * (bytes / rate) + rate;
  }

  /** A page write at time `now`: refill, then charge one page if there are enough tokens. */
  function Written(b: Bucket, now: nat, page: nat): Bucket {
    var r := Refilled(b, now);
    if r.tokens >= page then r.(tokens := r.tokens - page) else r
  }

  predicate Admitted(b: Bucket, now: nat, page: nat) {
    Refilled(b, now).tokens >= page
  }

  /** Write times from `start` to `end`, in the order of the clock. */
  predicate InOrder(start: nat, times: seq<nat>, end: nat)
    decreases |times|
  {
    start <= end && (times != [] ==> start <= times[0] && InOrder(times[0], times[1..], end))
  }

  function RunWrites(b: Bucket, times: seq<nat>, page: nat): Bucket
    decreases |times|
  {
    if times == [] then b else RunWrites(Written(b, times[0], page), times[1..], page)
  }

  function Charged(b: Bucket, times: seq<nat>, page: nat): nat
    decreases |times|
  {
    if times == [] then 0
    else (if Admitted(b, times[0], page) then page else 0) + Charged(Written(b, times[0], page), times[1..], page)
  }

  function Partials(b: Bucket, times: seq<nat>, page: nat): nat
    decreases |times|
  {
    if times == [] then 0
    else (if IsPartial(b, times[0]) then 1 else 0) + Partials(Written(b, times[0], page), times[1..], page)
  }

  /** One write: what is charged and what is left never exceed what there was and what was earned. */
  lemma WriteBounds(b: Bucket, now: nat, page: nat)
    requires WellFormed(b, page) && b.lastRefill <= now
    ensures var w := Written(b, now, page);
            && WellFormed(w, page) && w.wbps == b.wbps && w.burst == b.burst && b.lastRefill <= w.lastRefill <= now
            && NSEC_PER_SEC * (if Admitted(b, now, page) then page else 0) + Potential(w)
                 <= Potential(b) + (if IsPartial(b, now) then b.wbps else 0)
  {
    RefillBounds(b, now, page);
    hide Refilled;
    assert NSEC_PER_SEC * (Refilled(b, now).tokens - page)
           == NSEC_PER_SEC * Refilled(b, now).tokens - NSEC_PER_SEC * page;
  }

  /** The invariant of a run: charged bytes and tokens left are paid for by time and partial refills. */
  lemma {:induction false} RunPotential(b: Bucket, times: seq<nat>, page: nat, end: nat)
    requires WellFormed(b, page) && b.wbps > 0 && InOrder(b.lastRefill, times, end)
    ensures var r := RunWrites(b, times, page);
            && r.wbps == b.wbps && r.lastRefill <= end
            && NSEC_PER_SEC * Charged(b, times, page) + Potential(r)
                 <= Potential(b) + b.wbps * Partials(b, times, page)
    decreases |times|
  {
    if times != [] {
      var now, w := times[0], Written(b, times[0], page);
      assert now <= end && InOrder(w.lastRefill, times[1..], end) by {
        WriteBounds(b, now, page);
      }
      WriteBounds(b, now, page);
      RunPotential(w, times[1..], page, end);
      hide Written, Potential, IsPartial, Admitted, WellFormed, InOrder;
      var c, k := Charged(w, times[1..], page), Partials(w, times[1..], page);
      var paid, partial := if Admitted(b, now, page) then page else 0, if IsPartial(b, now) then 1 else 0;
      assert Charged(b, times, page) == paid + c && Partials(b, times, page) == partial + k;
      Distribute(NSEC_PER_SEC, paid, c);
      Distribute(b.wbps, partial, k);
    }
  }

  lemma Distribute(f: int, a: int, b: int)
    ensures f * (a + b) == f * a + f * b
    ensures a == 0 ==> f * a == 0
    ensures a == 1 ==> f * a == f
  {
  }

  /**
   The rate limit. From a full bucket at time `start`, any sequence of writes until `end`
   charges at most the burst plus what the rate allows for the elapsed time, with one
   nanosecond of rounding for each partial refill.
   */
  lemma RateLimit(b: Bucket, times: seq<nat>, page: nat, end: nat)
    requires WellFormed(b, page) && b.wbps > 0 && b.tokens == b.burst
    requires InOrder(b.lastRefill, times, end)
    ensures NSEC_PER_SEC * Charged(b, times, page)
         <= NSEC_PER_SEC * b.burst + b.wbps * (end - b.lastRefill + Partials(b, times, page))
  {
    RunPotential(b, times, page, end);
    var r, k := RunWrites(b, times, page), Partials(b, times, page);
    MulMonotone(r.lastRefill, end, b.wbps);
    assert b.wbps * (end - b.lastRefill + k) == b.wbps * end - b.wbps * b.lastRefill + b.wbps * k;
  }

  /** Every partial refill moves the refill time on by a nanosecond or more. */
  lemma {:induction false} PartialsTakeTime(b: Bucket, times: seq<nat>, page: nat, end: nat)
    requires WellFormed(b, page) && b.wbps > 0 && InOrder(b.lastRefill, times, end)
    ensures Partials(b, times, page) <= end - b.lastRefill
    decreases |times|
  {
    if times != [] {
      var w := Written(b, times[0], page);
      WriteBounds(b, times[0], page);
      assert IsPartial(b, times[0]) ==> b.lastRefill < w.lastRefill;
      assert InOrder(w.lastRefill, times[1..], end);
      hide Written, IsPartial, WellFormed;
      PartialsTakeTime(w, times[1..], page, end);
    }
  }

  /** The same without a count: at most the burst, and twice what the rate allows for the elapsed time. */
  lemma ClosedRateLimit(b: Bucket, times: seq<nat>, page: nat, end: nat)
    requires WellFormed(b, page) && b.wbps > 0 && b.tokens == b.burst
    requires InOrder(b.lastRefill, times, end)
    ensures b.lastRefill <= end
    ensures NSEC_PER_SEC * Charged(b, times, page) <= NSEC_PER_SEC * b.burst + 2 * (b.wbps * (end - b.lastRefill))
  {
    RateLimit(b, times, page, end);
    PartialsTakeTime(b, times, page, end);
    hide Charged, Partials, InOrder, WellFormed;
    var elapsed, k := end - b.lastRefill, Partials(b, times, page);
    MulMonotone(k, elapsed, b.wbps);
    assert b.wbps * (elapsed + k) == b.wbps * elapsed + b.wbps * k;
  }

  /** Time has earned whole bytes, not enough to fill the bucket, and they are worth less than one nanosecond. */
  predicate PaysForRounding(b: Bucket, now: nat)
    requires b.lastRefill <= now && b.tokens <= b.burst
  {
    var added := Credit(b, now) / NSEC_PER_SEC;
    added > 0 && Credit(b, now) < (b.burst - b.tokens) * NSEC_PER_SEC && added * NSEC_PER_SEC < b.wbps
  }

  /** Time has earned more than the bucket lacks. */
  predicate Overflows(b: Bucket, now: nat)
    requires b.lastRefill <= now && b.tokens <= b.burst
  {
    Credit(b, now) > (b.burst - b.tokens) * NSEC_PER_SEC
  }

  /**
   A refill fills the bucket or keeps all credit, except exactly when it pays for rounding; at rates
   of up to 10^9 it never does. A refill that fills the bucket drops exactly what overflows.
   */
  lemma RefillKeepsCredit(b: Bucket, now: nat, page: nat)
    requires WellFormed(b, page) && b.wbps > 0 && b.lastRefill <= now
    ensures var r := Refilled(b, now);
            && (r.tokens == r.burst || Potential(b) <= Potential(r) <==> !PaysForRounding(b, now))
            && (Potential(b) <= Potential(r) <==> !PaysForRounding(b, now) && !Overflows(b, now))
    ensures b.wbps <= NSEC_PER_SEC ==> !PaysForRounding(b, now)
  {
    if Credit(b, now) / NSEC_PER_SEC > 0 && Credit(b, now) < (b.burst - b.tokens) * NSEC_PER_SEC {
      PartialKeepsCredit(b, now, page);
    } else {
      assert b.wbps * now == b.wbps * b.lastRefill + Credit(b, now);
    }
  }

  lemma PartialKeepsCredit(b: Bucket, now: nat, page: nat)
    requires WellFormed(b, page) && b.wbps > 0 && b.lastRefill <= now
    requires Credit(b, now) / NSEC_PER_SEC > 0 && Credit(b, now) < (b.burst - b.tokens) * NSEC_PER_SEC
    ensures Refilled(b, now).tokens < b.burst
    ensures Potential(b) <= Potential(Refilled(b, now)) <==> !PaysForRounding(b, now)
  {
    var added := Credit(b, now) / NSEC_PER_SEC;
    var bytes := added * NSEC_PER_SEC;
    PartialAdvance(b, now, added);
    WorthOfAdvance(bytes, b.wbps);
    var advanced := Max(1, bytes / b.wbps);
    assert Refilled(b, now) == b.(tokens := b.tokens + added, lastRefill := b.lastRefill + advanced);
    hide Refilled, Max;
    assert b.wbps * (b.lastRefill + advanced) == b.wbps * b.lastRefill + b.wbps * advanced;
  }

  /** The time that the refill clock advances is paid for by the bytes unless it is the least possible. */
  lemma WorthOfAdvance(bytes: nat, rate: nat)
    requires rate > 0
    ensures rate * Max(1, bytes / rate) <= bytes <==> bytes >= rate
  {
    assert bytes == rate * (bytes / rate) + bytes % rate;
    if bytes >= rate {
      assert bytes / rate >= 1;
    } else {
      assert rate * Max(1, bytes / rate) >= rate by {
        MulMonotone(1, Max(1, bytes / rate), rate);
      }
    }
  }

  /** Above a byte per nanosecond it happens: two bytes earned in one nanosecond at 2.048 GB/s. */
  lemma RoundingCanCost()
    ensures var b := Bucket(2_048_000_000, 256_000_000, 0, 0);
            WellFormed(b, 4096) && PaysForRounding(b, 1) && Potential(Refilled(b, 1)) < Potential(b)
  {
  }

  /** None of the refills of a run pays for rounding or overflows. */
  predicate Lossless(b: Bucket, times: seq<nat>, page: nat)
    decreases |times|
  {
    times == [] ||
    (b.lastRefill <= times[0] && b.tokens <= b.burst
     && !PaysForRounding(b, times[0]) && !Overflows(b, times[0])
     && Lossless(Written(b, times[0], page), times[1..], page))
  }

  /** What is charged and what is left are all there was and all that was earned. */
  lemma WriteKeepsCredit(b: Bucket, now: nat, page: nat)
    requires WellFormed(b, page) && b.wbps > 0 && b.lastRefill <= now
    requires !PaysForRounding(b, now) && !Overflows(b, now)
    ensures NSEC_PER_SEC * (if Refilled(b, now).tokens >= page then page else 0) + Potential(Written(b, now, page))
            >= Potential(b)
  {
    RefillKeepsCredit(b, now, page);
    RefillBounds(b, now, page);
    hide Refilled, PaysForRounding, Overflows;
    assert NSEC_PER_SEC * (Refilled(b, now).tokens - page)
           == NSEC_PER_SEC * Refilled(b, now).tokens - NSEC_PER_SEC * page;
  }

  /**
   Nothing is lost: over a run without a loss, the bytes charged and the tokens left are at least the
   tokens at the start and what the rate allows up to the last refill.
   */
  lemma {:induction false} NothingIsLost(b: Bucket, times: seq<nat>, page: nat, end: nat)
    requires WellFormed(b, page) && b.wbps > 0 && InOrder(b.lastRefill, times, end) && Lossless(b, times, page)
    ensures var r := RunWrites(b, times, page);
            NSEC_PER_SEC * Charged(b, times, page) + NSEC_PER_SEC * r.tokens - b.wbps * r.lastRefill
            >= NSEC_PER_SEC * b.tokens - b.wbps * b.lastRefill
    decreases |times|
  {
    if times != [] {
      var now, w := times[0], Written(b, times[0], page);
      WriteBounds(b, now, page);
      WriteKeepsCredit(b, now, page);
      hide Written, WellFormed, PaysForRounding, Overflows, Refilled;
      NothingIsLost(w, times[1..], page, end);
      hide InOrder, Lossless;
      var c, paid := Charged(w, times[1..], page), if Admitted(b, now, page) then page else 0;
      assert Charged(b, times, page) == paid + c;
      Distribute(NSEC_PER_SEC, paid, c);
    }
  }

  /** No refill of a run fills the bucket. */
  predicate NeverFull(b: Bucket, times: seq<nat>, page: nat)
    decreases |times|
  {
    times == [] || (Refilled(b, times[0]).tokens < b.burst && NeverFull(Written(b, times[0], page), times[1..], page))
  }

  /** At rates of up to 10^9 bytes a second, a run in which no refill fills the bucket is without a loss. */
  lemma {:induction false} SlowRatesAreLossless(b: Bucket, times: seq<nat>, page: nat, end: nat)
    requires WellFormed(b, page) && 0 < b.wbps <= NSEC_PER_SEC && InOrder(b.lastRefill, times, end)
    requires NeverFull(b, times, page)
    ensures Lossless(b, times, page)
    decreases |times|
  {
    if times != [] {
      WriteBounds(b, times[0], page);
      RefillKeepsCredit(b, times[0], page);
      assert !Overflows(b, times[0]);
      hide Written, WellFormed, Refilled, PaysForRounding, Overflows;
      SlowRatesAreLossless(Written(b, times[0], page), times[1..], page, end);
    }
  }

  /** Tokens in the bucket are spent on pages and on nothing else: as many writes as they pay for are admitted. */
  lemma {:induction false} TokensAreSpent(b: Bucket, times: seq<nat>, page: nat, end: nat)
    requires WellFormed(b, page) && b.wbps > 0 && InOrder(b.lastRefill, times, end)
    requires |times| * page <= b.tokens
    ensures Charged(b, times, page) == |times| * page
    ensures RunWrites(b, times, page).tokens >= b.tokens - |times| * page
    decreases |times|
  {
    if times != [] {
      var w, n := Written(b, times[0], page), |times| - 1;
      RefillBounds(b, times[0], page);
      WriteBounds(b, times[0], page);
      assert |times| * page == n * page + page;
      MulMonotone(0, n, page);
      assert w.tokens >= b.tokens - page && Admitted(b, times[0], page);
      hide Written, WellFormed, Refilled, Admitted;
      TokensAreSpent(w, times[1..], page, end);
    }
  }

  /** A writer that lacks `missing` bytes and sleeps at least the time they take is admitted by its next refill. */
  lemma WaitSuffices(b: Bucket, now: nat, wait: nat, later: nat, page: nat)
    requires WellFormed(b, page) && b.wbps > 0 && b.tokens < page && b.lastRefill <= now
    requires (page - b.tokens) * NSEC_PER_SEC <= wait * b.wbps
    requires now + wait <= later
    ensures Admitted(b, later, page)
  {
    MulMonotone(wait, later - b.lastRefill, b.wbps);
  }

  /** A sleep of a full second earns at least the bytes of one second. */
  lemma SecondShrinksDeficit(b: Bucket, now: nat, later: nat, page: nat)
    requires WellFormed(b, page) && b.wbps > 0 && b.tokens < page && b.lastRefill <= now
    requires now + NSEC_PER_SEC <= later
    ensures var r := Refilled(b, later); Admitted(b, later, page) || r.tokens >= b.tokens + b.wbps
  {
    MulMonotone(NSEC_PER_SEC, later - b.lastRefill, b.wbps);
    if Credit(b, later) < (b.burst - b.tokens) * NSEC_PER_SEC {
      assert Credit(b, later) / NSEC_PER_SEC >= b.wbps;
    }
  }

  /** The time `bytes` take, rounded up; a nanosecond more than needed if only whole seconds divide evenly. */
  function TimeFor(bytes: nat, rate: nat): nat
    requires rate > 0
  {
    bytes * NSEC_PER_SEC / rate + (if bytes % rate != 0 then 1 else 0)
  }

  lemma TimeForCovers(bytes: nat, rate: nat)
    requires rate > 0
    ensures bytes * NSEC_PER_SEC <= TimeFor(bytes, rate) * rate
  {
    var total, q := bytes * NSEC_PER_SEC, bytes * NSEC_PER_SEC / rate;
    assert total == rate * q + total % rate;
    assert (q + 1) * rate == rate * q + rate;
    if bytes % rate == 0 {
      var seconds := bytes / rate;
      assert bytes == rate * seconds;
      assert total == rate * (seconds * NSEC_PER_SEC);
      ExactQuotient(total, rate, seconds * NSEC_PER_SEC);
    }
  }

  /** It is exact if the bytes are whole seconds of the rate, and otherwise too long by a nanosecond at most. */
  lemma TimeForIsTight(bytes: nat, rate: nat)
    requires rate > 0 && bytes > 0
    ensures TimeFor(bytes, rate) > 0 && (TimeFor(bytes, rate) - 1) * rate <= bytes * NSEC_PER_SEC
    ensures bytes % rate == 0 ==> TimeFor(bytes, rate) * rate == bytes * NSEC_PER_SEC
    ensures bytes % rate != 0 ==> TimeFor(bytes, rate) * rate > bytes * NSEC_PER_SEC
  {
    var total, q := bytes * NSEC_PER_SEC, bytes * NSEC_PER_SEC / rate;
    assert total == rate * q + total % rate;
    TimeForCovers(bytes, rate);
    MulMonotone(TimeFor(bytes, rate) - 1, q, rate);
    if bytes % rate != 0 {
      assert (q + 1) * rate == rate * q + rate;
    }
  }

  lemma ExactQuotient(total: nat, rate: nat, q: nat)
    requires rate > 0 && total == rate * q
    ensures total / rate == q
  {
    var r := total / rate;
    assert total == rate * r + total % rate;
    if r < q {
      MulMonotone(r + 1, q, rate);
    } else if r > q {
      MulMonotone(q + 1, r, rate);
    }
  }

  /** A writer that keeps trying, sleeping the computed wait (a second at most) plus any delay in between. */
  predicate EventuallyAdmitted(b: Bucket, now: nat, delays: seq<nat>, page: nat)
    requires b.wbps > 0
    decreases |delays|
  {
    Admitted(b, now, page) ||
    (delays != [] &&
     var r := Refilled(b, now);
     r.tokens < page &&
     EventuallyAdmitted(r, now + Sleep(r, page) + delays[0], delays[1..], page))
  }

  function Sleep(b: Bucket, page: nat): nat
    requires b.wbps > 0 && b.tokens < page
  {
    var wait := TimeFor(page - b.tokens, b.wbps);
    if wait < NSEC_PER_SEC then wait else NSEC_PER_SEC
  }

  /** A lone writer gets through: every full second makes up wbps of its deficit, a shorter wait all of it. */
  lemma {:induction false} LoneWriterAdmitted(b: Bucket, now: nat, delays: seq<nat>, page: nat)
    requires WellFormed(b, page) && b.wbps > 0 && b.lastRefill <= now
    requires page - Refilled(b, now).tokens <= b.wbps * |delays|
    ensures EventuallyAdmitted(b, now, delays, page)
    decreases |delays|
  {
    var r, w := Refilled(b, now), b.wbps;
    RefillBounds(b, now, page);
    if !Admitted(b, now, page) {
      if delays == [] {
        assert false;
      }
      var later := now + Sleep(r, page) + delays[0];
      if Sleep(r, page) < NSEC_PER_SEC {
        TimeForCovers(page - r.tokens, w);
        WaitSuffices(r, now, Sleep(r, page), later, page);
      } else {
        SecondShrinksDeficit(r, now, later, page);
        hide Refilled, Sleep, WellFormed;
        if !Admitted(r, later, page) {
          Distribute(w, |delays[1..]|, 1);
          LoneWriterAdmitted(r, later, delays[1..], page);
        }
      }
    }
  }
}
