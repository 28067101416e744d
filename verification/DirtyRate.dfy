/** The dirty-rate limiter: 64-bit code with saturation, proved against the exact token bucket. */
module DirtyRate {
  import opened Powers
  import opened TokenBucket

  const U64_MAX: nat := 0xffff_ffff_ffff_ffff
  const KIB: nat := 1024

  function AddSat(left: nat, right: nat): nat
    requires left <= U64_MAX
  {
    if U64_MAX - left < right then U64_MAX else left + right
  }

  function BytesForNs(durationNs: nat, rate: nat): nat {
    MulMonotone(0, durationNs, rate);
    durationNs * rate / NSEC_PER_SEC
  }

  function NsForBytes(bytes: nat, rate: nat, roundUp: bool): nat
    requires 0 < rate <= U64_MAX
  {
    var seconds, remainder := bytes / rate, bytes % rate;
    if seconds > U64_MAX / NSEC_PER_SEC then U64_MAX
    else
      var whole := AddSat(seconds * NSEC_PER_SEC, Scaled(remainder, rate));
      if roundUp && remainder != 0 then AddSat(whole, 1) else whole
  }

  function Scaled(remainder: nat, rate: nat): nat
    requires rate > 0
  {
    Div(remainder * NSEC_PER_SEC, rate)
  }

  /** Splitting off the whole seconds first changes nothing, and no saturation occurs below 2^34 seconds. */
  lemma NsForBytesExact(bytes: nat, rate: nat)
    requires 0 < rate <= U64_MAX && bytes < rate * 0x4_0000_0000
    ensures NsForBytes(bytes, rate, false) == bytes * NSEC_PER_SEC / rate < U64_MAX
    ensures NsForBytes(bytes, rate, true) == TimeFor(bytes, rate) < U64_MAX
  {
    var seconds, remainder := bytes / rate, bytes % rate;
    assert bytes == rate * seconds + remainder;
    if seconds >= 0x4_0000_0000 {
      MulMonotone(0x4_0000_0000, seconds, rate);
    }
    var part := remainder * NSEC_PER_SEC / rate;
    assert remainder * NSEC_PER_SEC == rate * part + (remainder * NSEC_PER_SEC) % rate;
    if part >= NSEC_PER_SEC {
      MulMonotone(NSEC_PER_SEC, part, rate);
    }
    var total, q := bytes * NSEC_PER_SEC, seconds * NSEC_PER_SEC + part;
    assert total == rate * q + (remainder * NSEC_PER_SEC) % rate by {
      MulAssoc(rate, seconds, NSEC_PER_SEC);
    }
    FloorIs(total, rate, q);
  }

  lemma FloorIs(total: nat, rate: nat, q: nat)
    requires rate > 0 && rate * q <= total < rate * q + rate
    ensures total / rate == q
  {
    var r := total / rate;
    assert total == rate * r + total % rate;
    if r < q {
      MulMonotone(r + 1, q, rate);
    } else if r > q {
      MulMonotone(q + 1, r, rate);
    }
  }

  /**
   A page short of a full bucket at 1000 KiB per second, after four milliseconds: less than the
   computed time for a full refill has passed, and yet all that is missing has been earned.
   */
  lemma FullBeforeItsTime()
    ensures var rate, elapsed, missing := 1_024_000, 4_000_000, 4096;
            elapsed < NsForBytes(missing, rate, true) && BytesForNs(elapsed, rate) >= missing
  {
    assert 4096 * NSEC_PER_SEC / 1_024_000 == 4_000_000;
  }

  /** What one pass through the hook tells the writer. */
  datatype Outcome = Exempt | Admit | Wait(ns: nat)

  class Limiter {
    const page: nat
    var enabled: bool
    var active: bool
    var configWbps: nat
    var wbps: nat
    var burst: nat
    var tokens: nat
    var lastRefill: nat
    var charged: nat
    var waitCount: nat
    var bypassFg: nat
    var bypassInvalidFg: nat
    var configSeq: nat

    ghost predicate Valid()
      reads this
    {
      && KIB <= page < 0x1_0000_0000
      && (active ==> enabled)
      && configWbps % KIB == 0 && configWbps <= U64_MAX
      && wbps == (if active then configWbps else 0)
      && burst == (if wbps == 0 then 0 else Max(page, wbps / 8))
      && tokens <= burst
      && lastRefill <= U64_MAX && charged <= U64_MAX && waitCount <= U64_MAX
      && bypassFg <= U64_MAX && bypassInvalidFg <= U64_MAX
    }

    function Bkt(): Bucket
      reads this
    {
      Bucket(wbps, burst, tokens, lastRefill)
    }

    constructor (page: nat)
      requires KIB <= page < 0x1_0000_0000
      ensures Valid() && this.page == page && !enabled && configWbps == 0 && charged == 0
    {
      this.page := page;
      enabled, active, configWbps := false, false, 0;
      wbps, burst, tokens, lastRefill := 0, 0, 0, 0;
      charged, waitCount, bypassFg, bypassInvalidFg := 0, 0, 0, 0;
      configSeq := 1;
    }

    /** A valid bucket has the shape the run theorems ask for. */
    lemma ValidIsWellFormed()
      requires Valid()
      ensures WellFormed(Bkt(), page)
      ensures wbps > 0 ==> wbps >= KIB && burst < wbps * 0x4_0000_0000
    {
      if wbps > 0 {
        assert wbps >= KIB;
        MulMonotone(KIB, wbps, 0x4_0000_0000);
      }
    }

    method ResetBucket(rate: nat, now: nat)
      modifies `wbps, `burst, `tokens, `lastRefill
      ensures Bkt() == Bucket(rate, if rate == 0 then 0 else Max(page, rate / 8), burst, now) && tokens == burst
    {
      wbps := rate;
      burst := if rate != 0 then Max(page, rate / 8) else 0;
      tokens := burst;
      lastRefill := now;
    }

    /** The 64-bit refill computes the exact one. */
    method Refill(now: nat)
      requires Valid() && now <= U64_MAX
      modifies `tokens, `lastRefill
      ensures Valid() && Bkt() == Refilled(old(Bkt()), now)
    {
      ghost var b := Bkt();
      if wbps == 0 || burst == 0 {
        return;
      }
      if tokens >= burst {
        tokens := burst;
        lastRefill := now;
        return;
      }
      if now <= lastRefill {
        return;
      }
      var elapsed, missing := now - lastRefill, burst - tokens;
      ValidIsWellFormed();
      NsForBytesExact(missing, wbps);
      FullRefillTime(elapsed, missing, wbps);
      var fullRefillNs := NsForBytes(missing, wbps, true);
      if elapsed >= fullRefillNs {
        tokens := burst;
        lastRefill := now;
        return;
      }
      var added := BytesForNs(elapsed, wbps);
      if added == 0 {
        return;
      }
      if added >= missing {
        tokens := burst;
        lastRefill := now;
        return;
      }
      PartialAdvance(b, now, added);
      NsForBytesExact(added, wbps);
      tokens := tokens + added;
      var advanced := NsForBytes(added, wbps, false);
      advanced := Max(advanced, 1);
      advanced := AddSat(lastRefill, advanced);
      lastRefill := if now < advanced then now else advanced;
    }

    /** Both tests for a full bucket agree with the exact one. */
    static lemma FullRefillTime(elapsed: nat, missing: nat, rate: nat)
      requires rate > 0
      ensures elapsed * rate >= missing * NSEC_PER_SEC <==>
              elapsed >= TimeFor(missing, rate) || elapsed * rate / NSEC_PER_SEC >= missing
    {
      TimeForCovers(missing, rate);
      if elapsed >= TimeFor(missing, rate) {
        MulMonotone(TimeFor(missing, rate), elapsed, rate);
      }
      MulMonotone(0, elapsed, rate);
    }

    /** One pass through the hook: foreground writers and everyone outside the background group are exempt. */
    method Attempt(fgUid: int, uid: nat, background: bool, now: nat) returns (outcome: Outcome)
      requires Valid() && now <= U64_MAX
      modifies this
      ensures Valid() && enabled == old(enabled) && active == old(active) && configWbps == old(configWbps)
      ensures outcome.Exempt? <==>
              !old(enabled) || !old(active) || old(wbps) == 0 || fgUid < 0 || fgUid == uid || !background
      ensures outcome.Exempt? ==> Bkt() == old(Bkt()) && charged == old(charged)
      ensures !outcome.Exempt? ==> Bkt() == Written(old(Bkt()), now, page)
                                   && (outcome.Admit? <==> Admitted(old(Bkt()), now, page))
      ensures !outcome.Exempt? ==> var r := Refilled(old(Bkt()), now);
                                   && (outcome.Admit? <==> r.tokens >= page)
                                   && r == Bkt().(tokens := if outcome.Admit? then tokens + page else tokens)
      ensures outcome.Admit? ==> charged == if old(charged) + page <= U64_MAX then old(charged) + page else U64_MAX
      ensures outcome.Wait? ==> charged == old(charged) && outcome.ns == Sleep(Bkt(), page)
      // The wait: a second, or the time that the missing bytes take, and at most a nanosecond more than that.
      ensures outcome.Wait? ==> && 0 < outcome.ns <= 1_000_000_000
                                && (outcome.ns == 1_000_000_000 || outcome.ns * wbps >= (page - tokens) * 1_000_000_000)
                                && (outcome.ns - 1) * wbps <= (page - tokens) * 1_000_000_000
    {
      if enabled && active && wbps != 0 && fgUid >= 0 && fgUid != uid && !background {
        return Exempt;
      }
      if !enabled || !active || wbps == 0 {
        return Exempt;
      }
      if fgUid < 0 {
        bypassInvalidFg := AddSat(bypassInvalidFg, 1);
        return Exempt;
      }
      if fgUid == uid {
        bypassFg := AddSat(bypassFg, 1);
        return Exempt;
      }
      Refill(now);
      if tokens >= page {
        tokens := tokens - page;
        charged := AddSat(charged, page);
        return Admit;
      }
      ValidIsWellFormed();
      NsForBytesExact(page - tokens, wbps);
      var wait := NsForBytes(page - tokens, wbps, true);
      SleepIsTight(page - tokens, wbps);
      waitCount := AddSat(waitCount, 1);
      return Wait(if wait < NSEC_PER_SEC then wait else NSEC_PER_SEC);
    }

    /** Capped or not, the time to sleep is not too short, nor too long by more than a nanosecond. */
    static lemma SleepIsTight(missing: nat, rate: nat)
      requires rate > 0 && missing > 0
      ensures var wait := TimeFor(missing, rate);
              var ns := if wait < NSEC_PER_SEC then wait else NSEC_PER_SEC;
              && 0 < ns && (ns == NSEC_PER_SEC || ns * rate >= missing * NSEC_PER_SEC)
              && (ns - 1) * rate <= missing * NSEC_PER_SEC
    {
      TimeForCovers(missing, rate);
      TimeForIsTight(missing, rate);
      var wait := TimeFor(missing, rate);
      if wait > NSEC_PER_SEC {
        MulMonotone(NSEC_PER_SEC - 1, wait - 1, rate);
      }
    }

    /** The burst is an eighth of a second's bytes, rounded down, and a page at least. */
    lemma BurstIsAnEighth()
      requires Valid() && active && configWbps > 0
      ensures wbps == configWbps && burst >= page && wbps < 8 * burst + 8
      ensures burst == page || 8 * burst <= wbps
    {
    }

    method SetEnabled(on: bool, now: nat)
      requires Valid() && now <= U64_MAX
      modifies this
      ensures Valid() && enabled == on && !active && configWbps == old(configWbps) && charged == old(charged)
      ensures Bkt() == Bucket(0, 0, 0, now) && configSeq == old(configSeq) + 1
    {
      enabled := on;
      active := false;
      ResetBucket(0, now);
      configSeq := configSeq + 1;
    }

    /** Activation starts a full bucket; asking for the state already in force leaves the bucket alone. */
    method SetActive(on: bool, now: nat)
      requires Valid() && now <= U64_MAX
      modifies this
      ensures Valid() && enabled == old(enabled) && active == (on && enabled)
      ensures configWbps == old(configWbps) && charged == old(charged)
      ensures if active == old(active) then Bkt() == old(Bkt()) && configSeq == old(configSeq)
              else tokens == burst && lastRefill == now && configSeq == old(configSeq) + 1
    {
      var wanted := on;
      if !enabled {
        wanted := false;
      }
      if active == wanted {
        return;
      }
      active := wanted;
      ResetBucket(if wanted then configWbps else 0, now);
      configSeq := configSeq + 1;
    }

    method SetWkbps(wkbps: nat, now: nat) returns (ok: bool)
      requires Valid() && now <= U64_MAX
      modifies this
      ensures Valid() && enabled == old(enabled) && active == old(active) && charged == old(charged)
      ensures ok <==> wkbps * 1024 <= 0xffff_ffff_ffff_ffff
      ensures if ok then configWbps == wkbps * 1024 && configSeq == old(configSeq) + 1
              else configWbps == old(configWbps) && configSeq == old(configSeq)
      ensures if ok && active then tokens == burst && lastRefill == now else Bkt() == old(Bkt())
    {
      if wkbps > U64_MAX / KIB {
        return false;
      }
      configWbps := wkbps * KIB;
      if active {
        ResetBucket(configWbps, now);
      }
      configSeq := configSeq + 1;
      return true;
    }
  }
}
