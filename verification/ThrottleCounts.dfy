/** How a change of one request changes a count over all of them. */
module ThrottleCounts {
  import opened ThrottleSpec

  lemma CountUpdate(reqs: Requests, r: Request, m: Meta, p: Meta -> bool)
    ensures Count(reqs[r := m], p) + (if r in reqs && p(reqs[r]) then 1 else 0)
            == Count(reqs, p) + (if p(m) then 1 else 0)
  {
    var updated := reqs[r := m];
    var before, after := set x | x in reqs && p(reqs[x]), set x | x in updated && p(updated[x]);
    SameButOne(before, after, r);
  }

  lemma SameButOne<T>(a: set<T>, b: set<T>, x: T)
    requires forall y :: y != x ==> (y in a <==> y in b)
    ensures |a| + (if x in b then 1 else 0) == |b| + (if x in a then 1 else 0)
  {
    var rest := a - {x};
    assert a == if x in a then rest + {x} else rest;
    assert b == if x in b then rest + {x} else rest;
  }

  lemma CountRemove(reqs: Requests, r: Request, p: Meta -> bool)
    requires r in reqs
    ensures Count(reqs - {r}, p) + (if p(reqs[r]) then 1 else 0) == Count(reqs, p)
  {
    var rest := reqs - {r};
    var before, after := set x | x in reqs && p(reqs[x]), set x | x in rest && p(rest[x]);
    assert after == before - {r};
  }

  lemma CountWithin(reqs: Requests, p: Meta -> bool)
    ensures Count(reqs, p) <= |reqs|
    ensures Count(reqs, p) == 0 ==> forall r :: r in reqs ==> !p(reqs[r])
  {
    var chosen := set r | r in reqs && p(reqs[r]);
    assert chosen <= reqs.Keys;
    Subset(chosen, reqs.Keys);
    forall r | r in reqs && p(reqs[r])
      ensures Count(reqs, p) > 0
    {
      assert r in chosen;
      Subset({r}, chosen);
    }
  }

  lemma {:induction false} Subset<T>(a: set<T>, b: set<T>)
    requires a <= b
    ensures |a| <= |b|
  {
    if a != {} {
      var x :| x in a;
      Subset(a - {x}, b - {x});
    }
  }

  /** What is counted under a narrower condition is no more. */
  lemma CountImplies(reqs: Requests, p: Meta -> bool, q: Meta -> bool)
    requires forall r :: r in reqs && p(reqs[r]) ==> q(reqs[r])
    ensures Count(reqs, p) <= Count(reqs, q)
  {
    Subset(set r | r in reqs && p(reqs[r]), set r | r in reqs && q(reqs[r]));
  }

  lemma CountSplit(reqs: Requests, p: Meta -> bool, q: Meta -> bool, either: Meta -> bool)
    requires forall r :: r in reqs ==> (either(reqs[r]) <==> p(reqs[r]) || q(reqs[r])) && !(p(reqs[r]) && q(reqs[r]))
    ensures Count(reqs, either) == Count(reqs, p) + Count(reqs, q)
  {
    var ps, qs := set r | r in reqs && p(reqs[r]), set r | r in reqs && q(reqs[r]);
    var all := set r | r in reqs && either(reqs[r]);
    assert all == ps + qs && ps !! qs;
  }

  lemma CountTwo(reqs: Requests, a: Request, b: Request, p: Meta -> bool)
    requires a != b && a in reqs && b in reqs && p(reqs[a]) && p(reqs[b])
    ensures Count(reqs, p) >= 2
  {
    Subset({a, b}, set r | r in reqs && p(reqs[r]));
  }

  lemma CountNone(reqs: Requests, p: Meta -> bool)
    requires forall r :: r in reqs ==> !p(reqs[r])
    ensures Count(reqs, p) == 0
  {
    var chosen := set r | r in reqs && p(reqs[r]);
    assert chosen == {};
  }

  lemma CountBelow(reqs: Requests, r: Request, p: Meta -> bool)
    requires r in reqs && !p(reqs[r])
    ensures Count(reqs, p) < |reqs|
  {
    CountRemove(reqs, r, p);
    CountWithin(reqs - {r}, p);
    assert (reqs - {r}).Keys == reqs.Keys - {r};
    assert |reqs - {r}| == |(reqs - {r}).Keys| && |reqs| == |reqs.Keys|;
  }

  /** The five counters of a queue. */
  datatype Counters = Counters(current: nat, bg: nat, issued: nat, pendingFg: nat, pendingBg: nat)

  ghost predicate CountsOk(reqs: Requests, c: Counters) {
    && c.current == Count(reqs, IsReserved)
    && c.bg == Count(reqs, IsBgReserved)
    && c.issued == Count(reqs, IsIssued)
    && c.pendingFg == Count(reqs, IsWaitingFg)
    && c.pendingBg == Count(reqs, IsWaitingBg)
  }

  function One(b: bool): nat {
    if b then 1 else 0
  }

  /** The counters follow the flags of the one record that changes. */
  lemma CountersFollow(reqs: Requests, c: Counters, r: Request, m: Meta, d: Counters)
    requires CountsOk(reqs, c) && r in reqs
    requires d.current + One(reqs[r].reserved) == c.current + One(m.reserved)
    requires d.bg + One(reqs[r].bgReserved) == c.bg + One(m.bgReserved)
    requires d.issued + One(reqs[r].issued) == c.issued + One(m.issued)
    requires d.pendingFg + One(IsWaitingFg(reqs[r])) == c.pendingFg + One(IsWaitingFg(m))
    requires d.pendingBg + One(IsWaitingBg(reqs[r])) == c.pendingBg + One(IsWaitingBg(m))
    ensures CountsOk(reqs[r := m], d)
  {
    CountUpdate(reqs, r, m, IsReserved);
    CountUpdate(reqs, r, m, IsBgReserved);
    CountUpdate(reqs, r, m, IsIssued);
    CountUpdate(reqs, r, m, IsWaitingFg);
    CountUpdate(reqs, r, m, IsWaitingBg);
    hide Count;
  }

  /** A flag that is set has been counted, and one that is not leaves room to count it. */
  lemma CountersHold(reqs: Requests, c: Counters, r: Request)
    requires CountsOk(reqs, c) && r in reqs
    ensures if reqs[r].reserved then c.current > 0 else c.current < |reqs|
    ensures if reqs[r].bgReserved then c.bg > 0 else c.bg < |reqs|
    ensures if reqs[r].issued then c.issued > 0 else c.issued < |reqs|
    ensures if IsWaitingFg(reqs[r]) then c.pendingFg > 0 else c.pendingFg < |reqs|
    ensures if IsWaitingBg(reqs[r]) then c.pendingBg > 0 else c.pendingBg < |reqs|
  {
    CountHolds(reqs, r, IsReserved);
    CountHolds(reqs, r, IsBgReserved);
    CountHolds(reqs, r, IsIssued);
    CountHolds(reqs, r, IsWaitingFg);
    CountHolds(reqs, r, IsWaitingBg);
    hide Count;
  }

  lemma CountHolds(reqs: Requests, r: Request, p: Meta -> bool)
    requires r in reqs
    ensures if p(reqs[r]) then Count(reqs, p) > 0 else Count(reqs, p) < |reqs|
  {
    if p(reqs[r]) {
      CountRemove(reqs, r, p);
    } else {
      CountBelow(reqs, r, p);
    }
  }

  predicate Unflagged(m: Meta) {
    !m.reserved && !m.bgReserved && !m.issued && !m.queued
  }

  /** Records without flags come and go uncounted. */
  lemma CountersIgnore(reqs: Requests, c: Counters, r: Request, m: Meta)
    requires CountsOk(reqs, c) && Unflagged(m)
    ensures r !in reqs ==> CountsOk(reqs[r := m], c)
    ensures r in reqs && Unflagged(reqs[r]) ==> CountsOk(reqs - {r}, c)
  {
    if r !in reqs {
      CountUpdate(reqs, r, m, IsReserved);
      CountUpdate(reqs, r, m, IsBgReserved);
      CountUpdate(reqs, r, m, IsIssued);
      CountUpdate(reqs, r, m, IsWaitingFg);
      CountUpdate(reqs, r, m, IsWaitingBg);
    } else {
      CountRemove(reqs, r, IsReserved);
      CountRemove(reqs, r, IsBgReserved);
      CountRemove(reqs, r, IsIssued);
      CountRemove(reqs, r, IsWaitingFg);
      CountRemove(reqs, r, IsWaitingBg);
    }
    hide Count;
  }

  // ---- The counters step by step ----

  lemma CountStart(reqs: Requests, c: Counters, r: Request)
    requires CountsOk(reqs, c) && r in reqs && !reqs[r].reserved && !reqs[r].bgReserved
    ensures c.current < |reqs| && c.bg < |reqs|
    ensures CountsOk(reqs[r := WithDepth(reqs[r])],
                     c.(current := c.current + 1, bg := c.bg + One(reqs[r].queueClass != Hp)))
  {
    CountersHold(reqs, c, r);
    CountersFollow(reqs, c, r, WithDepth(reqs[r]),
                   c.(current := c.current + 1, bg := c.bg + One(reqs[r].queueClass != Hp)));
    hide CountsOk;
  }

  lemma CountStop(reqs: Requests, c: Counters, r: Request)
    requires CountsOk(reqs, c) && r in reqs && reqs[r].reserved
    ensures c.current > 0 && (reqs[r].bgReserved ==> c.bg > 0)
    ensures CountsOk(reqs[r := reqs[r].(reserved := false, bgReserved := false)],
                     Counters(c.current - 1, if reqs[r].bgReserved then c.bg - 1 else c.bg,
                              c.issued, c.pendingFg, c.pendingBg))
  {
    CountersHold(reqs, c, r);
    CountersFollow(reqs, c, r, reqs[r].(reserved := false, bgReserved := false),
                   Counters(c.current - 1, if reqs[r].bgReserved then c.bg - 1 else c.bg,
                            c.issued, c.pendingFg, c.pendingBg));
    hide CountsOk;
  }

  lemma CountIssue(reqs: Requests, c: Counters, r: Request)
    requires CountsOk(reqs, c) && r in reqs && !reqs[r].issued
    ensures c.issued < |reqs|
    ensures CountsOk(reqs[r := reqs[r].(issued := true)], c.(issued := c.issued + 1))
  {
    CountersHold(reqs, c, r);
    CountersFollow(reqs, c, r, reqs[r].(issued := true), c.(issued := c.issued + 1));
    hide CountsOk;
  }

  lemma CountReturn(reqs: Requests, c: Counters, r: Request)
    requires CountsOk(reqs, c) && r in reqs
    ensures reqs[r].issued ==> c.issued > 0
    ensures CountsOk(reqs[r := reqs[r].(issued := false, indexed := false)],
                     Counters(c.current, c.bg, if reqs[r].issued then c.issued - 1 else c.issued,
                              c.pendingFg, c.pendingBg))
  {
    CountersHold(reqs, c, r);
    CountersFollow(reqs, c, r, reqs[r].(issued := false, indexed := false),
                   Counters(c.current, c.bg, if reqs[r].issued then c.issued - 1 else c.issued,
                            c.pendingFg, c.pendingBg));
    hide CountsOk;
  }

  lemma CountEnqueue(reqs: Requests, c: Counters, r: Request, ts: nat)
    requires CountsOk(reqs, c) && r in reqs && !reqs[r].queued
    ensures c.pendingFg < |reqs| && c.pendingBg < |reqs|
    ensures CountsOk(reqs[r := reqs[r].(queued := true, queuedTs := ts)],
                     if reqs[r].cls == Foreground then c.(pendingFg := c.pendingFg + 1)
                     else c.(pendingBg := c.pendingBg + 1))
  {
    CountersHold(reqs, c, r);
    CountersFollow(reqs, c, r, reqs[r].(queued := true, queuedTs := ts),
                   if reqs[r].cls == Foreground then c.(pendingFg := c.pendingFg + 1)
                   else c.(pendingBg := c.pendingBg + 1));
    hide CountsOk;
  }

  lemma CountDequeue(reqs: Requests, c: Counters, r: Request)
    requires CountsOk(reqs, c) && r in reqs && reqs[r].queued
    ensures if reqs[r].cls == Foreground then c.pendingFg > 0 else c.pendingBg > 0
    ensures CountsOk(reqs[r := reqs[r].(queued := false, queuedTs := 0)],
                     if reqs[r].cls == Foreground then c.(pendingFg := c.pendingFg - 1)
                     else c.(pendingBg := c.pendingBg - 1))
  {
    CountersHold(reqs, c, r);
    CountersFollow(reqs, c, r, reqs[r].(queued := false, queuedTs := 0),
                   if reqs[r].cls == Foreground then c.(pendingFg := c.pendingFg - 1)
                   else c.(pendingBg := c.pendingBg - 1));
    hide CountsOk;
  }
}
