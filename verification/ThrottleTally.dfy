/** The counts of a snapshot, taken by walking the table of live records. */
module ThrottleTally {
  import opened ThrottleSpec
  import opened ThrottleCounts
  import opened MetaPool

  datatype Tally = Tally(issued: nat, issuedFg: nat, slow: nat, waiting: nat, waitingBg: nat, waitingFg: nat,
                         high: nat, contiguous: nat)

  /** The tally of a part of the live requests; contiguity is judged against all of them. */
  ghost predicate TallyOk(t: Tally, part: Requests, all: Requests, env: Env) {
    && t.issued == Count(part, IsIssued)
    && t.issuedFg == Count(part, IsIssuedFg)
    && t.slow == Count(part, SlowTest(env))
    && t.waiting == Count(part, IsQueued)
    && t.waitingBg == Count(part, IsWaitingBg)
    && t.waitingFg == Count(part, IsWaitingFg)
    && t.high == Count(part, IsWaitingHigh)
    && t.contiguous == Count(part, ContiguousTest(all))
  }

  /** One more record. */
  function Plus(t: Tally, m: Meta, env: Env, touches: bool): Tally {
    Tally(t.issued + One(m.issued), t.issuedFg + One(IsIssuedFg(m)), t.slow + One(IsSlow(m, env)),
          t.waiting + One(m.queued), t.waitingBg + One(IsWaitingBg(m)), t.waitingFg + One(IsWaitingFg(m)),
          t.high + One(IsWaitingHigh(m)), t.contiguous + One(m.queued && touches))
  }

  lemma TallyStep(t: Tally, part: Requests, all: Requests, env: Env, r: Request, m: Meta)
    requires TallyOk(t, part, all, env) && r !in part
    ensures TallyOk(Plus(t, m, env, Contiguous(all, m.io)), part[r := m], all, env)
  {
    CountUpdate(part, r, m, IsIssued);
    CountUpdate(part, r, m, IsIssuedFg);
    CountUpdate(part, r, m, SlowTest(env));
    CountUpdate(part, r, m, IsQueued);
    CountUpdate(part, r, m, IsWaitingBg);
    CountUpdate(part, r, m, IsWaitingFg);
    CountUpdate(part, r, m, IsWaitingHigh);
    CountUpdate(part, r, m, ContiguousTest(all));
    hide Count, Contiguous;
  }

  /** The requests met so far: all of the buckets below `b`, and of bucket `b` the visited ones. */
  ghost predicate Walked(seen: set<Request>, at: map<Request, nat>, hash: nat -> nat, b: nat, visited: seq<nat>) {
    && seen <= at.Keys
    && forall r :: r in at ==>
         (r in seen <==> Bucket(hash, r.id) < b || (Bucket(hash, r.id) == b && at[r] in visited))
  }

  lemma WalkStep(seen: set<Request>, slots: seq<Slot>, chains: seq<seq<nat>>, live: Requests, at: map<Request, nat>,
                 hash: nat -> nat, b: nat, k: nat)
    requires Located(slots, live, at) && Chained(Active, chains, slots, hash) && b < BUCKETS
    requires k < |chains[b]| && Walked(seen, at, hash, b, chains[b][..k])
    ensures var i := chains[b][k];
            && i < |slots| && slots[i].Used?
            && var r := slots[i].rq;
            && r in live && r in at && at[r] == i && slots[i].meta == live[r] && r !in seen
            && Walked(seen + {r}, at, hash, b, chains[b][..k + 1])
  {
    var i := chains[b][k];
    assert i in chains[b];
    var r := slots[i].rq;
    assert at[r] == i && Bucket(hash, r.id) == b;
    assert i !in chains[b][..k] by {
      assert Distinct(chains[b]);
    }
    assert chains[b][..k + 1] == chains[b][..k] + [i];
  }

  lemma WalkNext(seen: set<Request>, slots: seq<Slot>, chains: seq<seq<nat>>, live: Requests, at: map<Request, nat>,
                 hash: nat -> nat, b: nat)
    requires Located(slots, live, at) && Chained(Active, chains, slots, hash) && b < BUCKETS
    requires Walked(seen, at, hash, b, chains[b])
    ensures Walked(seen, at, hash, b + 1, [])
  {
    forall r | r in live && r in at && Bucket(hash, r.id) == b
      ensures at[r] in chains[b]
    {
      assert Listed(Active, slots[at[r]]);
    }
  }

  lemma WalkEnd(seen: set<Request>, at: map<Request, nat>, hash: nat -> nat)
    requires Walked(seen, at, hash, BUCKETS, [])
    ensures seen == at.Keys
  {
  }

  lemma EmptyTally(env: Env, all: Requests)
    ensures TallyOk(Tally(0, 0, 0, 0, 0, 0, 0, 0), map[], all, env)
  {
  }

  lemma WalkBegin(at: map<Request, nat>, hash: nat -> nat)
    ensures Walked({}, at, hash, 0, [])
  {
  }

  /** Foreground and background waiters are all the waiters. */
  lemma WaitersAdd(reqs: Requests)
    ensures Count(reqs, IsQueued) == Count(reqs, IsWaitingFg) + Count(reqs, IsWaitingBg)
  {
    CountSplit(reqs, IsWaitingFg, IsWaitingBg, IsQueued);
  }

  lemma WholeParts(slots: seq<Slot>, free: seq<nat>, inuse: nat, pointers: map<Request, nat>,
                   active: seq<seq<nat>>, ends: seq<seq<nat>>, starts: seq<seq<nat>>, hash: nat -> nat,
                   live: Requests, at: map<Request, nat>)
    requires Whole(slots, free, inuse, pointers, active, ends, starts, hash, live, at)
    ensures Located(slots, live, at) && live.Keys == at.Keys && Chained(Active, active, slots, hash)
            && |active| == BUCKETS
  {
  }

  /** Counts one record, looking for a neighbour only if it waits. */
  method CountRecord(pool: Pool, m: Meta, env: Env, t: Tally) returns (u: Tally)
    requires pool.Valid() && IndexIsIssued(pool.live)
    ensures u == Plus(t, m, env, Contiguous(pool.live, m.io))
  {
    hide Contiguous, IndexIsIssued, Whole;
    u := t;
    if m.issued {
      u := u.(issued := u.issued + 1);
      if m.cls == Foreground {
        u := u.(issuedFg := u.issuedFg + 1);
      }
      if !m.io.excluded && m.issueTs != 0 && env.now >= m.issueTs && env.now - m.issueTs >= env.threshold * NS_PER_US {
        u := u.(slow := u.slow + 1);
      }
    }
    if !m.queued {
      return;
    }
    u := u.(waiting := u.waiting + 1);
    if m.cls == Background {
      u := u.(waitingBg := u.waitingBg + 1);
    } else if m.cls == Foreground {
      u := u.(waitingFg := u.waitingFg + 1);
    }
    if m.io.high {
      u := u.(high := u.high + 1);
    }
    var touches := pool.IsContiguous(m.io);
    if touches {
      u := u.(contiguous := u.contiguous + 1);
    }
  }

  /** Walks all chains of the table of live records. */
  method CountRecords(pool: Pool, env: Env) returns (t: Tally)
    requires pool.Valid() && IndexIsIssued(pool.live)
    ensures TallyOk(t, pool.live, pool.live, env)
  {
    hide TallyOk, Walked, IndexIsIssued, Whole, Located, Chained, Plus, Contiguous;
    ghost var slots, live, at := pool.slots[..], pool.live, pool.at;
    ghost var part: Requests := map[];
    WholeParts(slots, pool.free, pool.inuse, pool.pointers, pool.active, pool.ends, pool.starts, pool.hash, live, at);
    EmptyTally(env, live);
    WalkBegin(at, pool.hash);
    assert part.Keys == {};
    t := Tally(0, 0, 0, 0, 0, 0, 0, 0);
    for b := 0 to BUCKETS
      invariant TallyOk(t, part, live, env) && Walked(part.Keys, at, pool.hash, b, [])
      invariant forall r :: r in part ==> r in live && part[r] == live[r]
    {
      var chain := pool.active[b];
      assert chain[..0] == [];
      for k := 0 to |chain|
        invariant TallyOk(t, part, live, env) && Walked(part.Keys, at, pool.hash, b, chain[..k])
        invariant forall r :: r in part ==> r in live && part[r] == live[r]
      {
        WalkStep(part.Keys, slots, pool.active, live, at, pool.hash, b, k);
        ghost var r := slots[chain[k]].rq;
        TallyStep(t, part, live, env, r, live[r]);
        t := CountRecord(pool, pool.slots[chain[k]].meta, env, t);
        assert part[r := live[r]].Keys == part.Keys + {r};
        part := part[r := live[r]];
      }
      assert chain[..|chain|] == chain;
      WalkNext(part.Keys, slots, pool.active, live, at, pool.hash, b);
    }
    WalkEnd(part.Keys, at, pool.hash);
    assert part == live;
  }
}
