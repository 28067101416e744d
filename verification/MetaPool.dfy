/**
 The fixed pool of per-request records: a free list, the pointers that requests carry, and three
 hash tables of chains (by request, by operation and end sector, by operation and start sector).
 */
module MetaPool {
  import opened Options
  import opened ThrottleSpec

  const BUCKETS: nat := 64

  datatype Slot = Vacant | Used(rq: Request, meta: Meta)

  /** The tables a used slot can be chained in. */
  datatype Table = Active | Ends | Starts

  predicate Listed(t: Table, s: Slot) {
    s.Used? && (t.Active? || s.meta.indexed)
  }

  function OpCode(op: Op): nat {
    match op
    case Read => 0
    case Write => 1
    case Other(code) => code % 256
  }

  /** The 64-bit key of an operation and a sector; the shift drops the sector's top byte. */
  function InflightKey(op: Op, sector: nat): nat {
    (sector * 256) % 0x1_0000_0000_0000_0000 + OpCode(op)
  }

  function KeyOf(t: Table, s: Slot): nat
    requires s.Used?
  {
    match t
    case Active => s.rq.id
    case Ends => InflightKey(s.meta.io.op, s.meta.io.end)
    case Starts => InflightKey(s.meta.io.op, s.meta.io.start)
  }

  function Bucket(hash: nat -> nat, key: nat): nat {
    hash(key) % BUCKETS
  }

  ghost predicate Distinct(s: seq<nat>) {
    forall i, j :: 0 <= i < j < |s| ==> s[i] != s[j]
  }

  /** A table lists exactly the slots it should, each once and in the bucket of its key. */
  ghost predicate Chained(t: Table, chains: seq<seq<nat>>, slots: seq<Slot>, hash: nat -> nat) {
    && |chains| == BUCKETS
    && (forall b: nat, i: nat {:trigger i in chains[b]} :: b < BUCKETS && i in chains[b] ==>
          i < |slots| && Listed(t, slots[i]) && Bucket(hash, KeyOf(t, slots[i])) == b)
    && (forall i: nat {:trigger slots[i]} :: i < |slots| && Listed(t, slots[i]) ==>
        i in chains[Bucket(hash, KeyOf(t, slots[i]))])
    && (forall b: nat :: b < BUCKETS ==> Distinct(chains[b]))
  }

  function Dropped(s: seq<nat>, i: nat): (r: seq<nat>)
    ensures Distinct(s) ==> Distinct(r) && forall x :: x in r <==> x in s && x != i
    ensures forall x :: x in r ==> x in s
  {
    if s == [] then []
    else if s[0] == i then s[1..]
    else
      var rest := Dropped(s[1..], i);
      assert Distinct(s) ==> Distinct(s[1..]) && s[0] !in s[1..];
      [s[0]] + rest
  }

  function Added(chains: seq<seq<nat>>, b: nat, i: nat): seq<seq<nat>>
    requires b < |chains|
  {
    chains[b := [i] + chains[b]]
  }

  function Removed(chains: seq<seq<nat>>, b: nat, i: nat): seq<seq<nat>>
    requires b < |chains|
  {
    chains[b := Dropped(chains[b], i)]
  }

  lemma ChainedKeep(t: Table, chains: seq<seq<nat>>, slots: seq<Slot>, hash: nat -> nat, i: nat, s: Slot)
    requires Chained(t, chains, slots, hash) && i < |slots|
    requires Listed(t, s) <==> Listed(t, slots[i])
    requires Listed(t, s) ==> KeyOf(t, s) == KeyOf(t, slots[i])
    ensures Chained(t, chains, slots[i := s], hash)
  {
  }

  lemma ChainedAdd(t: Table, chains: seq<seq<nat>>, slots: seq<Slot>, hash: nat -> nat, i: nat, s: Slot)
    requires Chained(t, chains, slots, hash) && i < |slots|
    requires Listed(t, s) && !Listed(t, slots[i])
    ensures Chained(t, Added(chains, Bucket(hash, KeyOf(t, s)), i), slots[i := s], hash)
  {
    var b := Bucket(hash, KeyOf(t, s));
    var grown := [i] + chains[b];
    assert i !in chains[b];
    assert forall k :: 0 < k < |grown| ==> grown[k] == chains[b][k - 1];
    assert Distinct(grown);
    hide Distinct;
  }

  lemma ChainedRemove(t: Table, chains: seq<seq<nat>>, slots: seq<Slot>, hash: nat -> nat, i: nat, s: Slot)
    requires Chained(t, chains, slots, hash) && i < |slots|
    requires !Listed(t, s) && Listed(t, slots[i])
    ensures Chained(t, Removed(chains, Bucket(hash, KeyOf(t, slots[i])), i), slots[i := s], hash)
  {
    hide Distinct;
  }

  /** No chain is longer than the pool, so a scan that may look at every record is never cut short. */
  lemma ChainFits(t: Table, chains: seq<seq<nat>>, slots: seq<Slot>, hash: nat -> nat, b: nat)
    requires Chained(t, chains, slots, hash) && b < BUCKETS
    ensures |chains[b]| <= |slots|
  {
    DistinctBelow(chains[b], |slots|);
  }

  lemma {:induction false} DistinctBelow(s: seq<nat>, n: nat)
    requires Distinct(s) && forall i: nat :: i in s ==> i < n
    ensures |s| <= n
    decreases n
  {
    assert s == [] || s[0] in s;
    if n > 0 {
      DistinctBelow(Dropped(s, n - 1), n - 1);
      DroppedLength(s, n - 1);
    }
  }

  lemma DroppedLength(s: seq<nat>, i: nat)
    ensures |Dropped(s, i)| >= |s| - 1
  {
  }

  // ---- The whole pool ----

  /** Where each live request's record is, and that there is nothing else. */
  ghost predicate Located(slots: seq<Slot>, live: Requests, at: map<Request, nat>) {
    && live.Keys == at.Keys
    && (forall r :: r in at ==> at[r] < |slots| && slots[at[r]] == Used(r, live[r]))
    && (forall i: nat :: i < |slots| && slots[i].Used? ==> slots[i].rq in at && at[slots[i].rq] == i)
  }

  ghost predicate FreeOk(slots: seq<Slot>, free: seq<nat>, inuse: nat, live: Requests) {
    && Distinct(free) && (forall i: nat :: i in free <==> i < |slots| && slots[i].Vacant?)
    && inuse == |live| && |free| + inuse == |slots|
  }

  /** A request carries a pointer exactly when it can and has a record. */
  ghost predicate PointersOk(pointers: map<Request, nat>, at: map<Request, nat>) {
    forall r :: (r in pointers <==> r in at && r.useSched) && (r in pointers ==> pointers[r] == at[r])
  }

  /** The chain of a request lists records of live requests, and its own if it has one. */
  lemma ChainOfRequest(chains: seq<seq<nat>>, slots: seq<Slot>, live: Requests, at: map<Request, nat>,
                       hash: nat -> nat, r: Request)
    requires Located(slots, live, at) && Chained(Active, chains, slots, hash)
    ensures var chain := chains[Bucket(hash, r.id)];
            && (forall j :: 0 <= j < |chain| ==>
                  chain[j] < |slots| && slots[chain[j]].Used? && slots[chain[j]].rq in live
                      && at[slots[chain[j]].rq] == chain[j])
            && (r in live ==> at[r] in chain && slots[at[r]] == Used(r, live[r]))
  {
    var chain := chains[Bucket(hash, r.id)];
    assert forall j :: 0 <= j < |chain| ==> chain[j] in chain;
  }

  lemma Relocated(slots: seq<Slot>, live: Requests, at: map<Request, nat>, r: Request, m: Meta)
    requires Located(slots, live, at) && r in at
    ensures Located(slots[at[r] := Used(r, m)], live[r := m], at)
  {
  }

  lemma FreeKept(slots: seq<Slot>, free: seq<nat>, inuse: nat, live: Requests, r: Request, i: nat, m: Meta)
    requires FreeOk(slots, free, inuse, live) && r in live && i < |slots| && slots[i].Used?
    ensures FreeOk(slots[i := Used(r, m)], free, inuse, live[r := m])
  {
    assert live[r := m].Keys == live.Keys;
    assert |live[r := m]| == |live[r := m].Keys| && |live| == |live.Keys|;
  }

  lemma AllocLocated(slots: seq<Slot>, live: Requests, at: map<Request, nat>, i: nat, r: Request, m: Meta)
    requires Located(slots, live, at) && i < |slots| && slots[i].Vacant? && r !in live
    ensures Located(slots[i := Used(r, m)], live[r := m], at[r := i])
  {
  }

  lemma AllocFree(slots: seq<Slot>, free: seq<nat>, inuse: nat, live: Requests, r: Request, m: Meta)
    requires FreeOk(slots, free, inuse, live) && free != [] && r !in live
    ensures free[0] < |slots| && slots[free[0]].Vacant?
    ensures FreeOk(slots[free[0] := Used(r, m)], free[1..], inuse + 1, live[r := m])
  {
    assert free[0] in free;
    assert live[r := m].Keys == live.Keys + {r};
    assert |live[r := m]| == |live[r := m].Keys| && |live| == |live.Keys|;
    assert forall i: nat :: i in free[1..] <==> i in free && i != free[0];
  }

  lemma AllocPointers(pointers: map<Request, nat>, at: map<Request, nat>, i: nat, r: Request)
    requires PointersOk(pointers, at)
    ensures PointersOk(if r.useSched then pointers[r := i] else pointers, at[r := i])
  {
  }

  lemma VacatePointers(pointers: map<Request, nat>, at: map<Request, nat>, r: Request)
    requires PointersOk(pointers, at) && r in at
    ensures PointersOk(if r.useSched && r in pointers && pointers[r] == at[r] then pointers - {r} else pointers,
                       at - {r})
  {
  }

  lemma VacateLocated(slots: seq<Slot>, live: Requests, at: map<Request, nat>, r: Request)
    requires Located(slots, live, at) && r in live
    ensures at[r] < |slots| && slots[at[r]].Used?
    ensures Located(slots[at[r] := Vacant], live - {r}, at - {r})
  {
  }

  lemma VacateFree(slots: seq<Slot>, free: seq<nat>, inuse: nat, live: Requests, i: nat, r: Request)
    requires FreeOk(slots, free, inuse, live) && i < |slots| && slots[i].Used? && r in live
    ensures inuse > 0
    ensures FreeOk(slots[i := Vacant], free + [i], inuse - 1, live - {r})
  {
    assert (live - {r}).Keys == live.Keys - {r};
    assert |live - {r}| == |(live - {r}).Keys| && |live| == |live.Keys|;
    assert forall k: nat :: k in free + [i] <==> k in free || k == i;
  }

  /** Exactly the issued reads and writes are indexed. */
  ghost predicate IndexIsIssued(live: Requests) {
    forall r :: r in live ==> (live[r].indexed <==> live[r].issued && ReadOrWrite(live[r].io.op))
  }

  predicate Meets(t: Table, m: Meta, op: Op, sector: nat) {
    m.issued && m.io.op == op && (if t.Ends? then m.io.end else m.io.start) == sector
  }

  /** The chain of a sector lists records of live requests, among them every one that meets the sector. */
  lemma ChainOfSector(slots: seq<Slot>, chains: seq<seq<nat>>, live: Requests, at: map<Request, nat>, hash: nat -> nat,
                      t: Table, op: Op, sector: nat)
    requires Located(slots, live, at) && Chained(t, chains, slots, hash) && !t.Active? && IndexIsIssued(live)
             && ReadOrWrite(op)
    ensures var chain := chains[Bucket(hash, InflightKey(op, sector))];
            && |chain| <= |slots|
            && (forall j :: 0 <= j < |chain| ==> chain[j] < |slots| && slots[chain[j]].Used?)
            && ((exists j :: 0 <= j < |chain| && Meets(t, slots[chain[j]].meta, op, sector))
                <==> exists r :: r in live && Meets(t, live[r], op, sector))
  {
    var b := Bucket(hash, InflightKey(op, sector));
    var chain := chains[b];
    ChainFits(t, chains, slots, hash, b);
    assert forall j :: 0 <= j < |chain| ==> chain[j] in chain;
    forall r | r in live && Meets(t, live[r], op, sector)
      ensures exists j :: 0 <= j < |chain| && Meets(t, slots[chain[j]].meta, op, sector)
    {
      assert Listed(t, slots[at[r]]);
      assert at[r] in chain;
      var j :| 0 <= j < |chain| && chain[j] == at[r];
    }
    forall j | 0 <= j < |chain| && Meets(t, slots[chain[j]].meta, op, sector)
      ensures exists r :: r in live && Meets(t, live[r], op, sector)
    {
      assert slots[chain[j]].rq in live;
    }
  }

  function UpTo(n: nat): (s: seq<nat>)
    ensures |s| == n && Distinct(s) && forall i: nat :: i in s <==> i < n
  {
    if n == 0 then []
    else
      var rest := UpTo(n - 1);
      assert forall i :: 0 <= i < |rest| ==> rest[i] in rest;
      rest + [n - 1]
  }

  /** All parts of the pool agree. */
  ghost predicate Whole(slots: seq<Slot>, free: seq<nat>, inuse: nat, pointers: map<Request, nat>,
                        active: seq<seq<nat>>, ends: seq<seq<nat>>, starts: seq<seq<nat>>, hash: nat -> nat,
                        live: Requests, at: map<Request, nat>)
  {
    && Located(slots, live, at)
    && FreeOk(slots, free, inuse, live)
    && PointersOk(pointers, at)
    && Chained(Active, active, slots, hash)
    && Chained(Ends, ends, slots, hash)
    && Chained(Starts, starts, slots, hash)
  }

  lemma SetWhole(slots: seq<Slot>, free: seq<nat>, inuse: nat, pointers: map<Request, nat>,
                 active: seq<seq<nat>>, ends: seq<seq<nat>>, starts: seq<seq<nat>>, hash: nat -> nat,
                 live: Requests, at: map<Request, nat>, i: nat, s: Slot)
    requires Whole(slots, free, inuse, pointers, active, ends, starts, hash, live, at)
    requires i < |slots| && slots[i].Used? && s.Used? && s.rq == slots[i].rq
    requires s.meta.indexed == slots[i].meta.indexed
    requires s.meta.indexed ==> s.meta.io.op == slots[i].meta.io.op
                                && s.meta.io.start == slots[i].meta.io.start && s.meta.io.end == slots[i].meta.io.end
    ensures Whole(slots[i := s], free, inuse, pointers, active, ends, starts, hash, live[s.rq := s.meta], at)
  {
    hide Chained, FreeOk;
    Relocated(slots, live, at, s.rq, s.meta);
    FreeKept(slots, free, inuse, live, s.rq, i, s.meta);
    hide Located;
    ChainedKeep(Active, active, slots, hash, i, s);
    ChainedKeep(Ends, ends, slots, hash, i, s);
    ChainedKeep(Starts, starts, slots, hash, i, s);
  }

  lemma AllocWhole(slots: seq<Slot>, free: seq<nat>, inuse: nat, pointers: map<Request, nat>,
                   active: seq<seq<nat>>, ends: seq<seq<nat>>, starts: seq<seq<nat>>, hash: nat -> nat,
                   live: Requests, at: map<Request, nat>, r: Request, m: Meta)
    requires Whole(slots, free, inuse, pointers, active, ends, starts, hash, live, at) && r !in live && !m.indexed
    ensures |active| == BUCKETS && (free == [] <==> |live| == |slots|)
    ensures free != [] ==>
              && free[0] < |slots|
              && Whole(slots[free[0] := Used(r, m)], free[1..], inuse + 1,
                       if r.useSched then pointers[r := free[0]] else pointers,
                       Added(active, Bucket(hash, r.id), free[0]), ends, starts, hash, live[r := m], at[r := free[0]])
  {
    if free != [] {
      assert |active| == BUCKETS;
      hide Chained, Located, FreeOk, PointersOk;
      var i, s := free[0], Used(r, m);
      AllocPointers(pointers, at, i, r);
      AllocFree(slots, free, inuse, live, r, m);
      AllocLocated(slots, live, at, i, r, m);
      ChainedAdd(Active, active, slots, hash, i, s);
      ChainedKeep(Ends, ends, slots, hash, i, s);
      ChainedKeep(Starts, starts, slots, hash, i, s);
    }
  }

  lemma IndexWhole(slots: seq<Slot>, free: seq<nat>, inuse: nat, pointers: map<Request, nat>,
                   active: seq<seq<nat>>, ends: seq<seq<nat>>, starts: seq<seq<nat>>, hash: nat -> nat,
                   live: Requests, at: map<Request, nat>, i: nat, s: Slot)
    requires Whole(slots, free, inuse, pointers, active, ends, starts, hash, live, at)
    requires i < |slots| && slots[i].Used? && s.Used? && s.rq == slots[i].rq && s.meta.indexed && !slots[i].meta.indexed
    ensures |ends| == |starts| == BUCKETS
    ensures Whole(slots[i := s], free, inuse, pointers, active, Added(ends, Bucket(hash, KeyOf(Ends, s)), i),
                  Added(starts, Bucket(hash, KeyOf(Starts, s)), i), hash, live[s.rq := s.meta], at)
  {
    hide FreeOk, Distinct;
    Relocated(slots, live, at, s.rq, s.meta);
    FreeKept(slots, free, inuse, live, s.rq, i, s.meta);
    hide Located;
    assert |ends| == |starts| == BUCKETS;
    hide Chained;
    ChainedKeep(Active, active, slots, hash, i, s);
    ChainedAdd(Ends, ends, slots, hash, i, s);
    ChainedAdd(Starts, starts, slots, hash, i, s);
  }

  lemma UnindexWhole(slots: seq<Slot>, free: seq<nat>, inuse: nat, pointers: map<Request, nat>,
                     active: seq<seq<nat>>, ends: seq<seq<nat>>, starts: seq<seq<nat>>, hash: nat -> nat,
                     live: Requests, at: map<Request, nat>, i: nat, s: Slot)
    requires Whole(slots, free, inuse, pointers, active, ends, starts, hash, live, at)
    requires i < |slots| && slots[i].Used? && s.Used? && s.rq == slots[i].rq && !s.meta.indexed && slots[i].meta.indexed
    ensures |ends| == |starts| == BUCKETS
    ensures Whole(slots[i := s], free, inuse, pointers, active, Removed(ends, Bucket(hash, KeyOf(Ends, slots[i])), i),
                  Removed(starts, Bucket(hash, KeyOf(Starts, slots[i])), i), hash, live[s.rq := s.meta], at)
  {
    hide FreeOk, Distinct;
    Relocated(slots, live, at, s.rq, s.meta);
    FreeKept(slots, free, inuse, live, s.rq, i, s.meta);
    hide Located;
    assert |ends| == |starts| == BUCKETS;
    hide Chained;
    ChainedKeep(Active, active, slots, hash, i, s);
    ChainedRemove(Ends, ends, slots, hash, i, s);
    ChainedRemove(Starts, starts, slots, hash, i, s);
  }

  lemma VacateWhole(slots: seq<Slot>, free: seq<nat>, inuse: nat, pointers: map<Request, nat>,
                    active: seq<seq<nat>>, ends: seq<seq<nat>>, starts: seq<seq<nat>>, hash: nat -> nat,
                    live: Requests, at: map<Request, nat>, i: nat)
    requires Whole(slots, free, inuse, pointers, active, ends, starts, hash, live, at)
    requires i < |slots| && slots[i].Used? && !slots[i].meta.indexed
    ensures inuse > 0 && |active| == BUCKETS
    ensures var r := slots[i].rq;
            Whole(slots[i := Vacant], free + [i], inuse - 1,
                  if r.useSched && r in pointers && pointers[r] == i then pointers - {r} else pointers,
                  Removed(active, Bucket(hash, r.id), i), ends, starts, hash, live - {r}, at - {r})
  {
    assert |active| == BUCKETS;
    assert slots[i].rq in at && at[slots[i].rq] == i;
    hide Chained, Located, FreeOk, PointersOk;
    VacatePointers(pointers, at, slots[i].rq);
    VacateFree(slots, free, inuse, live, i, slots[i].rq);
    VacateLocated(slots, live, at, slots[i].rq);
    ChainedRemove(Active, active, slots, hash, i, Vacant);
    ChainedKeep(Ends, ends, slots, hash, i, Vacant);
    ChainedKeep(Starts, starts, slots, hash, i, Vacant);
  }

  /** Every used slot belongs to a live request, and every live request to the slot it is located at. */
  lemma WholeLocates(slots: seq<Slot>, free: seq<nat>, inuse: nat, pointers: map<Request, nat>,
                     active: seq<seq<nat>>, ends: seq<seq<nat>>, starts: seq<seq<nat>>, hash: nat -> nat,
                     live: Requests, at: map<Request, nat>)
    requires Whole(slots, free, inuse, pointers, active, ends, starts, hash, live, at)
    ensures Located(slots, live, at) && |live| <= |slots|
  {
  }

  lemma SectorOfWhole(slots: seq<Slot>, free: seq<nat>, inuse: nat, pointers: map<Request, nat>,
                      active: seq<seq<nat>>, ends: seq<seq<nat>>, starts: seq<seq<nat>>, hash: nat -> nat,
                      live: Requests, at: map<Request, nat>, t: Table, op: Op, sector: nat)
    requires Whole(slots, free, inuse, pointers, active, ends, starts, hash, live, at)
    requires !t.Active? && IndexIsIssued(live) && ReadOrWrite(op)
    ensures |ends| == |starts| == BUCKETS
    ensures var chain := (if t.Ends? then ends else starts)[Bucket(hash, InflightKey(op, sector))];
            && |chain| <= |slots|
            && (forall j :: 0 <= j < |chain| ==> chain[j] < |slots| && slots[chain[j]].Used?)
            && ((exists j :: 0 <= j < |chain| && Meets(t, slots[chain[j]].meta, op, sector))
                <==> exists r :: r in live && Meets(t, live[r], op, sector))
  {
    assert |ends| == |starts| == BUCKETS;
    hide Chained, Located, FreeOk, IndexIsIssued, Meets;
    ChainOfSector(slots, if t.Ends? then ends else starts, live, at, hash, t, op, sector);
  }

  class Pool {
    const hash: nat -> nat
    const slots: array<Slot>
    var free: seq<nat>
    var inuse: nat
    var pointers: map<Request, nat>
    var active: seq<seq<nat>>
    var ends: seq<seq<nat>>
    var starts: seq<seq<nat>>
    ghost var live: Requests
    ghost var at: map<Request, nat>

    ghost predicate Valid()
      reads this, slots
    {
      Whole(slots[..], free, inuse, pointers, active, ends, starts, hash, live, at)
    }

    constructor (capacity: nat, hash: nat -> nat)
      ensures Valid() && fresh(slots) && slots.Length == capacity && live == map[] && this.hash == hash
    {
      this.hash := hash;
      slots := new Slot[capacity](_ => Vacant);
      free := UpTo(capacity);
      inuse := 0;
      pointers, live, at := map[], map[], map[];
      active, ends, starts := seq(BUCKETS, _ => []), seq(BUCKETS, _ => []), seq(BUCKETS, _ => []);
    }

    /** Looks a request up in its chain. */
    method Find(r: Request) returns (found: Option<nat>)
      requires Valid()
      ensures found == if r in live then Some(at[r]) else None
    {
      hide FreeOk, PointersOk, Distinct;
      var b := Bucket(hash, r.id);
      var chain := active[b];
      ChainFits(Active, active, slots[..], hash, b);
      ChainOfRequest(active, slots[..], live, at, hash, r);
      hide Chained, Located;
      var budget, k := slots.Length, 0;
      while k < |chain|
        invariant k <= |chain| && budget == slots.Length - k
        invariant forall j :: 0 <= j < k ==> slots[chain[j]].Used? && slots[chain[j]].rq != r
      {
        if budget == 0 {
          break;
        }
        budget := budget - 1;
        if slots[chain[k]].rq == r {
          return Some(chain[k]);
        }
        k := k + 1;
      }
      found := None;
    }

    /** Follows the pointer that the request carries. */
    method Pointer(r: Request) returns (found: Option<nat>)
      requires Valid()
      ensures found == if r.useSched && r in live then Some(at[r]) else None
    {
      found := if r in pointers then Some(pointers[r]) else None;
    }

    /** Rewrites a record; what the tables depend on stays. */
    method Set(i: nat, m: Meta)
      requires Valid() && i < slots.Length && slots[i].Used?
      requires m.indexed == slots[i].meta.indexed
      requires m.indexed ==>
                 var io := slots[i].meta.io; m.io.op == io.op && m.io.start == io.start && m.io.end == io.end
      modifies this`live, slots
      ensures Valid() && at == old(at) && live == old(live)[old(slots[i].rq) := m]
      ensures slots[i] == Used(old(slots[i].rq), m)
    {
      hide Whole;
      var s := Used(slots[i].rq, m);
      ghost var before := slots[..];
      SetWhole(before, free, inuse, pointers, active, ends, starts, hash, live, at, i, s);
      slots[i] := s;
      live := live[s.rq := m];
      assert slots[..] == before[i := s];
    }

    /** Takes a free record for a request that has none; fails exactly when all are in use. */
    method Alloc(r: Request, m: Meta) returns (taken: Option<nat>)
      requires Valid() && r !in live && !m.indexed
      modifies this, slots
      ensures Valid()
      ensures taken.None? <==> |old(live)| == slots.Length
      ensures taken.None? ==> live == old(live) && at == old(at)
      ensures taken.Some? ==>
                && taken.value < slots.Length && at == old(at)[r := taken.value]
                && live == old(live)[r := m] && slots[taken.value] == Used(r, m)
    {
      hide Whole;
      ghost var before := slots[..];
      AllocWhole(before, free, inuse, pointers, active, ends, starts, hash, live, at, r, m);
      if free == [] {
        return None;
      }
      var i, s := free[0], Used(r, m);
      free := free[1..];
      slots[i] := s;
      active := Added(active, Bucket(hash, r.id), i);
      inuse := inuse + 1;
      if r.useSched {
        pointers := pointers[r := i];
      }
      live, at := live[r := m], at[r := i];
      assert slots[..] == before[i := s];
      taken := Some(i);
    }

    /** Enters a record in the two tables of issued requests, at the sectors it is issued for. */
    method Index(i: nat, start: nat, end: nat)
      requires Valid() && i < slots.Length && slots[i].Used? && !slots[i].meta.indexed
      modifies this, slots
      ensures Valid() && at == old(at)
      ensures var m := old(slots[i].meta).(io := old(slots[i].meta.io).(start := start, end := end), indexed := true);
              live == old(live)[old(slots[i].rq) := m] && slots[i] == Used(old(slots[i].rq), m)
    {
      hide Whole;
      var m := slots[i].meta.(io := slots[i].meta.io.(start := start, end := end), indexed := true);
      var s := Used(slots[i].rq, m);
      ghost var before := slots[..];
      IndexWhole(before, free, inuse, pointers, active, ends, starts, hash, live, at, i, s);
      ends := Added(ends, Bucket(hash, InflightKey(m.io.op, end)), i);
      starts := Added(starts, Bucket(hash, InflightKey(m.io.op, start)), i);
      slots[i] := s;
      live := live[s.rq := m];
      assert slots[..] == before[i := s];
    }

    /** Takes a record out of the two tables, if it is there. */
    method Unindex(i: nat)
      requires Valid() && i < slots.Length && slots[i].Used?
      modifies this, slots
      ensures Valid() && at == old(at) && inuse == old(inuse)
      ensures var m := old(slots[i].meta).(indexed := false);
              live == old(live)[old(slots[i].rq) := m] && slots[i] == Used(old(slots[i].rq), m)
    {
      hide Whole;
      var m := slots[i].meta.(indexed := false);
      var s := Used(slots[i].rq, m);
      ghost var before := slots[..];
      if !slots[i].meta.indexed {
        WholeLocates(before, free, inuse, pointers, active, ends, starts, hash, live, at);
        assert before[i] == s && live[s.rq := m] == live;
        return;
      }
      UnindexWhole(before, free, inuse, pointers, active, ends, starts, hash, live, at, i, s);
      ends := Removed(ends, Bucket(hash, InflightKey(m.io.op, m.io.end)), i);
      starts := Removed(starts, Bucket(hash, InflightKey(m.io.op, m.io.start)), i);
      slots[i] := s;
      live := live[s.rq := m];
      assert slots[..] == before[i := s];
    }

    /** Gives a record back. There is always a record in use to give back. */
    method Free(i: nat)
      requires Valid() && i < slots.Length && slots[i].Used?
      modifies this, slots
      ensures Valid() && live == old(live) - {old(slots[i].rq)} && at == old(at) - {old(slots[i].rq)}
    {
      hide Whole;
      Unindex(i);
      var r := slots[i].rq;
      ghost var before := slots[..];
      VacateWhole(before, free, inuse, pointers, active, ends, starts, hash, live, at, i);
      if r.useSched && r in pointers && pointers[r] == i {
        pointers := pointers - {r};
      }
      active := Removed(active, Bucket(hash, r.id), i);
      inuse := inuse - 1;
      slots[i] := Vacant;
      free := free + [i];
      live, at := live - {r}, at - {r};
      assert slots[..] == before[i := Vacant];
    }

    /** Looks through one chain; the budget allows for as many records as there are. */
    method ScanChain(t: Table, chain: seq<nat>, op: Op, sector: nat) returns (found: bool)
      requires |chain| <= slots.Length && forall j :: 0 <= j < |chain| ==>
                 chain[j] < slots.Length && slots[chain[j]].Used?
      ensures found <==> exists j :: 0 <= j < |chain| && Meets(t, slots[chain[j]].meta, op, sector)
    {
      var budget, k := slots.Length, 0;
      while k < |chain|
        invariant k <= |chain| && budget == slots.Length - k
        invariant forall j :: 0 <= j < k ==> !Meets(t, slots[chain[j]].meta, op, sector)
      {
        if budget == 0 {
          break;
        }
        budget := budget - 1;
        if Meets(t, slots[chain[k]].meta, op, sector) {
          return true;
        }
        k := k + 1;
      }
      found := false;
    }

    /** Looks for an issued record of an operation whose extent ends, or starts, at a sector. */
    method Scan(t: Table, op: Op, sector: nat) returns (found: bool)
      requires Valid() && !t.Active? && IndexIsIssued(live) && ReadOrWrite(op)
      ensures found <==> exists r :: r in live && Meets(t, live[r], op, sector)
    {
      hide Whole, IndexIsIssued, Meets;
      SectorOfWhole(slots[..], free, inuse, pointers, active, ends, starts, hash, live, at, t, op, sector);
      found := ScanChain(t, (if t.Ends? then ends else starts)[Bucket(hash, InflightKey(op, sector))], op, sector);
    }

    /** Whether a waiting request touches an issued one of the same direction: as if all records were compared. */
    method IsContiguous(io: Io) returns (found: bool)
      requires Valid() && IndexIsIssued(live)
      ensures found <==> Contiguous(live, io)
    {
      hide Valid, IndexIsIssued;
      if !ReadOrWrite(io.op) {
        return false;
      }
      found := Scan(Ends, io.op, io.start);
      if !found {
        found := Scan(Starts, io.op, io.end);
      }
    }
  }
}
