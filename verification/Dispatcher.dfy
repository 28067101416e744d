/**
 The priority FIFO dispatcher: per priority a head list and two arrival lists, the latter
 mirrored by sector-sorted trees, with request merging and a gate in front of the two lower
 priorities.
 */
module Dispatcher {

  import opened Options

  datatype Prio = Hp | Rt | Be

  /** A request keeps its priority and direction while it is queued. */
  datatype Request = Request(id: nat, prio: Prio, write: bool)

  /** A place where requests wait: the head list of a priority, or one of its arrival lists. */
  datatype ListId = HeadOf(prio: Prio) | FifoOf(prio: Prio, write: bool)

  /** A list in dispatch order; for an arrival list also its tree, in sector order. */
  datatype Queue = Queue(items: seq<Request>, tree: seq<Request>)

  type Queues = map<ListId, Queue>

  function FifoFor(r: Request): ListId {
    FifoOf(r.prio, r.write)
  }

  /** A request belongs in a list of its own priority and, for an arrival list, direction. */
  predicate Fits(r: Request, l: ListId) {
    r.prio == l.prio && (l.FifoOf? ==> r.write == l.write)
  }

  ghost predicate Distinct(s: seq<Request>) {
    forall r :: multiset(s)[r] <= 1
  }

  /** In the order of a key that every element has. */
  ghost predicate Ordered(s: seq<Request>, key: map<Request, int>) {
    (forall r :: r in s ==> r in key) &&
    forall i, j :: 0 <= i < j < |s| ==> key[s[i]] <= key[s[j]]
  }

  /**
   A list in good order: no request twice, all of them fit and have arrived; an arrival list
   is in the order of arrival and its tree holds the same requests in the order of sectors.
   */
  ghost predicate Good(l: ListId, q: Queue, time: map<Request, int>, sector: map<Request, int>, now: int) {
    && Distinct(q.items)
    && (forall r :: r in q.items ==> Fits(r, l) && r in time && time[r] <= now)
    && if l.HeadOf? then q.tree == []
       else Ordered(q.items, time) && Ordered(q.tree, sector) && multiset(q.tree) == multiset(q.items)
  }

  ghost predicate Complete(qs: Queues) {
    forall l: ListId :: l in qs
  }

  /** Waiting in the head list of its priority or in its arrival list. */
  ghost predicate IsQueued(qs: Queues, r: Request)
    requires Complete(qs)
  {
    r in qs[HeadOf(r.prio)].items || r in qs[FifoFor(r)].items
  }

  ghost predicate WellFormed(qs: Queues, time: map<Request, int>, sector: map<Request, int>, now: int) {
    && Complete(qs)
    && (forall l: ListId :: l in qs ==> Good(l, qs[l], time, sector, now))
    && (forall r: Request :: r in qs[FifoFor(r)].items ==> r !in qs[HeadOf(r.prio)].items)
  }

  // ---- All queued requests ----

  const ALL_LISTS: seq<ListId> :=
    [HeadOf(Hp), FifoOf(Hp, false), FifoOf(Hp, true),
     HeadOf(Rt), FifoOf(Rt, false), FifoOf(Rt, true),
     HeadOf(Be), FifoOf(Be, false), FifoOf(Be, true)]

  lemma AllListsComplete(l: ListId)
    ensures l in ALL_LISTS
    ensures forall i, j :: 0 <= i < j < |ALL_LISTS| ==> ALL_LISTS[i] != ALL_LISTS[j]
  {
    match l.prio {
      case Hp => assert l == ALL_LISTS[0] || l == ALL_LISTS[1] || l == ALL_LISTS[2];
      case Rt => assert l == ALL_LISTS[3] || l == ALL_LISTS[4] || l == ALL_LISTS[5];
      case Be => assert l == ALL_LISTS[6] || l == ALL_LISTS[7] || l == ALL_LISTS[8];
    }
  }

  ghost function Total(qs: Queues, ids: seq<ListId>): multiset<Request>
    requires Complete(qs)
  {
    if ids == [] then multiset{} else multiset(qs[ids[0]].items) + Total(qs, ids[1..])
  }

  ghost function Queued(qs: Queues): multiset<Request>
    requires Complete(qs)
  {
    Total(qs, ALL_LISTS)
  }

  lemma {:induction false} TotalUpdate(qs: Queues, ids: seq<ListId>, l: ListId, q: Queue)
    requires Complete(qs)
    requires forall i, j :: 0 <= i < j < |ids| ==> ids[i] != ids[j]
    ensures l !in ids ==> Total(qs[l := q], ids) == Total(qs, ids)
    ensures l in ids ==> Total(qs[l := q], ids) + multiset(qs[l].items) == Total(qs, ids) + multiset(q.items)
  {
    if ids != [] {
      TotalUpdate(qs, ids[1..], l, q);
      var rest, first := Total(qs, ids[1..]), multiset(qs[ids[0]].items);
      if l == ids[0] {
        assert l !in ids[1..];
        assert (multiset(q.items) + rest) + first == (first + rest) + multiset(q.items);
      } else if l in ids {
        assert l in ids[1..];
        assert (first + Total(qs[l := q], ids[1..])) + multiset(qs[l].items) == first + (rest + multiset(q.items));
      }
    }
  }

  /** Adding `plus` to one list and taking `minus` away changes the queued requests by the same. */
  lemma QueuedUpdate(qs: Queues, l: ListId, q: Queue, plus: multiset<Request>, minus: multiset<Request>)
    requires Complete(qs) && multiset(q.items) + minus == multiset(qs[l].items) + plus
    ensures Queued(qs[l := q]) + minus == Queued(qs) + plus
    ensures minus == multiset{} ==> Queued(qs[l := q]) == Queued(qs) + plus
    ensures plus == minus == multiset{} ==> Queued(qs[l := q]) == Queued(qs)
  {
    AllListsComplete(l);
    TotalUpdate(qs, ALL_LISTS, l, q);
    var before, after, was, becomes := Queued(qs), Queued(qs[l := q]), multiset(qs[l].items), multiset(q.items);
    hide Queued;
    assert (after + minus) + was == (before + plus) + was by {
      assert (after + minus) + was == (after + was) + minus == (before + becomes) + minus;
      assert (before + becomes) + minus == before + (becomes + minus) == before + (was + plus);
    }
    assert after + minus == ((after + minus) + was) - was;
    assert before + plus == ((before + plus) + was) - was;
  }

  // ---- Lists ----

  /** Where a request stands in its list. */
  function IndexIn(s: seq<Request>, r: Request): (i: nat)
    requires r in s
    ensures i < |s| && s[i] == r
  {
    if s[0] == r then 0 else 1 + IndexIn(s[1..], r)
  }

  function Without(s: seq<Request>, r: Request): (t: seq<Request>)
    ensures multiset(t) == multiset(s) - multiset{r}
  {
    if r !in s then s
    else
      var i := IndexIn(s, r);
      assert s == s[..i] + [r] + s[i + 1..];
      s[..i] + s[i + 1..]
  }

  lemma SameMembers(s: seq<Request>, t: seq<Request>, r: Request)
    requires multiset(s) == multiset(t)
    ensures r in s <==> r in t
  {
    assert r in s <==> r in multiset(s);
    assert r in t <==> r in multiset(t);
  }

  lemma WithoutMembers(s: seq<Request>, r: Request)
    requires Distinct(s)
    ensures Distinct(Without(s, r))
    ensures forall x :: x in Without(s, r) <==> x in s && x != r
  {
    var t := Without(s, r);
    hide Without;
    forall x
      ensures x in t <==> x in s && x != r
    {
      assert x in t <==> x in multiset(t);
      assert x in s <==> x in multiset(s);
      assert multiset(s)[r] <= 1;
    }
  }

  lemma WithoutOrdered(s: seq<Request>, r: Request, key: map<Request, int>)
    requires Ordered(s, key)
    ensures Ordered(Without(s, r), key)
  {
    if r in s {
      var i := IndexIn(s, r);
      hide IndexIn;
      CutOrdered(s, i, key);
    }
  }

  lemma CutOrdered(s: seq<Request>, i: nat, key: map<Request, int>)
    requires Ordered(s, key) && i < |s|
    ensures Ordered(s[..i] + s[i + 1..], key)
  {
    var t := s[..i] + s[i + 1..];
    assert forall k :: 0 <= k < |t| ==> t[k] == s[if k < i then k else k + 1];
  }

  /** In sector order, behind equal sectors. */
  function Inserted(s: seq<Request>, r: Request, sector: map<Request, int>): (t: seq<Request>)
    requires r in sector && forall x :: x in s ==> x in sector
    ensures multiset(t) == multiset(s) + multiset{r}
  {
    if s == [] then [r]
    else
      assert s == [s[0]] + s[1..];
      if sector[r] < sector[s[0]] then [r] + s else [s[0]] + Inserted(s[1..], r, sector)
  }

  lemma PrependedOrdered(x: Request, s: seq<Request>, key: map<Request, int>)
    requires Ordered(s, key) && x in key && forall y :: y in s ==> key[x] <= key[y]
    ensures Ordered([x] + s, key)
  {
    var t := [x] + s;
    assert forall k :: 0 < k < |t| ==> t[k] == s[k - 1] && t[k] in s;
  }

  lemma {:induction false} InsertedOrdered(s: seq<Request>, r: Request, sector: map<Request, int>)
    requires r in sector && Ordered(s, sector)
    ensures Ordered(Inserted(s, r, sector), sector)
  {
    if s == [] || sector[r] < sector[s[0]] {
      assert forall y :: y in s ==> sector[s[0]] <= sector[y];
      PrependedOrdered(r, s, sector);
      assert s == [] ==> [r] + s == [r];
    } else {
      var rest := Inserted(s[1..], r, sector);
      InsertedOrdered(s[1..], r, sector);
      OneMore(s[1..], rest, r);
      assert forall y :: y in s[1..] ==> y in s && sector[s[0]] <= sector[y];
      hide Ordered;
      PrependedOrdered(s[0], rest, sector);
    }
  }

  /** At position `k` there is room for `r`: whoever is in front of it has no larger sector, and the next one has. */
  ghost predicate RoomAt(s: seq<Request>, k: nat, r: Request, sector: map<Request, int>) {
    && k <= |s| && r in sector
    && (forall i :: 0 <= i < k ==> s[i] in sector && sector[s[i]] <= sector[r])
    && (k < |s| ==> s[k] in sector && sector[r] < sector[s[k]])
  }

  /** In front of the first request with a larger sector, and so behind all others. */
  ghost predicate TreeJoined(s: seq<Request>, t: seq<Request>, r: Request, sector: map<Request, int>) {
    exists k: nat :: RoomAt(s, k, r, sector) && t == s[..k] + [r] + s[k..]
  }

  lemma {:induction false} InsertedJoins(s: seq<Request>, r: Request, sector: map<Request, int>)
    requires r in sector && forall x :: x in s ==> x in sector
    ensures TreeJoined(s, Inserted(s, r, sector), r, sector)
  {
    if s == [] || sector[r] < sector[s[0]] {
      assert RoomAt(s, 0, r, sector);
      assert Inserted(s, r, sector) == s[..0] + [r] + s[0..];
    } else {
      var rest := s[1..];
      InsertedJoins(rest, r, sector);
      assert Inserted(s, r, sector) == [s[0]] + Inserted(rest, r, sector);
      hide Inserted;
      var k: nat :| RoomAt(rest, k, r, sector) && Inserted(rest, r, sector) == rest[..k] + [r] + rest[k..];
      RoomBehind(s, k, r, sector);
      hide RoomAt;
      OneFurther(s, k, r);
    }
  }

  lemma OneFurther(s: seq<Request>, k: nat, r: Request)
    requires k < |s|
    ensures [s[0]] + (s[1..][..k] + [r] + s[1..][k..]) == s[..k + 1] + [r] + s[k + 1..]
  {
  }

  lemma RoomBehind(s: seq<Request>, k: nat, r: Request, sector: map<Request, int>)
    requires s != [] && s[0] in sector && RoomAt(s[1..], k, r, sector) && sector[s[0]] <= sector[r]
    ensures RoomAt(s, k + 1, r, sector)
  {
    assert forall i :: 0 < i <= k ==> s[i] == s[1..][i - 1];
  }

  /** Right behind a member. */
  function Behind(s: seq<Request>, next: Request, r: Request): (t: seq<Request>)
    requires next in s
    ensures multiset(t) == multiset(s) + multiset{r}
  {
    var k := IndexIn(s, next);
    assert s == s[..k + 1] + s[k + 1..];
    s[..k + 1] + [r] + s[k + 1..]
  }

  lemma BehindOrdered(s: seq<Request>, next: Request, r: Request, time: map<Request, int>)
    requires Ordered(s, time) && next in s && r !in s
    ensures Ordered(Behind(s, next, r), time[r := time[next]])
  {
  }

  /** A key may change for requests that are not in the list. */
  lemma OrderedElsewhere(s: seq<Request>, key: map<Request, int>, r: Request, v: int)
    requires Ordered(s, key) && r !in s
    ensures Ordered(s, key[r := v])
  {
  }

  // ---- One list changes, the others do not ----

  lemma GoodElsewhere(l: ListId, q: Queue, time: map<Request, int>, sector: map<Request, int>, now: int,
                      r: Request, t: int, at: int, later: int)
    requires Good(l, q, time, sector, now) && r !in q.items && now <= later
    ensures Good(l, q, time[r := t], sector[r := at], later)
  {
    if l.FifoOf? {
      OrderedElsewhere(q.items, time, r, t);
      SameMembers(q.items, q.tree, r);
      OrderedElsewhere(q.tree, sector, r, at);
    }
    hide Ordered, Distinct;
  }

  /** A step on one list: what newly stands there was nowhere, and only `r` gets a new time or sector. */
  lemma ListStep(qs: Queues, time: map<Request, int>, sector: map<Request, int>, now: int, l: ListId, q: Queue,
                 r: Request, t: int, at: int, later: int)
    requires WellFormed(qs, time, sector, now) && now <= later
    requires forall x :: x in q.items ==> x in qs[l].items || !IsQueued(qs, x)
    requires Fits(r, l) && (r in qs[l].items || !IsQueued(qs, r))
    requires Good(l, q, time[r := t], sector[r := at], later)
    ensures WellFormed(qs[l := q], time[r := t], sector[r := at], later)
  {
    forall m: ListId | m in qs && m != l
      ensures Good(m, qs[m], time[r := t], sector[r := at], later)
    {
      assert Good(m, qs[m], time, sector, now);
      assert r in qs[m].items ==> Fits(r, m);
      GoodElsewhere(m, qs[m], time, sector, now, r, t, at, later);
    }
    hide Good;
  }

  // ---- Arrival ----

  /** The list an arriving request is put on. */
  function TargetList(r: Request, atHead: bool): ListId {
    if atHead then HeadOf(r.prio) else FifoFor(r)
  }

  /** Head lists grow at the front; arrival lists at the back, and their trees by sector. */
  function Grown(l: ListId, q: Queue, r: Request, sector: map<Request, int>): Queue
    requires l.FifoOf? ==> r in sector && forall x :: x in q.tree ==> x in sector
  {
    if l.HeadOf? then Queue([r] + q.items, q.tree)
    else Queue(q.items + [r], Inserted(q.tree, r, sector))
  }

  /** One more member. */
  lemma OneMore(s: seq<Request>, t: seq<Request>, r: Request)
    requires multiset(t) == multiset(s) + multiset{r}
    ensures forall x :: x in t <==> x in s || x == r
    ensures Distinct(s) && r !in s ==> Distinct(t)
  {
    forall x
      ensures x in t <==> x in s || x == r
    {
      assert x in t <==> x in multiset(t);
      assert x in s <==> x in multiset(s);
    }
    assert r !in s ==> multiset(s)[r] == 0;
  }

  lemma AppendedOrdered(s: seq<Request>, r: Request, time: map<Request, int>, now: int)
    requires Ordered(s, time) && r in time && time[r] == now && forall x :: x in s ==> time[x] <= now
    ensures Ordered(s + [r], time)
  {
  }

  lemma HeadGrownGood(l: ListId, q: Queue, time: map<Request, int>, sector: map<Request, int>, now: int, r: Request)
    requires l.HeadOf? && Good(l, q, time, sector, now) && r !in q.items && Fits(r, l) && r in time && time[r] <= now
    ensures Good(l, Queue([r] + q.items, q.tree), time, sector, now)
    ensures multiset([r] + q.items) == multiset(q.items) + multiset{r}
    ensures forall x :: x in [r] + q.items <==> x in q.items || x == r
  {
    hide Distinct, Ordered;
    OneMore(q.items, [r] + q.items, r);
  }

  lemma TailGrownGood(l: ListId, q: Queue, time: map<Request, int>, sector: map<Request, int>, now: int, r: Request)
    requires l.FifoOf? && Good(l, q, time, sector, now) && r !in q.items && Fits(r, l)
    requires r in sector && r in time && time[r] == now
    ensures Good(l, Queue(q.items + [r], Inserted(q.tree, r, sector)), time, sector, now)
    ensures multiset(q.items + [r]) == multiset(q.items) + multiset{r}
    ensures forall x :: x in q.items + [r] <==> x in q.items || x == r
  {
    AppendedOrdered(q.items, r, time, now);
    InsertedOrdered(q.tree, r, sector);
    hide Distinct, Ordered, Inserted;
    OneMore(q.items, q.items + [r], r);
  }

  /** Only list `l` changes: `r` goes to the front of a head list, to the back of an arrival list. */
  ghost predicate Joined(before: Queues, after: Queues, l: ListId, r: Request) {
    && l in before && l in after
    && after == before[l := after[l]]
    && after[l].items == if l.HeadOf? then [r] + before[l].items else before[l].items + [r]
  }

  lemma GrownGood(l: ListId, q: Queue, time: map<Request, int>, sector: map<Request, int>, now: int,
                  r: Request, at: int, later: int)
    requires Good(l, q, time, sector, now) && r !in q.items && Fits(r, l) && now <= later
    ensures l.FifoOf? ==> forall x :: x in q.tree ==> x in sector
    ensures var g := Grown(l, q, r, sector[r := at]);
            && Good(l, g, time[r := later], sector[r := at], later)
            && multiset(g.items) == multiset(q.items) + multiset{r}
            && forall x :: x in g.items <==> x in q.items || x == r
  {
    GoodElsewhere(l, q, time, sector, now, r, later, at, later);
    assert l.FifoOf? ==> forall x :: x in q.tree ==> x in sector;
    hide Good, Inserted;
    if l.FifoOf? {
      TailGrownGood(l, q, time[r := later], sector[r := at], later, r);
    } else {
      HeadGrownGood(l, q, time[r := later], sector[r := at], later, r);
    }
  }

  lemma Arrival(qs: Queues, time: map<Request, int>, sector: map<Request, int>, now: int,
                l: ListId, r: Request, at: int, later: int)
    requires WellFormed(qs, time, sector, now) && !IsQueued(qs, r) && Fits(r, l) && now <= later
    ensures Complete(qs) && l in qs
    ensures l.FifoOf? ==> forall x :: x in qs[l].tree ==> x in sector
    ensures var g := Grown(l, qs[l], r, sector[r := at]);
            && WellFormed(qs[l := g], time[r := later], sector[r := at], later)
            && Queued(qs[l := g]) == Queued(qs) + multiset{r}
  {
    GrownGood(l, qs[l], time, sector, now, r, at, later);
    hide Good, Grown, Queued;
    var g := Grown(l, qs[l], r, sector[r := at]);
    ListStep(qs, time, sector, now, l, g, r, later, at, later);
    hide WellFormed, IsQueued;
    QueuedUpdate(qs, l, g, multiset{r}, multiset{});
  }

  lemma GrownJoins(qs: Queues, l: ListId, r: Request, sector: map<Request, int>)
    requires l in qs && r in sector && (l.FifoOf? ==> forall x :: x in qs[l].tree ==> x in sector)
    ensures Joined(qs, qs[l := Grown(l, qs[l], r, sector)], l, r)
    ensures l.FifoOf? ==> TreeJoined(qs[l].tree, Grown(l, qs[l], r, sector).tree, r, sector)
  {
    hide Inserted, TreeJoined;
    if l.FifoOf? {
      InsertedJoins(qs[l].tree, r, sector);
    }
  }

  // ---- One list over time ----

  /** What can happen to an arrival list while nothing in it takes the place of another. */
  datatype Change = Joins(r: Request) | Goes(r: Request) | Cut(r: Request) | Stays

  /** Arrivals are appended, the first is dispatched, and a request that is merged away is cut out. */
  ghost predicate Changed(s: seq<Request>, t: seq<Request>, c: Change) {
    match c
    case Joins(r) => r !in s && t == s + [r]
    case Goes(r) => s != [] && s[0] == r && t == s[1..]
    case Cut(r) => exists k :: 0 <= k < |s| && s[k] == r && t == s[..k] + s[k + 1..]
    case Stays => t == s
  }

  /** Only list `l` changes, and its items change by `c`. */
  ghost predicate OneChanges(before: Queues, after: Queues, l: ListId, c: Change) {
    l in before && l in after && after == before[l := after[l]] && Changed(before[l].items, after[l].items, c)
  }

  ghost predicate History(lists: seq<seq<Request>>, changes: seq<Change>) {
    |lists| == |changes| + 1 && forall i :: 0 <= i < |changes| ==> Changed(lists[i], lists[i + 1], changes[i])
  }

  /** `a` is in the list, and `b` is not in front of it. */
  ghost predicate Ahead(s: seq<Request>, a: Request, b: Request) {
    exists p :: 0 <= p < |s| && s[p] == a && b !in s[..p]
  }

  lemma StaysAhead(s: seq<Request>, t: seq<Request>, c: Change, a: Request, b: Request)
    requires a != b && Ahead(s, a, b) && Changed(s, t, c) && c != Goes(a) && c != Cut(a) && c != Joins(a)
    ensures Ahead(t, a, b)
  {
    var p :| 0 <= p < |s| && s[p] == a && b !in s[..p];
    match c {
      case Joins(r) =>
        assert t[..p] == s[..p] && t[p] == a;
      case Goes(r) =>
        assert t[p - 1] == a && forall x :: x in t[..p - 1] ==> x in s[..p];
      case Cut(r) =>
        var k :| 0 <= k < |s| && s[k] == r && t == s[..k] + s[k + 1..];
        CutStaysAhead(s, t, k, p, a, b);
      case Stays =>
    }
  }

  lemma CutStaysAhead(s: seq<Request>, t: seq<Request>, k: nat, p: nat, a: Request, b: Request)
    requires k < |s| && t == s[..k] + s[k + 1..] && p < |s| && p != k && s[p] == a && b !in s[..p]
    ensures Ahead(t, a, b)
  {
    if k < p {
      assert t[p - 1] == a && forall i :: 0 <= i < p - 1 ==> t[i] == s[if i < k then i else i + 1];
      assert forall i :: 0 <= i < p ==> s[i] in s[..p];
      assert b !in t[..p - 1];
    } else {
      assert t[p] == a && t[..p] == s[..p];
    }
  }

  lemma {:induction false} AheadWhile(lists: seq<seq<Request>>, changes: seq<Change>, from: nat, to: nat,
                                      a: Request, b: Request)
    requires History(lists, changes) && from <= to < |lists| && a != b && Ahead(lists[from], a, b)
    requires forall m :: from <= m < to ==> changes[m] != Goes(a) && changes[m] != Cut(a) && changes[m] != Joins(a)
    ensures Ahead(lists[to], a, b)
  {
    if from < to {
      AheadWhile(lists, changes, from, to - 1, a, b);
      StaysAhead(lists[to - 1], lists[to], changes[to - 1], a, b);
    }
  }

  /**
   First come, first served: of two arrivals of one list the earlier has left it when the later is
   dispatched, so it has been dispatched before, or has been merged away.
   */
  lemma EarlierLeavesFirst(lists: seq<seq<Request>>, changes: seq<Change>, i: nat, j: nat, k: nat,
                           a: Request, b: Request)
    requires History(lists, changes) && i < j < k < |changes| && a != b
    requires changes[i] == Joins(a) && changes[j] == Joins(b) && changes[k] == Goes(b)
    requires forall m :: i < m < k ==> changes[m] != Joins(a)
    ensures exists m :: i < m < k && (changes[m] == Goes(a) || changes[m] == Cut(a))
  {
    if forall m :: i < m < k ==> changes[m] != Goes(a) && changes[m] != Cut(a) {
      assert Changed(lists[i], lists[i + 1], Joins(a)) && Changed(lists[j], lists[j + 1], Joins(b));
      assert Changed(lists[k], lists[k + 1], Goes(b));
      StillThere(lists, changes, i + 1, j, a);
      var p :| 0 <= p < |lists[j]| && lists[j][p] == a;
      assert lists[j + 1][p] == a && lists[j + 1][..p] == lists[j][..p];
      AheadWhile(lists, changes, j + 1, k, a, b);
      assert false;
    }
  }

  /** A request stays in its list until it is dispatched or cut. */
  lemma {:induction false} StillThere(lists: seq<seq<Request>>, changes: seq<Change>, from: nat, to: nat, a: Request)
    requires History(lists, changes) && from <= to < |lists| && a in lists[from]
    requires forall m :: from <= m < to ==> changes[m] != Goes(a) && changes[m] != Cut(a)
    ensures a in lists[to]
  {
    if from < to {
      StillThere(lists, changes, from, to - 1, a);
      assert Changed(lists[to - 1], lists[to], changes[to - 1]);
    }
  }

  lemma NotThere(qs: Queues, r: Request, l: ListId)
    requires Complete(qs) && !IsQueued(qs, r) && Fits(r, l)
    ensures r !in qs[l].items
  {
  }

  /** What an arrival does, list by list. */
  lemma JoinedAt(before: Queues, after: Queues, time: map<Request, int>, sector: map<Request, int>, now: int,
                 l: ListId, r: Request)
    requires Complete(before) && Joined(before, after, l, r) && r !in before[l].items
    requires WellFormed(after, time, sector, now)
    ensures Complete(after)
    ensures l.FifoOf? ==> OneChanges(before, after, l, Joins(r)) && r in after[l].tree
    ensures after[l].items == if l.HeadOf? then [r] + before[l].items else before[l].items + [r]
    ensures forall m: ListId :: m != l ==> after[m] == before[m]
  {
    assert Good(l, after[l], time, sector, now);
    if l.FifoOf? {
      SameMembers(after[l].items, after[l].tree, r);
    }
    hide Good;
  }

  // ---- Departure ----

  function Home(qs: Queues, r: Request): ListId
    requires HeadOf(r.prio) in qs
  {
    if r in qs[HeadOf(r.prio)].items then HeadOf(r.prio) else FifoFor(r)
  }

  function Shrunk(q: Queue, r: Request): Queue {
    Queue(Without(q.items, r), Without(q.tree, r))
  }

  /** Taking a request off a list closes the gap and leaves all others in their order. */
  lemma ShrunkIsCut(q: Queue, r: Request)
    requires r in q.items
    ensures Changed(q.items, Shrunk(q, r).items, Cut(r))
    ensures q.items[0] == r ==> Changed(q.items, Shrunk(q, r).items, Goes(r))
  {
    var i := IndexIn(q.items, r);
    assert q.items[i] == r && Shrunk(q, r).items == q.items[..i] + q.items[i + 1..];
    if q.items[0] == r {
      assert i == 0;
      assert q.items[..0] + q.items[1..] == q.items[1..];
    }
  }

  lemma ShrunkGood(l: ListId, q: Queue, time: map<Request, int>, sector: map<Request, int>, now: int, r: Request)
    requires Good(l, q, time, sector, now) && r in q.items
    ensures Good(l, Shrunk(q, r), time, sector, now)
    ensures multiset(Shrunk(q, r).items) + multiset{r} == multiset(q.items)
    ensures forall x :: x in Shrunk(q, r).items <==> x in q.items && x != r
  {
    hide Without, Ordered, Distinct;
    WithoutMembers(q.items, r);
    assert r in multiset(q.items);
    if l.FifoOf? {
      WithoutOrdered(q.items, r, time);
      WithoutOrdered(q.tree, r, sector);
    }
  }

  /** A step on one list that leaves times and sectors alone and brings nobody in. */
  lemma ListKept(qs: Queues, time: map<Request, int>, sector: map<Request, int>, now: int, l: ListId, q: Queue)
    requires WellFormed(qs, time, sector, now)
    requires forall x :: x in q.items ==> x in qs[l].items
    requires Good(l, q, time, sector, now)
    ensures WellFormed(qs[l := q], time, sector, now)
  {
    hide Good;
  }

  lemma Departure(qs: Queues, time: map<Request, int>, sector: map<Request, int>, now: int, l: ListId, r: Request)
    requires WellFormed(qs, time, sector, now) && r in qs[l].items
    ensures var s := Shrunk(qs[l], r);
            && WellFormed(qs[l := s], time, sector, now)
            && Queued(qs) == Queued(qs[l := s]) + multiset{r}
            && !IsQueued(qs[l := s], r)
  {
    hide WellFormed, Good, Shrunk, Queued;
    InItsList(qs, time, sector, now, l, r);
    var s := Shrunk(qs[l], r);
    ShrunkGood(l, qs[l], time, sector, now, r);
    ListKept(qs, time, sector, now, l, s);
    QueuedUpdate(qs, l, s, multiset{}, multiset{r});
  }

  /** A request on a list is on no other. */
  lemma InItsList(qs: Queues, time: map<Request, int>, sector: map<Request, int>, now: int, l: ListId, r: Request)
    requires WellFormed(qs, time, sector, now) && r in qs[l].items
    ensures Complete(qs) && Good(l, qs[l], time, sector, now)
    ensures if l == HeadOf(r.prio) then r !in qs[FifoFor(r)].items
            else l == FifoFor(r) && r !in qs[HeadOf(r.prio)].items
  {
    assert Good(l, qs[l], time, sector, now) && Fits(r, l);
    assert l == HeadOf(r.prio) || l == FifoFor(r);
  }

  // ---- Merging ----

  /** `next` has been merged into the later `req`, which takes its place and its time. */
  function PlaceTaken(q: Queue, req: Request, next: Request): Queue
    requires next in Without(q.items, req)
  {
    Queue(Behind(Without(q.items, req), next, req), q.tree)
  }

  lemma PlaceTakenOrdered(s: seq<Request>, time: map<Request, int>, req: Request, next: Request)
    requires Distinct(s) && Ordered(s, time) && next in Without(s, req)
    ensures Ordered(Behind(Without(s, req), next, req), time[req := time[next]])
  {
    WithoutMembers(s, req);
    WithoutOrdered(s, req, time);
    hide Without;
    BehindOrdered(Without(s, req), next, req, time);
  }

  lemma PlaceTakenGood(l: ListId, q: Queue, time: map<Request, int>, sector: map<Request, int>, now: int,
                       req: Request, next: Request)
    requires Good(l, q, time, sector, now) && req in q.items && next in q.items && req != next
    ensures next in Without(q.items, req)
    ensures multiset(PlaceTaken(q, req, next).items) == multiset(q.items)
    ensures Good(l, PlaceTaken(q, req, next), time[req := time[next]], sector, now)
    ensures forall x :: x in PlaceTaken(q, req, next).items <==> x in q.items
  {
    hide Behind, Ordered;
    WithoutMembers(q.items, req);
    hide Without;
    var t := PlaceTaken(q, req, next).items;
    assert req in multiset(q.items);
    if l.FifoOf? {
      PlaceTakenOrdered(q.items, time, req, next);
    }
    assert multiset(t) == multiset(q.items);
    assert Distinct(t);
    hide Distinct;
    forall x
      ensures x in t <==> x in q.items
    {
      SameMembers(t, q.items, x);
    }
  }

  lemma TimeElsewhere(l: ListId, q: Queue, time: map<Request, int>, sector: map<Request, int>, now: int, r: Request,
                      t: int)
    requires Good(l, q, time, sector, now) && r !in q.items
    ensures Good(l, q, time[r := t], sector, now)
  {
    if l.FifoOf? {
      OrderedElsewhere(q.items, time, r, t);
    }
    hide Ordered, Distinct;
  }

  /** A step on one list that gives one of its members a new time. */
  lemma ListRetimed(qs: Queues, time: map<Request, int>, sector: map<Request, int>, now: int, l: ListId, q: Queue,
                    r: Request, t: int)
    requires WellFormed(qs, time, sector, now) && r in qs[l].items
    requires forall x :: x in q.items ==> x in qs[l].items
    requires Good(l, q, time[r := t], sector, now)
    ensures WellFormed(qs[l := q], time[r := t], sector, now)
  {
    assert Good(l, qs[l], time, sector, now) && Fits(r, l);
    forall m: ListId | m in qs && m != l
      ensures Good(m, qs[m], time[r := t], sector, now)
    {
      assert Good(m, qs[m], time, sector, now);
      assert r in qs[m].items ==> Fits(r, m);
      TimeElsewhere(m, qs[m], time, sector, now, r, t);
    }
    hide Good;
  }

  lemma MergeWithin(qs: Queues, time: map<Request, int>, sector: map<Request, int>, now: int,
                    l: ListId, req: Request, next: Request)
    requires WellFormed(qs, time, sector, now) && req in qs[l].items && next in qs[l].items && req != next
    ensures next in Without(qs[l].items, req) && next in time
    ensures var p := PlaceTaken(qs[l], req, next);
            && req in p.items && next in p.items
            && WellFormed(qs[l := p], time[req := time[next]], sector, now)
            && Queued(qs[l := p]) == Queued(qs)
  {
    assert Good(l, qs[l], time, sector, now);
    PlaceTakenGood(l, qs[l], time, sector, now, req, next);
    assert next in time;
    hide Good, PlaceTaken, Queued, Without;
    var p := PlaceTaken(qs[l], req, next);
    ListRetimed(qs, time, sector, now, l, p, req, time[next]);
    QueuedUpdate(qs, l, p, multiset{}, multiset{});
  }

  ghost predicate TakesPlace(qs: Queues, time: map<Request, int>, req: Request, next: Request)
    requires Complete(qs)
  {
    IsQueued(qs, req) && req in time && next in time && time[next] < time[req]
  }

  /** The absorbing request would be moved into the list of the absorbed one, which is another list. */
  ghost predicate MovesAcross(qs: Queues, time: map<Request, int>, req: Request, next: Request)
    requires Complete(qs)
  {
    TakesPlace(qs, time, req, next) && Home(qs, req) != Home(qs, next)
  }

  /**
   Two requests that the block layer may merge: both wait in arrival lists, since requests inserted
   at the head are in no tree and no hash and cannot be found, and they agree in operation and
   priority, since it merges no others.
   */
  ghost predicate Offered(qs: Queues, req: Request, next: Request)
    requires Complete(qs)
  {
    req in qs[FifoFor(req)].items && next in qs[FifoFor(next)].items && FifoFor(req) == FifoFor(next)
  }

  lemma OfferedMergesStay(qs: Queues, time: map<Request, int>, sector: map<Request, int>, now: int,
                          req: Request, next: Request)
    requires WellFormed(qs, time, sector, now) && Offered(qs, req, next)
    ensures !MovesAcross(qs, time, req, next)
  {
    hide Good;
  }

  /** `req` moves from its list to the place right behind `next`. */
  function PlaceGiven(qs: Queues, l: ListId, m: ListId, req: Request, next: Request): Queues
    requires l in qs && m in qs && next in (if l == m then Without(qs[l].items, req) else qs[m].items)
  {
    var moved := qs[l := Queue(Without(qs[l].items, req), qs[l].tree)];
    moved[m := Queue(Behind(moved[m].items, next, req), moved[m].tree)]
  }

  /** A request that ends up in a foreign list is missing there from the tree, or is left behind in its own. */
  lemma MergeAcrossBreaks(qs: Queues, time: map<Request, int>, sector: map<Request, int>, now: int,
                          l: ListId, m: ListId, req: Request, next: Request, time': map<Request, int>)
    requires WellFormed(qs, time, sector, now) && req != next && l != m
    requires req in qs[l].items && next in qs[m].items
    ensures var given := PlaceGiven(qs, l, m, req, next);
            !WellFormed(given[m := Shrunk(given[m], next)], time', sector, now)
  {
    hide WellFormed, Good, Shrunk, Behind, Without, PlaceGiven;
    OnTwoLists(qs, time, sector, now, l, m, req);
    InItsList(qs, time, sector, now, l, req);
    InItsList(qs, time, sector, now, m, next);
    GivenLists(qs, l, m, req, next);
    var given := PlaceGiven(qs, l, m, req, next);
    assert m in given;
    var after := given[m := Shrunk(given[m], next)];
    if l.FifoOf? {
      LeftBehind(l, qs[l], req, after[l], time', sector, time, now);
      BadList(after, l, time', sector, now);
    } else {
      Misplaced(m, qs[m], req, next, time', sector, time, now);
      BadList(after, m, time', sector, now);
    }
  }

  lemma GivenLists(qs: Queues, l: ListId, m: ListId, req: Request, next: Request)
    requires l in qs && m in qs && l != m && next in qs[m].items
    ensures m in PlaceGiven(qs, l, m, req, next)
    ensures var given := PlaceGiven(qs, l, m, req, next);
            var after := given[m := Shrunk(given[m], next)];
            && l in after && m in after
            && after[l] == Queue(Without(qs[l].items, req), qs[l].tree)
            && after[m] == Shrunk(Queue(Behind(qs[m].items, next, req), qs[m].tree), next)
  {
    hide Shrunk, Behind, Without;
  }

  lemma BadList(qs: Queues, l: ListId, time: map<Request, int>, sector: map<Request, int>, now: int)
    requires l in qs && !Good(l, qs[l], time, sector, now)
    ensures !WellFormed(qs, time, sector, now)
  {
    hide Good;
  }

  /** Nothing is on two lists, and only an arrival list other than its own home could take a request in. */
  lemma OnTwoLists(qs: Queues, time: map<Request, int>, sector: map<Request, int>, now: int, l: ListId, m: ListId,
                   req: Request)
    requires WellFormed(qs, time, sector, now) && req in qs[l].items && l != m
    ensures req !in qs[m].items && (l.HeadOf? && Fits(req, m) ==> m.FifoOf?)
  {
    hide Good;
    ItemFits(l, qs[l], time, sector, now, req);
    if req in qs[m].items {
      ItemFits(m, qs[m], time, sector, now, req);
    }
  }

  lemma ItemFits(l: ListId, q: Queue, time: map<Request, int>, sector: map<Request, int>, now: int, r: Request)
    requires Good(l, q, time, sector, now) && r in q.items
    ensures Fits(r, l)
  {
  }

  /** Taken off its list, but not off its tree. */
  lemma LeftBehind(l: ListId, q: Queue, req: Request, after: Queue, time': map<Request, int>, sector: map<Request, int>,
                   time: map<Request, int>, now: int)
    requires l.FifoOf? && Good(l, q, time, sector, now) && req in q.items
             && after == Queue(Without(q.items, req), q.tree)
    ensures !Good(l, after, time', sector, now)
  {
    hide Ordered;
    WithoutMembers(q.items, req);
    SameMembers(q.items, q.tree, req);
    assert req !in multiset(after.items) && req in multiset(after.tree);
  }

  /** Put on a list, but not on its tree. */
  lemma Misplaced(m: ListId, q: Queue, req: Request, next: Request, time': map<Request, int>, sector: map<Request, int>,
                  time: map<Request, int>, now: int)
    requires Good(m, q, time, sector, now) && req !in q.items && next in q.items && req != next
    requires Fits(req, m) ==> m.FifoOf?
    ensures !Good(m, Shrunk(Queue(Behind(q.items, next, req), q.tree), next), time', sector, now)
  {
    hide Ordered, Distinct, Behind, Without;
    var after := Shrunk(Queue(Behind(q.items, next, req), q.tree), next);
    assert req in multiset(Behind(q.items, next, req));
    assert req in multiset(after.items);
    if Fits(req, m) {
      SameMembers(q.items, q.tree, req);
      assert req !in multiset(q.tree);
      assert req !in multiset(after.tree);
    }
  }

  /** The lists after `next` has been merged into `req`. */
  ghost function AfterMerge(qs: Queues, time: map<Request, int>, req: Request, next: Request): (after: Queues)
    requires Complete(qs)
    requires TakesPlace(qs, time, req, next) ==>
               var l, m := Home(qs, req), Home(qs, next);
               next in (if l == m then Without(qs[l].items, req) else qs[m].items)
    ensures Complete(after)
  {
    var l, m := Home(qs, req), Home(qs, next);
    var given := if TakesPlace(qs, time, req, next) then PlaceGiven(qs, l, m, req, next) else qs;
    given[m := Shrunk(given[m], next)]
  }

  ghost function TimeAfterMerge(qs: Queues, time: map<Request, int>, req: Request, next: Request): map<Request, int>
    requires Complete(qs)
  {
    if TakesPlace(qs, time, req, next) then time[req := time[next]] else time
  }

  /** Removing a request leaves every other one where it is. */
  lemma DepartureKeeps(qs: Queues, l: ListId, r: Request, other: Request)
    requires Complete(qs) && other != r && IsQueued(qs, other)
    ensures IsQueued(qs[l := Shrunk(qs[l], r)], other)
  {
    var t := Without(qs[l].items, r);
    assert multiset(t) == multiset(qs[l].items) - multiset{r};
    assert other in qs[l].items <==> other in multiset(qs[l].items);
    assert other in t <==> other in multiset(t);
    hide Without;
  }

  /** A merge keeps everything in order exactly when it moves nothing from one list to another. */
  lemma MergeOutcome(qs: Queues, time: map<Request, int>, sector: map<Request, int>, now: int, req: Request,
                     next: Request)
    requires WellFormed(qs, time, sector, now) && req != next && IsQueued(qs, next)
    ensures TakesPlace(qs, time, req, next) ==>
              var l, m := Home(qs, req), Home(qs, next);
              next in (if l == m then Without(qs[l].items, req) else qs[m].items)
    ensures var after := AfterMerge(qs, time, req, next);
            && (WellFormed(after, TimeAfterMerge(qs, time, req, next), sector, now)
                <==> !MovesAcross(qs, time, req, next))
            && (!MovesAcross(qs, time, req, next) ==>
                  && Queued(qs) == Queued(after) + multiset{next}
                  && !IsQueued(after, next) && (IsQueued(qs, req) ==> IsQueued(after, req)))
  {
    var l, m := Home(qs, req), Home(qs, next);
    if TakesPlace(qs, time, req, next) && l != m {
      MergeAcrossBreaks(qs, time, sector, now, l, m, req, next, time[req := time[next]]);
    } else {
      MergeOutcomeInPlace(qs, time, sector, now, req, next);
    }
  }

  /** `next` goes from the lists as they are once `req` has been moved, if it had to be. */
  lemma Removal(qs: Queues, time: map<Request, int>, sector: map<Request, int>, now: int, req: Request, next: Request)
    requires WellFormed(qs, time, sector, now) && req != next && IsQueued(qs, next)
    ensures var m := Home(qs, next);
            var after := qs[m := Shrunk(qs[m], next)];
            && WellFormed(after, time, sector, now)
            && Queued(qs) == Queued(after) + multiset{next}
            && !IsQueued(after, next) && (IsQueued(qs, req) ==> IsQueued(after, req))
  {
    var m := Home(qs, next);
    hide Shrunk, Queued;
    Departure(qs, time, sector, now, m, next);
    hide WellFormed;
    if IsQueued(qs, req) {
      DepartureKeeps(qs, m, next, req);
    }
  }

  lemma MergeOutcomeInPlace(qs: Queues, time: map<Request, int>, sector: map<Request, int>, now: int, req: Request,
                            next: Request)
    requires WellFormed(qs, time, sector, now) && req != next && IsQueued(qs, next) && !MovesAcross(qs, time, req, next)
    ensures TakesPlace(qs, time, req, next) ==> next in Without(qs[Home(qs, next)].items, req)
    ensures var after := AfterMerge(qs, time, req, next);
            && WellFormed(after, TimeAfterMerge(qs, time, req, next), sector, now)
            && Queued(qs) == Queued(after) + multiset{next}
            && !IsQueued(after, next) && (IsQueued(qs, req) ==> IsQueued(after, req))
  {
    if TakesPlace(qs, time, req, next) {
      MergeOutcomeMoved(qs, time, sector, now, Home(qs, next), req, next);
    } else {
      hide WellFormed, Shrunk, Queued, IsQueued, Without, Behind;
      Removal(qs, time, sector, now, req, next);
    }
  }

  lemma MergeOutcomeMoved(qs: Queues, time: map<Request, int>, sector: map<Request, int>, now: int,
                          m: ListId, req: Request, next: Request)
    requires WellFormed(qs, time, sector, now) && req != next && IsQueued(qs, next)
    requires TakesPlace(qs, time, req, next) && m == Home(qs, req) == Home(qs, next)
    ensures next in Without(qs[m].items, req)
    ensures var given := PlaceGiven(qs, m, m, req, next);
            var after := given[m := Shrunk(given[m], next)];
            && WellFormed(after, time[req := time[next]], sector, now)
            && Queued(qs) == Queued(after) + multiset{next}
            && !IsQueued(after, next) && IsQueued(after, req)
  {
    MergeWithin(qs, time, sector, now, m, req, next);
    var given := qs[m := PlaceTaken(qs[m], req, next)];
    PlaceTakenIsGiven(qs, m, req, next);
    hide PlaceTaken, PlaceGiven, Without, Behind, Shrunk, WellFormed, Queued;
    HomeIs(given, time[req := time[next]], sector, now, m, next);
    HomeIs(given, time[req := time[next]], sector, now, m, req);
    hide IsQueued, Home;
    Removal(given, time[req := time[next]], sector, now, req, next);
  }

  lemma HomeIs(qs: Queues, time: map<Request, int>, sector: map<Request, int>, now: int, l: ListId, r: Request)
    requires WellFormed(qs, time, sector, now) && r in qs[l].items
    ensures Home(qs, r) == l && IsQueued(qs, r)
  {
    assert Good(l, qs[l], time, sector, now) && Fits(r, l);
    assert l == HeadOf(r.prio) || l == FifoFor(r);
  }

  lemma PlaceTakenIsGiven(qs: Queues, m: ListId, req: Request, next: Request)
    requires m in qs && next in Without(qs[m].items, req)
    ensures PlaceGiven(qs, m, m, req, next) == qs[m := PlaceTaken(qs[m], req, next)]
  {
    hide Without, Behind;
  }

  /** Moving a request to its new place in the tree after its first sector has changed. */
  lemma RepositionedGood(l: ListId, q: Queue, time: map<Request, int>, sector: map<Request, int>, now: int,
                         req: Request, at: int)
    requires l.FifoOf? && Good(l, q, time, sector, now) && req in q.items
    ensures forall x :: x in Without(q.tree, req) ==> x in sector
    ensures Good(l, Queue(q.items, Inserted(Without(q.tree, req), req, sector[req := at])), time, sector[req := at],
                 now)
  {
    SameMembers(q.items, q.tree, req);
    var rest := Without(q.tree, req);
    assert Distinct(q.tree);
    WithoutMembers(q.tree, req);
    WithoutOrdered(q.tree, req, sector);
    assert multiset(rest) + multiset{req} == multiset(q.tree) by {
      assert req in multiset(q.tree);
    }
    hide Without, Distinct;
    OrderedElsewhere(rest, sector, req, at);
    InsertedOrdered(rest, req, sector[req := at]);
    hide Inserted, Ordered;
  }

  // ---- Merging, place by place ----

  lemma {:induction false} IndexAfter(u: seq<Request>, r: Request, v: seq<Request>)
    requires r !in u
    ensures IndexIn(u + [r] + v, r) == |u|
  {
    var s := u + [r] + v;
    if u != [] {
      assert s[0] == u[0] && s[1..] == u[1..] + [r] + v;
      IndexAfter(u[1..], r, v);
    }
  }

  lemma WithoutAt(u: seq<Request>, r: Request, v: seq<Request>)
    requires r !in u
    ensures Without(u + [r] + v, r) == u + v
  {
    var s := u + [r] + v;
    IndexAfter(u, r, v);
    assert s[..|u|] == u && s[|u| + 1..] == v;
  }

  lemma BehindAt(u: seq<Request>, next: Request, v: seq<Request>, r: Request)
    requires next !in u
    ensures Behind(u + [next] + v, next, r) == u + [next] + [r] + v
  {
    var s := u + [next] + v;
    IndexAfter(u, next, v);
    assert s[..|u| + 1] == u + [next] && s[|u| + 1..] == v;
  }

  lemma OnceEach(s: seq<Request>, u: seq<Request>, r: Request, v: seq<Request>)
    requires Distinct(s) && s == u + [r] + v
    ensures r !in u && r !in v
  {
    assert multiset(s) == multiset(u) + multiset{r} + multiset(v);
    assert multiset(s)[r] <= 1;
    assert r in u ==> multiset(u)[r] > 0;
    assert r in v ==> multiset(v)[r] > 0;
  }

  /** The later request stands where the absorbed one stood. */
  lemma MovedItems(s: seq<Request>, req: Request, next: Request, u: seq<Request>, v: seq<Request>, w: seq<Request>)
    requires Distinct(s) && req != next && s == u + [next] + v + [req] + w
    ensures next in Without(s, req)
    ensures Without(Behind(Without(s, req), next, req), next) == u + [req] + v + w
  {
    hide Without, Behind, Distinct;
    assert s == (u + [next] + v) + [req] + w && s == u + [next] + (v + [req] + w);
    OnceEach(s, u + [next] + v, req, w);
    OnceEach(s, u, next, v + [req] + w);
    WithoutAt(u + [next] + v, req, w);
    assert (u + [next] + v) + w == u + [next] + (v + w);
    BehindAt(u, next, v + w, req);
    assert u + [next] + [req] + (v + w) == u + [next] + ([req] + v + w);
    WithoutAt(u, next, [req] + v + w);
    assert u + ([req] + v + w) == u + [req] + v + w;
  }

  /**
   A request that absorbs an earlier one of its list takes that one's place and time; nothing else
   changes, on this list or on another.
   */
  lemma MergeTakesPlace(qs: Queues, time: map<Request, int>, sector: map<Request, int>, now: int, l: ListId,
                        req: Request, next: Request, u: seq<Request>, v: seq<Request>, w: seq<Request>)
    requires WellFormed(qs, time, sector, now) && req != next && l in qs && qs[l].items == u + [next] + v + [req] + w
    requires next in time && req in time && time[next] < time[req]
    ensures next in Without(qs[l].items, req) && Home(qs, req) == Home(qs, next) == l
    ensures var after := AfterMerge(qs, time, req, next);
            && after == qs[l := after[l]] && after[l].items == u + [req] + v + w
            && TimeAfterMerge(qs, time, req, next) == time[req := time[next]]
  {
    hide WellFormed, Without, Behind, IsQueued, Home, TakesPlace, AfterMerge, Distinct, TimeAfterMerge;
    OnList(qs, time, sector, now, l, req, u + [next] + v, w);
    assert qs[l].items == u + [next] + (v + [req] + w);
    OnList(qs, time, sector, now, l, next, u, v + [req] + w);
    MovedItems(qs[l].items, req, next, u, v, w);
    assert TakesPlace(qs, time, req, next) by {
      Earlier(qs, time, req, next);
    }
    AfterMoving(qs, time, l, req, next);
  }

  lemma OnList(qs: Queues, time: map<Request, int>, sector: map<Request, int>, now: int, l: ListId,
               r: Request, u: seq<Request>, v: seq<Request>)
    requires WellFormed(qs, time, sector, now) && l in qs && qs[l].items == u + [r] + v
    ensures Complete(qs) && Home(qs, r) == l && IsQueued(qs, r) && r in qs[l].items && Distinct(qs[l].items)
  {
    hide Home, IsQueued, Distinct;
    assert r in qs[l].items;
    HomeIs(qs, time, sector, now, l, r);
    assert Good(l, qs[l], time, sector, now);
  }

  lemma Earlier(qs: Queues, time: map<Request, int>, req: Request, next: Request)
    requires Complete(qs)
    ensures TakesPlace(qs, time, req, next) <==>
              IsQueued(qs, req) && req in time && next in time && time[next] < time[req]
  {
  }

  lemma AfterMoving(qs: Queues, time: map<Request, int>, l: ListId, req: Request, next: Request)
    requires Complete(qs) && TakesPlace(qs, time, req, next) && Home(qs, req) == Home(qs, next) == l
    requires next in Without(qs[l].items, req)
    ensures var after := AfterMerge(qs, time, req, next);
            && after == qs[l := after[l]]
            && after[l].items == Without(Behind(Without(qs[l].items, req), next, req), next)
            && TimeAfterMerge(qs, time, req, next) == (assert next in time; time[req := time[next]])
  {
    hide Without, Behind, Home, IsQueued;
  }

  lemma AfterLeaving(qs: Queues, time: map<Request, int>, l: ListId, req: Request, next: Request)
    requires Complete(qs) && !TakesPlace(qs, time, req, next) && Home(qs, next) == l
    ensures AfterMerge(qs, time, req, next) == qs[l := Shrunk(qs[l], next)]
    ensures TimeAfterMerge(qs, time, req, next) == time
  {
    hide Shrunk, Behind, Home, IsQueued, TakesPlace;
  }

  /** Otherwise the absorbed request is taken out, and nothing else changes. */
  lemma MergeLeavesPlace(qs: Queues, time: map<Request, int>, sector: map<Request, int>, now: int, l: ListId,
                         req: Request, next: Request, u: seq<Request>, v: seq<Request>)
    requires WellFormed(qs, time, sector, now) && req != next && l in qs && qs[l].items == u + [next] + v
    requires !IsQueued(qs, req) || (next in time && req in time && time[req] <= time[next])
    ensures Home(qs, next) == l && !TakesPlace(qs, time, req, next)
    ensures var after := AfterMerge(qs, time, req, next);
            && after == qs[l := after[l]] && after[l].items == u + v && TimeAfterMerge(qs, time, req, next) == time
            && OneChanges(qs, after, l, Cut(next))
  {
    hide WellFormed, IsQueued, Home, TakesPlace, AfterMerge, Distinct, TimeAfterMerge, Changed, IndexIn;
    OnList(qs, time, sector, now, l, next, u, v);
    Earlier(qs, time, req, next);
    OnceEach(qs[l].items, u, next, v);
    WithoutAt(u, next, v);
    ShrunkIsCut(qs[l], next);
    AfterLeaving(qs, time, l, req, next);
    hide Without;
  }

  // ---- Dispatch ----

  ghost predicate Idle(qs: Queues, prio: Prio)
    requires Complete(qs)
  {
    qs[HeadOf(prio)].items == [] && qs[FifoOf(prio, false)].items == [] && qs[FifoOf(prio, true)].items == []
  }

  /** The first of the head list; without one, the oldest arrival of the priority, of two as old the write. */
  ghost predicate IsNext(qs: Queues, time: map<Request, int>, prio: Prio, r: Request)
    requires Complete(qs)
  {
    var head := qs[HeadOf(prio)].items;
    && IsQueued(qs, r) && r.prio == prio
    && if head != [] then r == head[0]
       else
         && r in time && qs[FifoFor(r)].items[..1] == [r]
         && forall other: Request :: other.prio == prio && IsQueued(qs, other) ==>
              other in time && time[r] <= time[other] && (!r.write && other.write ==> time[r] < time[other])
  }

  /** The first of the head list leaves, or of the request's arrival list if that is empty; nothing else changes. */
  ghost predicate TakenFirst(before: Queues, after: Queues, r: Request) {
    && HeadOf(r.prio) in before
    && var head := before[HeadOf(r.prio)].items != [];
    OneChanges(before, after, if head then HeadOf(r.prio) else FifoOf(r.prio, r.write), Goes(r))
  }

  lemma NextIsFirst(qs: Queues, time: map<Request, int>, prio: Prio, r: Request)
    requires Complete(qs) && IsNext(qs, time, prio, r)
    ensures r.prio == prio
    ensures var l := if qs[HeadOf(prio)].items != [] then HeadOf(prio) else FifoOf(prio, r.write);
            l == Home(qs, r) && r in qs[l].items && qs[l].items[0] == r
  {
    if qs[HeadOf(prio)].items == [] {
      assert qs[FifoFor(r)].items[..1] == [r] && qs[FifoFor(r)].items[0] == r;
    }
  }

  lemma NextIsTaken(qs: Queues, time: map<Request, int>, sector: map<Request, int>, now: int, prio: Prio, r: Request)
    requires WellFormed(qs, time, sector, now) && IsNext(qs, time, prio, r)
    ensures var l := Home(qs, r); TakenFirst(qs, qs[l := Shrunk(qs[l], r)], r)
  {
    hide WellFormed, IsNext, Shrunk, Home, OneChanges, IsQueued;
    AllLists(qs, time, sector, now);
    NextIsFirst(qs, time, prio, r);
    FirstIsTaken(qs, Home(qs, r), r);
  }

  lemma FirstIsTaken(qs: Queues, l: ListId, r: Request)
    requires l in qs && r in qs[l].items && qs[l].items[0] == r
    ensures OneChanges(qs, qs[l := Shrunk(qs[l], r)], l, Goes(r))
  {
    hide Shrunk, Changed;
    ShrunkIsCut(qs[l], r);
  }

  /** Whether a pass through the dispatcher finds a request, given the answers of the gate. */
  ghost predicate Finds(qs: Queues, allowedRt: bool, allowedBe: bool)
    requires Complete(qs)
  {
    !Idle(qs, Hp) || (allowedRt && !Idle(qs, Rt)) || (allowedBe && !Idle(qs, Be))
  }

  lemma EmptyIsWellFormed(qs: Queues)
    requires qs == map l: ListId | l in ALL_LISTS :: Queue([], [])
    ensures WellFormed(qs, map[], map[], 0) && Queued(qs) == multiset{}
  {
    hide Good, Queued;
    forall l: ListId
      ensures l in qs && qs[l] == Queue([], []) && Good(l, Queue([], []), map[], map[], 0)
    {
      AllListsComplete(l);
      NothingIsGood(l);
    }
    EmptyQueued(qs);
  }

  lemma NothingIsGood(l: ListId)
    ensures Good(l, Queue([], []), map[], map[], 0)
  {
  }

  lemma EmptyQueued(qs: Queues)
    requires Complete(qs) && forall l: ListId :: qs[l].items == []
    ensures Queued(qs) == multiset{}
  {
    TotalEmpty(qs, ALL_LISTS);
  }

  lemma {:induction false} TotalEmpty(qs: Queues, ids: seq<ListId>)
    requires Complete(qs) && forall l: ListId :: qs[l].items == []
    ensures Total(qs, ids) == multiset{}
  {
    if ids != [] {
      TotalEmpty(qs, ids[1..]);
    }
  }

  lemma TimePasses(qs: Queues, time: map<Request, int>, sector: map<Request, int>, now: int, later: int)
    requires WellFormed(qs, time, sector, now) && now <= later
    ensures WellFormed(qs, time, sector, later)
  {
    forall l: ListId | l in qs
      ensures Good(l, qs[l], time, sector, later)
    {
      assert Good(l, qs[l], time, sector, now);
    }
  }

  lemma Repositioning(qs: Queues, time: map<Request, int>, sector: map<Request, int>, now: int, l: ListId,
                      req: Request, at: int)
    requires WellFormed(qs, time, sector, now) && l.FifoOf? && req in qs[l].items
    ensures Complete(qs) && l in qs
    ensures forall x :: x in Without(qs[l].tree, req) ==> x in sector
    ensures var q := Queue(qs[l].items, Inserted(Without(qs[l].tree, req), req, sector[req := at]));
            WellFormed(qs[l := q], time, sector[req := at], now) && Queued(qs[l := q]) == Queued(qs)
  {
    assert Good(l, qs[l], time, sector, now) && Fits(req, l) && req in time;
    RepositionedGood(l, qs[l], time, sector, now, req, at);
    var q := Queue(qs[l].items, Inserted(Without(qs[l].tree, req), req, sector[req := at]));
    hide Good, Inserted, Without, Queued;
    assert time[req := time[req]] == time;
    ListStep(qs, time, sector, now, l, q, req, time[req], at, now);
    QueuedUpdate(qs, l, q, multiset{}, multiset{});
  }

  lemma QueuedHaveArrived(qs: Queues, time: map<Request, int>, sector: map<Request, int>, now: int, r: Request)
    requires WellFormed(qs, time, sector, now) && IsQueued(qs, r)
    ensures r in time && time[r] <= now
  {
    assert Good(Home(qs, r), qs[Home(qs, r)], time, sector, now);
  }

  /** The first of an arrival list is the oldest in it. */
  lemma OldestFirst(qs: Queues, time: map<Request, int>, sector: map<Request, int>, now: int, prio: Prio)
    requires WellFormed(qs, time, sector, now)
    ensures forall write: bool, r ::
              r in qs[FifoOf(prio, write)].items ==>
                var first := qs[FifoOf(prio, write)].items[0];
                first in time && r in time && time[first] <= time[r] && r.prio == prio && r.write == write
  {
    forall write: bool, r | r in qs[FifoOf(prio, write)].items
      ensures var first := qs[FifoOf(prio, write)].items[0];
              first in time && r in time && time[first] <= time[r] && r.prio == prio && r.write == write
    {
      assert Good(FifoOf(prio, write), qs[FifoOf(prio, write)], time, sector, now);
    }
  }

  lemma AllLists(qs: Queues, time: map<Request, int>, sector: map<Request, int>, now: int)
    requires WellFormed(qs, time, sector, now)
    ensures Complete(qs)
  {
  }

  lemma HeadIsNext(qs: Queues, time: map<Request, int>, sector: map<Request, int>, now: int, prio: Prio)
    requires WellFormed(qs, time, sector, now) && qs[HeadOf(prio)].items != []
    ensures IsNext(qs, time, prio, qs[HeadOf(prio)].items[0])
  {
    assert Good(HeadOf(prio), qs[HeadOf(prio)], time, sector, now);
    assert Fits(qs[HeadOf(prio)].items[0], HeadOf(prio));
  }

  /** The older one of the two firsts of the arrival lists. */
  lemma OldestIsNext(qs: Queues, time: map<Request, int>, sector: map<Request, int>, now: int, prio: Prio, write: bool)
    requires WellFormed(qs, time, sector, now) && qs[HeadOf(prio)].items == []
    requires var mine, others := qs[FifoOf(prio, write)].items, qs[FifoOf(prio, !write)].items;
             && mine != []
             && (others != [] && mine[0] in time && others[0] in time ==>
                   if write then time[mine[0]] <= time[others[0]] else time[mine[0]] < time[others[0]])
    ensures IsNext(qs, time, prio, qs[FifoOf(prio, write)].items[0])
  {
    assert Complete(qs);
    hide WellFormed;
    OldestFirst(qs, time, sector, now, prio);
    var r := qs[FifoOf(prio, write)].items[0];
    assert r in qs[FifoOf(prio, write)].items && FifoFor(r) == FifoOf(prio, write);
    forall other: Request | other.prio == prio && IsQueued(qs, other)
      ensures other in time && time[r] <= time[other] && (!r.write && other.write ==> time[r] < time[other])
    {
      assert other in qs[FifoOf(prio, other.write)].items;
      assert qs[FifoOf(prio, other.write)].items[0].write == other.write;
    }
  }

  /** Conservation: every arrival is still queued, was dispatched, or was merged away. */
  ghost predicate Balanced(arrived: multiset<Request>, queued: multiset<Request>, dispatched: multiset<Request>,
                           merged: multiset<Request>) {
    arrived == queued + dispatched + merged
  }

  lemma BalanceMoves(arrived: multiset<Request>, queued: multiset<Request>, dispatched: multiset<Request>,
                     merged: multiset<Request>, less: multiset<Request>, one: multiset<Request>)
    requires Balanced(arrived, queued, dispatched, merged)
    ensures Balanced(arrived + one, queued + one, dispatched, merged)
    ensures Balanced(arrived + one, queued, dispatched, merged + one)
    ensures queued == less + one ==>
              Balanced(arrived, less, dispatched + one, merged) && Balanced(arrived, less, dispatched, merged + one)
  {
  }

  lemma MergeConserves(qs: Queues, time: map<Request, int>, sector: map<Request, int>, now: int,
                       req: Request, next: Request,
                       arrived: multiset<Request>, dispatched: multiset<Request>, merged: multiset<Request>)
    requires WellFormed(qs, time, sector, now) && req != next && IsQueued(qs, next)
    requires Balanced(arrived, Queued(qs), dispatched, merged)
    ensures Complete(qs) && next in time && (IsQueued(qs, req) ==> req in time)
    ensures TakesPlace(qs, time, req, next) ==>
              var l, m := Home(qs, req), Home(qs, next);
              next in (if l == m then Without(qs[l].items, req) else qs[m].items)
    ensures var after := AfterMerge(qs, time, req, next);
            (WellFormed(after, TimeAfterMerge(qs, time, req, next), sector, now)
             && Balanced(arrived, Queued(after), dispatched, merged + multiset{next}))
                <==> !MovesAcross(qs, time, req, next)
  {
    MergeOutcome(qs, time, sector, now, req, next);
    QueuedHaveArrived(qs, time, sector, now, next);
    if IsQueued(qs, req) {
      QueuedHaveArrived(qs, time, sector, now, req);
    }
    hide AfterMerge, WellFormed, Queued, Without, Home, MovesAcross, TakesPlace;
    BalanceMoves(arrived, Queued(qs), dispatched, merged, Queued(AfterMerge(qs, time, req, next)), multiset{next});
  }

  class Scheduler {
    var queues: Queues
    var time: map<Request, int>
    var sector: map<Request, int>
    ghost var now: int
    ghost var arrived: multiset<Request>
    ghost var dispatched: multiset<Request>
    ghost var merged: multiset<Request>

    ghost predicate Valid()
      reads this
    {
      WellFormed(queues, time, sector, now) && Balanced(arrived, Queued(queues), dispatched, merged)
    }

    constructor ()
      ensures Valid() && arrived == multiset{}
    {
      queues := map l: ListId | l in ALL_LISTS :: Queue([], []);
      time, sector, now := map[], map[], 0;
      arrived, dispatched, merged := multiset{}, multiset{}, multiset{};
      EmptyIsWellFormed(map l: ListId | l in ALL_LISTS :: Queue([], []));
    }

    /** A request arrives; the block layer may merge it into a queued request right away, and then it is gone. */
    method Insert(r: Request, at: int, atHead: bool, mergedAtOnce: bool, jiffies: int)
      requires Valid() && !IsQueued(queues, r) && now <= jiffies
      modifies this
      ensures Valid() && now == jiffies && dispatched == old(dispatched) && arrived == old(arrived) + multiset{r}
      ensures mergedAtOnce ==> merged == old(merged) + multiset{r} && queues == old(queues) && time == old(time)
      ensures !mergedAtOnce ==> merged == old(merged) && time == old(time)[r := jiffies]
      ensures !mergedAtOnce ==> Joined(old(queues), queues, TargetList(r, atHead), r)
      ensures !mergedAtOnce && !atHead ==>
                var l := FifoOf(r.prio, r.write);
                && OneChanges(old(queues), queues, l, Joins(r))
                && queues[l].items == old(queues)[l].items + [r] && r in queues[l].tree
                && TreeJoined(old(queues)[l].tree, queues[l].tree, r, sector)
                && HeadOf(r.prio) in queues && queues[HeadOf(r.prio)] == old(queues)[HeadOf(r.prio)]
      ensures !mergedAtOnce && atHead ==>
                var l := HeadOf(r.prio);
                && l in queues && l in old(queues) && queues == old(queues)[l := queues[l]]
                && queues[l].items == [r] + old(queues)[l].items
      ensures sector == if mergedAtOnce then old(sector) else old(sector)[r := at]
    {
      ghost var before := queues;
      hide WellFormed, Balanced, Queued, IsQueued, Joined, TreeJoined;
      if mergedAtOnce {
        TimePasses(queues, time, sector, now, jiffies);
        BalanceMoves(arrived, Queued(queues), dispatched, merged, Queued(queues), multiset{r});
        arrived, merged := arrived + multiset{r}, merged + multiset{r};
        now := jiffies;
      } else {
        ghost var l := if atHead then HeadOf(r.prio) else FifoOf(r.prio, r.write);
        AllLists(queues, time, sector, now);
        NotThere(queues, r, l);
        Enqueue(r, at, TargetList(r, atHead), jiffies);
        JoinedAt(before, queues, time, sector, now, l, r);
      }
    }

    method Enqueue(r: Request, at: int, l: ListId, jiffies: int)
      requires Valid() && !IsQueued(queues, r) && Fits(r, l) && now <= jiffies
      modifies `queues, `time, `sector, `now, `arrived
      ensures Valid() && now == jiffies && arrived == old(arrived) + multiset{r}
      ensures time == old(time)[r := jiffies] && sector == old(sector)[r := at] && Joined(old(queues), queues, l, r)
      ensures l.FifoOf? ==> TreeJoined(old(queues)[l].tree, queues[l].tree, r, sector)
    {
      hide WellFormed, Balanced, Queued, IsQueued, Inserted, Grown, Joined, TreeJoined;
      Arrival(queues, time, sector, now, l, r, at, jiffies);
      GrownJoins(queues, l, r, sector[r := at]);
      BalanceMoves(arrived, Queued(queues), dispatched, merged, Queued(queues), multiset{r});
      arrived, now := arrived + multiset{r}, jiffies;
      time, sector := time[r := jiffies], sector[r := at];
      queues := queues[l := Grown(l, queues[l], r, sector)];
    }

    /** Takes a request off its list and its tree; one that is on no list is left alone. */
    method Remove(r: Request)
      requires WellFormed(queues, time, sector, now)
      modifies `queues
      ensures WellFormed(queues, time, sector, now) && !IsQueued(queues, r)
      ensures if old(IsQueued(queues, r)) then
                var l := Home(old(queues), r);
                queues == old(queues)[l := Shrunk(old(queues)[l], r)]
                    && Queued(old(queues)) == Queued(queues) + multiset{r}
              else queues == old(queues)
      ensures old(IsQueued(queues, r)) ==>
                var head := r in old(queues)[HeadOf(r.prio)].items;
                OneChanges(old(queues), queues, if head then HeadOf(r.prio) else FifoOf(r.prio, r.write), Cut(r))
    {
      var l := Home(queues, r);
      if r in queues[l].items {
        Departure(queues, time, sector, now, l, r);
        ShrunkIsCut(queues[l], r);
        hide WellFormed, Queued, Shrunk;
        queues := queues[l := Shrunk(queues[l], r)];
      }
    }

    /**
     `next` has been merged into `req`. If it arrived earlier, `req` takes its place and its
     time. Order, placement and conservation survive exactly when that does not move `req`
     into another list.
     */
    method MergedRequests(req: Request, next: Request)
      requires Valid() && req != next && IsQueued(queues, next)
      modifies `queues, `time, `merged
      ensures merged == old(merged) + multiset{next}
      ensures Valid() <==> !old(MovesAcross(queues, time, req, next))
      ensures queues == old(MergeOutcome(queues, time, sector, now, req, next); AfterMerge(queues, time, req, next))
      ensures time == old(TimeAfterMerge(queues, time, req, next))
    {
      hide WellFormed, Complete, Balanced, Queued, IsQueued, AfterMerge, TimeAfterMerge, MovesAcross, TakesPlace,
           Home, Without;
      MergeConserves(queues, time, sector, now, req, next, arrived, dispatched, merged);
      merged := merged + multiset{next};
      Absorb(req, next);
    }

    /** Moves `req` if it has to be moved, then takes `next` off its list and tree. */
    method Absorb(req: Request, next: Request)
      requires Complete(queues) && req != next && IsQueued(queues, next)
      requires next in time && (IsQueued(queues, req) ==> req in time)
      requires TakesPlace(queues, time, req, next) ==>
                 var l, m := Home(queues, req), Home(queues, next);
                 next in (if l == m then Without(queues[l].items, req) else queues[m].items)
      modifies `queues, `time
      ensures queues == old(AfterMerge(queues, time, req, next))
      ensures time == old(TimeAfterMerge(queues, time, req, next))
    {
      hide Without, Behind, Shrunk;
      var l, m := Home(queues, req), Home(queues, next);
      var takes := req in queues[l].items && time[next] < time[req];
      assert takes <==> TakesPlace(queues, time, req, next);
      hide Without, Behind, Shrunk, PlaceGiven, TakesPlace, IsQueued, Home, Complete;
      if takes {
        queues := PlaceGiven(queues, l, m, req, next);
        time := time[req := time[next]];
      }
      queues := queues[m := Shrunk(queues[m], next)];
    }

    /** A bio was merged into a queued request; in front of it, it moves the request to its new first sector. */
    method RequestMerged(req: Request, front: bool, at: int)
      requires Valid() && (front ==> req in queues[FifoFor(req)].items)
      modifies `queues, `sector
      ensures Valid() && sector == if front then old(sector)[req := at] else old(sector)
      ensures queues.Keys == old(queues).Keys && forall l :: l in queues ==> queues[l].items == old(queues)[l].items
    {
      hide WellFormed, Queued, Balanced, Inserted, Without;
      if front {
        var l := FifoFor(req);
        Repositioning(queues, time, sector, now, l, req, at);
        sector := sector[req := at];
        queues := queues[l := Queue(queues[l].items, Inserted(Without(queues[l].tree, req), req, sector))];
      }
    }

    /** The request one priority would dispatch. */
    method Choose(prio: Prio) returns (r: Option<Request>)
      requires Valid()
      ensures r.None? <==> Idle(queues, prio)
      ensures r.Some? ==> IsNext(queues, time, prio, r.value)
    {
      var head := queues[HeadOf(prio)].items;
      var readers, writers := queues[FifoOf(prio, false)].items, queues[FifoOf(prio, true)].items;
      r := None;
      if head != [] {
        r := Some(head[0]);
        HeadIsNext(queues, time, sector, now, prio);
      } else {
        OldestFirst(queues, time, sector, now, prio);
        if readers == [] && writers != [] {
          r := Some(writers[0]);
        } else if readers != [] && writers == [] {
          r := Some(readers[0]);
        } else if readers != [] {
          r := Some(if time[readers[0]] < time[writers[0]] then readers[0] else writers[0]);
        }
        if r.Some? {
          OldestIsNext(queues, time, sector, now, prio, r.value.write);
        }
      }
    }

    /** Dispatches from one priority. */
    method DispatchFifo(prio: Prio) returns (r: Option<Request>)
      requires Valid()
      modifies `queues, `dispatched
      ensures Valid()
      ensures r.None? <==> old(Idle(queues, prio))
      ensures r.None? ==> queues == old(queues) && dispatched == old(dispatched)
      ensures r.Some? ==> old(IsNext(queues, time, prio, r.value))
                          && !IsQueued(queues, r.value) && dispatched == old(dispatched) + multiset{r.value}
                          && Queued(old(queues)) == Queued(queues) + multiset{r.value}
                          && TakenFirst(old(queues), queues, r.value)
    {
      hide WellFormed, Queued, Shrunk, Balanced, Idle, IsQueued, Home, TakenFirst;
      AllLists(queues, time, sector, now);
      r := Choose(prio);
      if r.Some? {
        NextIsTaken(queues, time, sector, now, prio, r.value);
        ghost var before := Queued(queues);
        Remove(r.value);
        BalanceMoves(arrived, before, dispatched, merged, Queued(queues), multiset{r.value});
        dispatched := dispatched + multiset{r.value};
      }
    }

    /**
     One pass of the dispatcher. The gate is asked at most twice, once for each of the two
     lower priorities; a lower priority runs only when all higher ones are empty or held back.
     */
    method DispatchRequest(allowedRt: bool, allowedBe: bool) returns (r: Option<Request>)
      requires Valid()
      modifies `queues, `dispatched
      ensures Valid()
      ensures r.Some? <==> old(Finds(queues, allowedRt, allowedBe))
      ensures r.None? ==> queues == old(queues) && dispatched == old(dispatched)
      ensures r.Some? ==> old(IsNext(queues, time, r.value.prio, r.value))
                          && !IsQueued(queues, r.value) && dispatched == old(dispatched) + multiset{r.value}
                          && TakenFirst(old(queues), queues, r.value)
      ensures r.Some? && r.value.prio != Hp ==> old(Idle(queues, Hp))
      ensures r.Some? && r.value.prio == Rt ==> allowedRt
      ensures r.Some? && r.value.prio == Be ==> allowedBe && (allowedRt ==> old(Idle(queues, Rt)))
    {
      hide WellFormed, Balanced, Queued, IsQueued, Idle, TakenFirst;
      AllLists(queues, time, sector, now);
      r := DispatchFifo(Hp);
      if r.None? && allowedRt {
        r := DispatchFifo(Rt);
      }
      if r.None? && allowedBe {
        r := DispatchFifo(Be);
      }
    }

    method HasWorkForPrio(prio: Prio) returns (work: bool)
      requires Valid()
      ensures work <==> !Idle(queues, prio)
    {
      work := queues[HeadOf(prio)].items != [] || queues[FifoOf(prio, false)].items != []
          || queues[FifoOf(prio, true)].items != [];
    }

    /**
     With no model submission due, work is announced exactly when a pass under the same
     answer of the gate would dispatch; without throttling the gate is always open.
     */
    method HasWork(enabled: bool, modelDue: bool, allowed: bool) returns (work: bool)
      requires Valid() && (!enabled ==> allowed)
      ensures enabled && modelDue ==> work
      ensures !(enabled && modelDue) ==> (work <==> Finds(queues, allowed, allowed))
    {
      var hp := HasWorkForPrio(Hp);
      var rt := HasWorkForPrio(Rt);
      var be := HasWorkForPrio(Be);
      if !enabled {
        return hp || rt || be;
      }
      if modelDue || hp {
        return true;
      }
      if !rt && !be {
        return false;
      }
      return allowed;
    }
  }
}
