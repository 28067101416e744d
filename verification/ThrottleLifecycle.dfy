/**
 The throttle together with what the dispatcher does to requests: they arrive in its lists, leave
 them by a merge or a dispatch, are issued, and come back to be done or to arrive again.
 */
module ThrottleLifecycle {
  import opened ThrottleSpec
  import opened ThrottleRuns
  import opened ThrottleDepth
  import opened ThrottleCounts

  /**
   `queued` requests are in the dispatcher's lists, `started` ones have been dispatched or issued and
   have not come back; of both, the `missed` ones have met an exhausted pool.
   */
  datatype World = World(s: State, queued: set<Request>, started: set<Request>, missed: set<Request>)

  function Beginning(capacity: nat): World {
    World(Initial(capacity), {}, {}, {})
  }

  /** An arrival that finds neither a record of its own nor a free one. */
  predicate Exhausts(s: State, step: Step) {
    step.event.Classifies? && !Known(s, step.event.r) && |s.reqs| == s.capacity
  }

  /** A first meeting with a request while the pool is exhausted. */
  predicate MeetsExhaustion(s: State, step: Step) {
    Exhausts(s, step) || (step.event.Issues? && step.event.r !in s.reqs && |s.reqs| == s.capacity)
  }

  /**
   The order of events that the dispatcher and the block layer keep: only what is not queued or
   started arrives; only what is queued is dispatched or, merged into another request, leaves the
   lists; of the requests that pass through the dispatcher only started ones are handed back or
   completed; and a request is neither issued nor finished while it is queued. The driver may issue
   one that it has handed back again without a new arrival, and one that has bypassed the lists.
   */
  predicate InOrder(w: World, step: Step) {
    && Proper(w.s, step)
    && match step.event
       case Classifies(r, _, _) => r !in w.queued && r !in w.started
       case Unqueues(r) => r in w.queued
       case Dispatches(r, _) => r in w.queued
       case Issues(r, _, _) => r !in w.queued
       case Requeues(r) => r.useSched ==> r in w.started
       case Completes(r, _) => r.useSched ==> r in w.started
       case Finishes(r) => r !in w.queued
       case _ => true
  }

  ghost function After(w: World, step: Step): World {
    var s := Next(w.s, step).s;
    match step.event
    case Classifies(r, _, _) =>
      World(s, w.queued + {r}, w.started, if Exhausts(w.s, step) then w.missed + {r} else w.missed)
    case Unqueues(r) => World(s, w.queued - {r}, w.started, w.missed - {r})
    case Dispatches(r, _) => World(s, w.queued - {r}, w.started + {r}, w.missed)
    case Issues(r, _, _) =>
      if !r.useSched then w.(s := s)
      else World(s, w.queued, w.started + {r}, if MeetsExhaustion(w.s, step) then w.missed + {r} else w.missed)
    case Requeues(r) => World(s, w.queued, w.started - {r}, w.missed - {r})
    case Completes(r, final) =>
      if final then World(s, w.queued, w.started - {r}, w.missed - {r}) else w.(s := s)
    case Finishes(r) => World(s, w.queued, w.started - {r}, w.missed - {r})
    case _ => w.(s := s)
  }

  /** What the record of a request says, given where the request is. */
  ghost predicate Fits(r: Request, reqs: Requests, queued: bool, started: bool, missed: bool) {
    && !(queued && started) && (missed ==> queued || started)
    && (queued ==> r.useSched && (missed <==> r !in reqs))
    && (started ==> r.useSched && (r !in reqs ==> missed))
    && (r in reqs ==>
          if r.useSched then (reqs[r].reserved <==> started) && (reqs[r].queued <==> queued)
          else reqs[r].queueClass == Hp && !reqs[r].queued)
  }

  ghost predicate LifeOk(w: World) {
    forall r :: Fits(r, w.s.reqs, r in w.queued, r in w.started, r in w.missed)
  }

  // ---- What the regions do to the records ----

  /** Only the record of `r` comes, goes or changes. */
  ghost predicate OnlyAt(before: Requests, after: Requests, r: Request) {
    forall x :: x != r ==> (x in before <==> x in after) && (x in before ==> after[x] == before[x])
  }

  lemma CompletedIsGone(s: State, r: Request, env: Env)
    requires Inv(s) && env.now > 0
    ensures Complete(s, r, true, env).s.reqs == s.reqs - {r}
  {
    if r in s.reqs {
      hide Inv, Retired, Judged, SlowVerdict, Triggers, SnapshotOf;
      RetiredKeeps(s, r, env);
    }
  }

  lemma HandedBack(s: State, r: Request)
    ensures r in s.reqs ==> Requeue(s, r).s.reqs.Keys == s.reqs.Keys && !Requeue(s, r).s.reqs[r].reserved
    ensures r in s.reqs ==> Requeue(s, r).s.reqs[r].queueClass == s.reqs[r].queueClass
                            && Requeue(s, r).s.reqs[r].queued == s.reqs[r].queued
    ensures r !in s.reqs ==> Requeue(s, r).s == s
    ensures OnlyAt(s.reqs, Requeue(s, r).s.reqs, r)
    ensures Finish(s, r).s.reqs == if Known(s, r) then s.reqs - {r} else s.reqs
  {
    if r in s.reqs {
      ReleaseFrame(Unbound(s, r), r);
    }
    hide Release;
  }

  lemma OthersStand(s: State, step: Step)
    requires !AboutRequest(step.event)
    ensures var after := Next(s, step).s.reqs;
            after.Keys == s.reqs.Keys
            && forall x :: x in s.reqs ==> SameStanding(s.reqs[x], after[x])
  {
    if !step.event.Resets? {
      RecordsStand(s, step);
      hide Next;
    }
  }

  predicate SameStanding(m: Meta, n: Meta) {
    n.reserved == m.reserved && n.queueClass == m.queueClass && n.queued == m.queued
  }

  lemma RecordsStand(s: State, step: Step)
    requires !AboutRequest(step.event) && !step.event.Resets?
    ensures Next(s, step).s.reqs == s.reqs
  {
    hide SnapshotOf, Allowed, Count, Ratio, Target, ModelDue, Current;
  }

  // ---- Every step keeps it ----

  /** Nothing changes for the other requests. */
  lemma FitsElsewhere(w: World, next: World, r: Request)
    requires LifeOk(w) && OnlyAt(w.s.reqs, next.s.reqs, r)
    requires w.queued - {r} == next.queued - {r} && w.started - {r} == next.started - {r}
    requires w.missed - {r} == next.missed - {r}
    requires Fits(r, next.s.reqs, r in next.queued, r in next.started, r in next.missed)
    ensures LifeOk(next)
  {
    forall x | x != r
      ensures Fits(x, next.s.reqs, x in next.queued, x in next.started, x in next.missed)
    {
      assert Fits(x, w.s.reqs, x in w.queued, x in w.started, x in w.missed);
      assert x in w.queued <==> x in w.queued - {r};
      assert x in next.queued <==> x in next.queued - {r};
      assert x in w.started <==> x in w.started - {r};
      assert x in next.started <==> x in next.started - {r};
      assert x in w.missed <==> x in w.missed - {r};
      assert x in next.missed <==> x in next.missed - {r};
    }
  }

  lemma ArrivalKeeps(w: World, step: Step)
    requires LifeOk(w) && InOrder(w, step) && step.event.Classifies?
    ensures LifeOk(After(w, step))
  {
    var r := step.event.r;
    assert Fits(r, w.s.reqs, r in w.queued, r in w.started, r in w.missed);
    hide LifeOk;
    FitsElsewhere(w, After(w, step), r);
  }

  lemma LeavingKeeps(w: World, step: Step)
    requires LifeOk(w) && InOrder(w, step) && (step.event.Unqueues? || step.event.Updates?)
    ensures LifeOk(After(w, step))
  {
    var r := step.event.r;
    assert Fits(r, w.s.reqs, r in w.queued, r in w.started, r in w.missed);
    hide LifeOk;
    FitsElsewhere(w, After(w, step), r);
  }

  lemma DispatchingKeeps(w: World, step: Step)
    requires LifeOk(w) && InOrder(w, step) && step.event.Dispatches?
    ensures LifeOk(After(w, step))
  {
    var r := step.event.r;
    assert Fits(r, w.s.reqs, r in w.queued, r in w.started, r in w.missed);
    if Known(w.s, r) {
      DispatchFrame(w.s, r, step.event.excluded, step.env);
    }
    hide LifeOk, Dispatch, Noted;
    assert OnlyAt(w.s.reqs, After(w, step).s.reqs, r) by {
      DispatchedOnly(w.s, r, step.event.excluded, step.env);
    }
    DispatchedReserved(w.s, r, step.event.excluded, step.env);
    FitsElsewhere(w, After(w, step), r);
  }

  lemma DispatchedOnly(s: State, r: Request, excluded: bool, env: Env)
    ensures OnlyAt(s.reqs, Dispatch(s, r, excluded, env).s.reqs, r)
    ensures r in Dispatch(s, r, excluded, env).s.reqs <==> r in s.reqs
  {
    if Known(s, r) {
      DispatchFrame(s, r, excluded, env);
      hide Dispatch, Noted;
    }
  }

  lemma DispatchedReserved(s: State, r: Request, excluded: bool, env: Env)
    ensures Known(s, r) ==>
              Dispatch(s, r, excluded, env).s.reqs[r].reserved
              && Dispatch(s, r, excluded, env).s.reqs[r].queueClass == s.reqs[r].queueClass
              && !Dispatch(s, r, excluded, env).s.reqs[r].queued
    ensures !Known(s, r) ==> Dispatch(s, r, excluded, env).s.reqs == s.reqs
  {
    if Known(s, r) {
      DispatchFrame(s, r, excluded, env);
      hide Dispatch;
    }
  }

  lemma IssuingKeeps(w: World, step: Step)
    requires LifeOk(w) && InOrder(w, step) && step.event.Issues?
    ensures LifeOk(After(w, step))
  {
    var r := step.event.r;
    assert Fits(r, w.s.reqs, r in w.queued, r in w.started, r in w.missed);
    hide LifeOk;
    FitsElsewhere(w, After(w, step), r);
  }

  lemma FinishingKeeps(w: World, step: Step)
    requires LifeOk(w) && InOrder(w, step) && step.event.Finishes?
    ensures LifeOk(After(w, step))
  {
    var r := step.event.r;
    assert Fits(r, w.s.reqs, r in w.queued, r in w.started, r in w.missed);
    HandedBack(w.s, r);
    hide LifeOk, Finish;
    FitsElsewhere(w, After(w, step), r);
  }

  lemma RequeueingKeeps(w: World, step: Step)
    requires LifeOk(w) && InOrder(w, step) && step.event.Requeues?
    ensures LifeOk(After(w, step))
  {
    var r := step.event.r;
    assert Fits(r, w.s.reqs, r in w.queued, r in w.started, r in w.missed);
    HandedBack(w.s, r);
    hide LifeOk, Requeue;
    FitsElsewhere(w, After(w, step), r);
  }

  lemma CompletingKeeps(w: World, step: Step)
    requires LifeOk(w) && Inv(w.s) && InOrder(w, step) && step.event.Completes?
    ensures LifeOk(After(w, step))
  {
    var r := step.event.r;
    assert Fits(r, w.s.reqs, r in w.queued, r in w.started, r in w.missed);
    CompletedIsGone(w.s, r, step.env);
    hide LifeOk, Inv;
    if step.event.final {
      hide Complete;
      FitsElsewhere(w, After(w, step), r);
    } else {
      assert After(w, step) == w;
    }
  }

  /** Every event in order keeps the records in step with where the requests are. */
  lemma LifeKeeps(w: World, step: Step)
    requires LifeOk(w) && Inv(w.s) && InOrder(w, step)
    ensures LifeOk(After(w, step))
  {
    var e := step.event;
    hide Inv;
    if e.Classifies? {
      ArrivalKeeps(w, step);
    } else if e.Unqueues? || e.Updates? {
      LeavingKeeps(w, step);
    } else if e.Dispatches? {
      DispatchingKeeps(w, step);
    } else if e.Issues? {
      IssuingKeeps(w, step);
    } else if e.Finishes? {
      FinishingKeeps(w, step);
    } else if e.Requeues? {
      RequeueingKeeps(w, step);
    } else if e.Completes? {
      CompletingKeeps(w, step);
    } else {
      OthersStand(w.s, step);
      hide Next, Inv;
      assert forall x :: Fits(x, w.s.reqs, x in w.queued, x in w.started, x in w.missed);
    }
  }

  // ---- Whole runs ----

  ghost predicate IsLife(w: World, steps: seq<Step>)
    decreases |steps|
  {
    steps == [] || (InOrder(w, steps[0]) && IsLife(After(w, steps[0]), steps[1..]))
  }

  ghost function Later(w: World, steps: seq<Step>): World
    decreases |steps|
  {
    if steps == [] then w else Later(After(w, steps[0]), steps[1..])
  }

  lemma {:induction false} LifeIsRun(w: World, steps: seq<Step>)
    requires LifeOk(w) && Inv(w.s) && IsLife(w, steps)
    ensures IsRun(w.s, steps) && Run(w.s, steps) == Later(w, steps).s
    ensures LifeOk(Later(w, steps)) && Inv(Later(w, steps).s)
    decreases |steps|
  {
    if steps != [] {
      LifeKeeps(w, steps[0]);
      StepKeeps(w.s, steps[0]);
      assert After(w, steps[0]).s == Next(w.s, steps[0]).s;
      hide Next, Inv, LifeOk, After;
      LifeIsRun(After(w, steps[0]), steps[1..]);
    }
  }

  /**
   In every life from the start: a request with a record of its own waits exactly while it is in the
   lists, and as many requests wait as are in the lists and were not missed.
   */
  lemma QueuedAreWaiting(capacity: nat, steps: seq<Step>)
    requires IsLife(Beginning(capacity), steps)
    ensures var w := Later(Beginning(capacity), steps);
            && (forall r: Request :: r.useSched && r in w.s.reqs ==> (w.s.reqs[r].queued <==> r in w.queued))
            && |set r | r in w.s.reqs && w.s.reqs[r].queued| == |w.queued - w.missed|
  {
    LifeIsRun(Beginning(capacity), steps);
    var w := Later(Beginning(capacity), steps);
    hide Later, IsLife, Inv;
    assert forall r :: Fits(r, w.s.reqs, r in w.queued, r in w.started, r in w.missed);
    assert (set r | r in w.s.reqs && w.s.reqs[r].queued) == w.queued - w.missed;
  }

  /** In every life from the start: a queued request has a record unless its arrival met an exhausted pool. */
  lemma QueuedHaveRecords(capacity: nat, steps: seq<Step>, r: Request)
    requires IsLife(Beginning(capacity), steps)
    ensures var w := Later(Beginning(capacity), steps);
            r in w.queued ==> (r in w.s.reqs <==> r !in w.missed) && (r in w.s.reqs ==> !w.s.reqs[r].reserved)
  {
    LifeIsRun(Beginning(capacity), steps);
    var w := Later(Beginning(capacity), steps);
    assert Fits(r, w.s.reqs, r in w.queued, r in w.started, r in w.missed);
  }

  /** A dispatch is an anomaly exactly for a request whose arrival was missed; there is no second dispatch. */
  lemma DispatchFindsRecord(w: World, step: Step)
    requires LifeOk(w) && InOrder(w, step) && step.event.Dispatches?
    ensures Mishap(w.s, step) <==> step.event.r in w.missed
    ensures Mishap(w.s, step) <==> !Known(w.s, step.event.r)
  {
    var r := step.event.r;
    assert Fits(r, w.s.reqs, r in w.queued, r in w.started, r in w.missed);
  }

  /**
   An issue starts a background request, without asking the gate, exactly if the request has a
   background record and is not started: the driver has handed it back, or it has left the lists by a
   merge, and the dispatcher has not started it since.
   */
  lemma RestartsAreNotStarted(w: World, step: Step)
    requires LifeOk(w) && Inv(w.s) && InOrder(w, step) && step.event.Issues?
    ensures var r := step.event.r;
            && (RestartsBackground(w.s, step) <==>
                  r in w.s.reqs && w.s.reqs[r].queueClass != Hp && r !in w.started)
            && BgDepth(After(w, step).s) == BgDepth(w.s) + if RestartsBackground(w.s, step) then 1 else 0
  {
    var r := step.event.r;
    assert Fits(r, w.s.reqs, r in w.queued, r in w.started, r in w.missed);
    hide LifeOk, Inv, Next, BgDepth;
    IssueRaisesDepth(w.s, step);
  }

  ghost function Exhaustions(w: World, steps: seq<Step>): nat
    decreases |steps|
  {
    if steps == [] then 0
    else (if MeetsExhaustion(w.s, steps[0]) then 1 else 0) + Exhaustions(After(w, steps[0]), steps[1..])
  }

  /** The missed requests that are still queued: each may cause one more anomaly. */
  function Missing(w: World): nat {
    |w.missed * w.queued|
  }

  lemma StepCosts(w: World, step: Step)
    requires LifeOk(w) && Inv(w.s) && InOrder(w, step)
    ensures var next := After(w, step);
            next.s.anomalies + Missing(next)
            <= w.s.anomalies + Missing(w) + if MeetsExhaustion(w.s, step) then 2 else 0
  {
    StepTallies(w.s, step);
    var next := After(w, step);
    if step.event.Dispatches? {
      DispatchFindsRecord(w, step);
    }
    assert w.missed <= w.queued + w.started by {
      assert forall r :: r in w.missed ==> Fits(r, w.s.reqs, r in w.queued, r in w.started, r in w.missed);
    }
    hide Next, Inv, LifeOk;
    MissingMoves(w, step);
  }

  /** Only an arrival that is missed adds to them, and the dispatch of one takes it away. */
  lemma MissingMoves(w: World, step: Step)
    requires InOrder(w, step) && w.missed <= w.queued + w.started
    ensures Missing(After(w, step)) <= Missing(w) + if Exhausts(w.s, step) then 1 else 0
    ensures step.event.Dispatches? && step.event.r in w.missed ==> Missing(After(w, step)) + 1 == Missing(w)
  {
    hide Next;
    var next, e := After(w, step), step.event;
    var before, after := w.missed * w.queued, next.missed * next.queued;
    if e.Classifies? {
      MissingAtArrival(w, step);
    } else if e.Dispatches? {
      assert after == before - {e.r};
    } else {
      assert after <= before;
      Subset(after, before);
    }
  }

  lemma MissingAtArrival(w: World, step: Step)
    requires InOrder(w, step) && w.missed <= w.queued + w.started && step.event.Classifies?
    ensures Missing(After(w, step)) == Missing(w) + if Exhausts(w.s, step) then 1 else 0
  {
    hide Next, Exhausts;
    var next, r := After(w, step), step.event.r;
    var before := w.missed * w.queued;
    assert r !in before;
    assert next.missed * next.queued == if Exhausts(w.s, step) then before + {r} else before;
  }

  /**
   Over every life from the start, the anomalies are at most twice the meetings with an exhausted
   pool: one for the meeting itself, and one for the dispatch of the request that was missed.
   Without an exhaustion there is no anomaly at all.
   */
  lemma {:induction false} AnomaliesNeedExhaustion(w: World, steps: seq<Step>)
    requires LifeOk(w) && Inv(w.s) && IsLife(w, steps)
    ensures Run(w.s, steps).anomalies <= w.s.anomalies + Missing(w) + 2 * Exhaustions(w, steps)
    decreases |steps|
  {
    if steps != [] {
      LifeKeeps(w, steps[0]);
      StepKeeps(w.s, steps[0]);
      StepCosts(w, steps[0]);
      assert After(w, steps[0]).s == Next(w.s, steps[0]).s;
      hide Next, Inv, LifeOk, After, Missing, MeetsExhaustion;
      AnomaliesNeedExhaustion(After(w, steps[0]), steps[1..]);
    }
  }

  lemma AnomaliesFromTheStart(capacity: nat, steps: seq<Step>)
    requires IsLife(Beginning(capacity), steps)
    ensures Run(Initial(capacity), steps).anomalies <= 2 * Exhaustions(Beginning(capacity), steps)
  {
    BeginningOk(capacity);
    AnomaliesNeedExhaustion(Beginning(capacity), steps);
  }

  lemma BeginningOk(capacity: nat)
    ensures LifeOk(Beginning(capacity)) && Inv(Beginning(capacity).s) && Missing(Beginning(capacity)) == 0
  {
  }
}
