/**
 The throttle context of one queue: the record pool, the five counters, the gate, the latency
 ring and the controller, changed in place. Every locked region is shown to do what the abstract
 machine does; the branches for a counter that would underflow or overflow are never reached.
 */
module ThrottleContext {
  import opened Options
  import opened ThrottleSpec
  import opened ThrottleRuns
  import opened ThrottleCounts
  import opened MetaPool
  import opened LatencyRing
  import opened ThrottleController
  import opened ThrottleTally

  class Context {
    const pool: Pool
    const ring: Ring
    const ctl: Controller
    var gateBlocked: bool
    var gateReason: Option<Gate>
    var current: nat
    var bg: nat
    var issued: nat
    var pendingFg: nat
    var pendingBg: nat
    var session: nat
    var control: nat
    var decision: nat
    var anomalies: nat
    var dying: bool

    /** The abstract state. */
    ghost function Abs(): State
      reads this, pool, ring, ctl
    {
      State(pool.slots.Length, pool.live, ctl.mode, gateReason, ring.window, session, control, decision, anomalies,
            dying)
    }

    ghost function Counts(): Counters
      reads this
    {
      Counters(current, bg, issued, pendingFg, pendingBg)
    }

    /** The parts agree: counters with flags, and the record that feedback waits for with its request. */
    ghost predicate Sound()
      reads this, pool, pool.slots, ring, ring.cells, ctl
    {
      && pool.Valid() && ring.Valid() && ctl.Valid()
      && pool.slots.Length <= U32_MAX
      && gateBlocked == gateReason.Some?
      && CountsOk(pool.live, Counts())
      && (ctl.feedbackMeta.Some? ==> ctl.waiting in pool.at && pool.at[ctl.waiting] == ctl.feedbackMeta.value)
    }

    ghost predicate Valid()
      reads this, pool, pool.slots, ring, ring.cells, ctl
    {
      Sound() && Inv(Abs())
    }

    constructor (capacity: nat, hash: nat -> nat)
      requires capacity <= U32_MAX
      ensures Valid() && Abs() == Initial(capacity)
      ensures fresh(pool) && fresh(pool.slots) && fresh(ring) && fresh(ring.cells) && fresh(ctl)
    {
      hide Pool.Valid, Ring.Valid, Controller.Valid;
      pool := new Pool(capacity, hash);
      ring := new Ring();
      ctl := new Controller();
      gateBlocked, gateReason := false, None;
      current, bg, issued, pendingFg, pendingBg := 0, 0, 0, 0, 0;
      session, control, decision, anomalies, dying := 0, 0, 0, 0, false;
    }

    /**
     The invariant on the fields themselves: the flags are in one of three combinations, feedback
     is awaited exactly while an action is in force, what it waits for is the record of a started
     request that was dispatched under that action, fewer than five votes are in, and free records
     and records in use make up the pool.
     */
    lemma FieldsAgree()
      requires Valid()
      ensures var flags := (ctl.throttleActive, ctl.inferencePending, ctl.actionValid);
              flags == (false, false, false) || flags == (true, true, false) || flags == (true, false, true)
      ensures ctl.feedbackState == FbNone <==> !ctl.actionValid
      ensures ctl.feedbackMeta.Some? <==> ctl.feedbackState == FbWaitIssue || ctl.feedbackState == FbWaitComplete
      ensures ctl.feedbackMeta.Some? ==>
                && ctl.feedbackMeta.value < pool.slots.Length && pool.slots[ctl.feedbackMeta.value].Used?
                && var m := pool.slots[ctl.feedbackMeta.value].meta;
                   m.reserved && m.decision == ctl.action.decision && (ctl.feedbackState == FbWaitComplete ==> m.issued)
      ensures ctl.voteCount < SAMPLES
      ensures |pool.free| + pool.inuse == pool.slots.Length && pool.inuse == |pool.live|
    {
      hide Inv, Chained;
      InvModes(Abs());
      AtIsLive();
      hide CountsOk, Ring.Valid;
    }

    static lemma InvModes(s: State)
      requires Inv(s)
      ensures s.mode.Controlled? ==>
                && s.mode.feedback != NoFeedback && |s.mode.votes| < SAMPLES
                && match s.mode.feedback
                   case WaitIssue(r) =>
                     r in s.reqs && s.reqs[r].reserved && s.reqs[r].decision == s.mode.action.decision
                   case WaitComplete(r) =>
                     && r in s.reqs && s.reqs[r].reserved && s.reqs[r].issued
                     && s.reqs[r].decision == s.mode.action.decision
                   case _ => true
    {
      assert forall r :: r in s.reqs ==> MetaOk(s.reqs[r], s.decision);
    }

    // ---- Locked helpers ----

    /** Gives up control. */
    method GiveUp() returns (wake: bool)
      requires Sound()
      modifies this`gateBlocked, this`gateReason, ring, ring.cells, ctl
      ensures Sound() && Abs() == Fallback(old(Abs())).s && wake == Fallback(old(Abs())).wake
    {
      hide Pool.Valid, Ring.Valid, Controller.Valid, CountsOk;
      wake := gateBlocked;
      ctl.Drop();
      ring.Reset();
      gateBlocked, gateReason := false, None;
    }

    method RaiseAnomaly() returns (wake: bool)
      requires Sound()
      modifies this`gateBlocked, this`gateReason, this`anomalies, ring, ring.cells, ctl
      ensures Sound() && Abs() == Anomaly(old(Abs())).s && wake == Anomaly(old(Abs())).wake
    {
      hide Pool.Valid, Ring.Valid, Controller.Valid, CountsOk;
      anomalies := anomalies + 1;
      wake := GiveUp();
    }

    method DepthCanRun() returns (can: bool)
      requires Sound()
      ensures can <==> CanRun(Abs())
    {
      if !ctl.throttleActive || !ctl.actionValid || ctl.action.choice.level == No {
        return true;
      }
      can := bg < ctl.action.target;
    }

    /** Slot `i` holds the record of `r`. */
    ghost predicate Holds(i: nat, r: Request)
      reads pool, pool.slots
    {
      && i < pool.slots.Length && r in pool.live && r in pool.at && pool.at[r] == i
      && pool.slots[i] == Used(r, pool.live[r])
    }

    /** Counts a request as waiting. */
    method PendingInc(i: nat, ghost r: Request, env: Env)
      requires Sound() && Holds(i, r)
      modifies this`pendingFg, this`pendingBg, pool, pool.slots
      ensures Sound() && Holds(i, r) && pool.at == old(pool.at)
      ensures Abs() == Put(old(Abs()), r, Enqueued(old(pool.live[r]), env))
      ensures pool.live[r].queued
    {
      hide Pool.Valid, Ring.Valid, Controller.Valid, CountsOk;
      var m := pool.slots[i].meta;
      if m.queued {
        assert pool.live[r := m] == pool.live;
        return;
      }
      var ts := if m.cls == Background && env.enabled then env.now else m.queuedTs;
      CountEnqueue(pool.live, Counts(), r, ts);
      LiveInPool();
      if m.cls == Foreground {
        if pendingFg == U32_MAX {
          assert false;
        }
        pendingFg := pendingFg + 1;
      } else {
        if pendingBg == U32_MAX {
          assert false;
        }
        pendingBg := pendingBg + 1;
      }
      pool.Set(i, m.(queued := true, queuedTs := ts));
      assert Abs() == Put(old(Abs()), r, m.(queued := true, queuedTs := ts));
    }


    lemma LiveInPool()
      requires pool.Valid()
      ensures |pool.live| <= pool.slots.Length
    {
      hide Count;
      LiveFits();
    }

    lemma LiveFits()
      requires pool.Valid()
      ensures |pool.live| <= pool.slots.Length && Located(pool.slots[..], pool.live, pool.at)
    {
    }

    method PendingDec(i: nat, ghost r: Request)
      requires Sound() && Holds(i, r)
      modifies this`pendingFg, this`pendingBg, pool, pool.slots
      ensures Sound() && Holds(i, r) && pool.at == old(pool.at)
      ensures Abs() == Put(old(Abs()), r, Dequeued(old(pool.live[r])))
      ensures !pool.live[r].queued
    {
      hide Pool.Valid, Ring.Valid, Controller.Valid, CountsOk;
      var m := pool.slots[i].meta;
      if !m.queued {
        assert pool.live[r := m] == pool.live;
        return;
      }
      CountDequeue(pool.live, Counts(), r);
      if m.cls == Foreground {
        if pendingFg == 0 {
          assert false;
        }
        pendingFg := pendingFg - 1;
      } else {
        if pendingBg == 0 {
          assert false;
        }
        pendingBg := pendingBg - 1;
      }
      pool.Set(i, m.(queued := false, queuedTs := 0));
    }

    /** Takes a record from the pool; an exhausted pool is an anomaly. */
    method Alloc(r: Request, q: QueueClass, io: Io) returns (taken: Option<nat>)
      requires Sound() && r !in pool.live
      modifies this`gateBlocked, this`gateReason, this`anomalies, ring, ring.cells, ctl, pool, pool.slots
      ensures Sound()
      ensures taken.None? <==> |old(pool.live)| == pool.slots.Length
      ensures taken.None? ==> Abs() == Anomaly(old(Abs())).s
      ensures taken.Some? ==> Holds(taken.value, r) && Abs() == Put(old(Abs()), r, Fresh(q, io))
    {
      hide Pool.Valid, Ring.Valid, Controller.Valid, CountsOk;
      ghost var live := pool.live;
      AtIsLive();
      taken := pool.Alloc(r, Fresh(q, io));
      CountersIgnore(live, Counts(), r, Fresh(q, io));
      if taken.None? {
        var wake := RaiseAnomaly();
      }
    }

    lemma AtIsLive()
      requires pool.Valid()
      ensures pool.at.Keys == pool.live.Keys
      ensures forall r :: r in pool.live ==> Holds(pool.at[r], r)
    {
    }

    /** The device no longer works on the request. */
    method ReleaseIssued(i: nat, ghost r: Request)
      requires Sound() && Holds(i, r)
      modifies this`issued, pool, pool.slots
      ensures Sound() && Holds(i, r) && pool.at == old(pool.at)
      ensures Abs() == Put(old(Abs()), r, old(pool.live[r]).(issued := false, indexed := false))
    {
      hide Pool.Valid, Ring.Valid, Controller.Valid, CountsOk;
      ghost var live := pool.live;
      var m := pool.slots[i].meta;
      CountReturn(live, Counts(), r);
      pool.Unindex(i);
      if m.issued {
        if issued == 0 {
          assert false;
        }
        issued := issued - 1;
      }
      pool.Set(i, m.(issued := false, indexed := false));
      assert pool.live == live[r := m.(issued := false, indexed := false)];
    }

    /** The request no longer counts as started; that may open the gate. */
    method ReleaseDepth(i: nat, ghost r: Request) returns (wake: bool)
      requires Sound() && Holds(i, r) && (pool.live[r].bgReserved ==> pool.live[r].reserved)
      modifies this`current, this`bg, this`gateBlocked, this`gateReason, pool, pool.slots
      ensures Sound() && Holds(i, r) && pool.at == old(pool.at)
      ensures var m := old(pool.live[r]);
              var after := Put(old(Abs()), r, m.(reserved := false, bgReserved := false));
              Outcome(Abs(), wake) == if m.reserved then GateOpened(after) else Outcome(after, false)
    {
      hide Pool.Valid, Ring.Valid, Controller.Valid, CountsOk, GateOpened;
      var m := pool.slots[i].meta;
      if !m.reserved {
        assert m.(reserved := false, bgReserved := false) == m && pool.live[r := m] == pool.live;
        return false;
      }
      CountStop(pool.live, Counts(), r);
      if current == 0 {
        assert false;
      }
      current := current - 1;
      if m.bgReserved {
        if bg == 0 {
          assert false;
        }
        bg := bg - 1;
      }
      pool.Set(i, m.(reserved := false, bgReserved := false));
      hide Put;
      wake := OpenGate();
    }

    method OpenGate() returns (wake: bool)
      requires Sound()
      modifies this`gateBlocked, this`gateReason
      ensures Sound() && Outcome(Abs(), wake) == GateOpened(old(Abs()))
    {
      hide Pool.Valid, Ring.Valid, CountsOk;
      var can := DepthCanRun();
      wake := gateBlocked && can;
      if wake {
        gateBlocked, gateReason := false, None;
      }
    }

    method Release(i: nat, ghost r: Request) returns (wake: bool)
      requires Sound() && Holds(i, r) && (pool.live[r].bgReserved ==> pool.live[r].reserved)
      modifies this`current, this`bg, this`issued, this`gateBlocked, this`gateReason, pool, pool.slots
      ensures Sound() && Holds(i, r) && pool.at == old(pool.at)
      ensures Outcome(Abs(), wake) == ThrottleSpec.Release(old(Abs()), r)
    {
      ghost var s, m := Abs(), pool.live[r];
      hide Sound, GateOpened;
      ReleaseIssued(i, r);
      wake := ReleaseDepth(i, r);
      PutTwice(s, r, m.(issued := false, indexed := false), Cleared(m));
      hide Put;
    }

    static lemma PutTwice(s: State, r: Request, a: Meta, b: Meta)
      ensures Put(Put(s, r, a), r, b) == Put(s, r, b)
    {
      assert s.reqs[r := a][r := b] == s.reqs[r := b];
    }

    /** Feedback stops waiting for the request in slot `i`, if it does. */
    method Unbind(i: nat, ghost r: Request)
      requires Sound() && Holds(i, r)
      modifies ctl
      ensures Sound() && Abs() == Unbound(old(Abs()), r) && ctl.feedbackMeta != Some(i)
    {
      hide Pool.Valid, Ring.Valid, CountsOk;
      if ctl.feedbackMeta != Some(i) {
        assert !Binds(ctl.mode, r);
        return;
      }
      assert ctl.waiting == r by {
        OwnersDiffer(ctl.waiting, r);
      }
      hide Sound;
      ctl.ClearBinding();
      if ctl.throttleActive && ctl.actionValid && !ctl.inferencePending {
        ctl.AwaitDispatch();
      }
    }

    lemma OwnersDiffer(r: Request, x: Request)
      requires pool.Valid() && r in pool.at && x in pool.at && pool.at[r] == pool.at[x]
      ensures r == x
    {
    }

    /** Gives the record back. */
    method Free(i: nat, ghost r: Request)
      requires Sound() && Holds(i, r) && ctl.feedbackMeta != Some(i)
      requires !pool.live[r].reserved && !pool.live[r].bgReserved && !pool.live[r].issued
      modifies this`pendingFg, this`pendingBg, pool, pool.slots
      ensures Sound() && Abs() == Forget(old(Abs()), r)
    {
      hide Pool.Valid, Ring.Valid, Controller.Valid, CountsOk;
      ghost var was := pool.live;
      PendingDec(i, r);
      ghost var live := pool.live;
      CountersIgnore(live, Counts(), r, live[r]);
      pool.Free(i);
      assert live - {r} == was - {r};
    }

    // ---- Snapshots and starting an inference ----

    /** The snapshot counts what the counters count, so its self-check cannot fail. */
    method TakeSnapshot(env: Env) returns (snapshot: Option<Snapshot>)
      requires Sound() && IndexIsIssued(pool.live)
      ensures snapshot == SnapshotOf(Abs(), env)
    {
      hide Whole, Ring.Valid, Controller.Valid, IndexIsIssued, Contiguous, Count;
      if env.queueMax == 0 {
        return None;
      }
      var ok, mean, span, slow, fg := ring.Measure(env.threshold);
      if !ok {
        return None;
      }
      var t := CountRecords(pool, env);
      WaitersAdd(pool.live);
      if t.issued != issued || t.waiting != pendingFg + pendingBg {
        assert false;
      }
      snapshot := Some(Snapshot(env.now, env.queueMax, env.threshold, issued, current, t.issuedFg, t.slow,
                                SAMPLES, mean, span, slow, fg,
                                t.waiting, t.waitingBg, t.waitingFg, t.high, t.contiguous));
    }

    method StartInference(newControl: bool, env: Env) returns (started: bool)
      requires Sound() && IndexIsIssued(pool.live)
      modifies this`control, this`decision, ctl
      ensures Sound() && started == Started(old(Abs()), newControl, env).Some?
      ensures Abs() == if started then Started(old(Abs()), newControl, env).value else old(Abs())
    {
      hide Pool.Valid, Ring.Valid, CountsOk, SnapshotOf, IndexIsIssued;
      if !env.enabled || dying || ctl.inferencePending {
        return false;
      }
      var snapshot := None;
      if env.config.source != Model {
        snapshot := TakeSnapshot(env);
        if snapshot.None? {
          return false;
        }
      }
      hide Controller.Valid;
      if newControl {
        control := control + 1;
      }
      decision := decision + 1;
      ctl.Start(Ids(session, control, decision), env.config, snapshot);
      started := true;
    }

    // ---- Requests ----

    method Classify(r: Request, q: QueueClass, io: Io, env: Env)
      requires Valid() && r.useSched
      modifies this, pool, pool.slots, ring, ring.cells, ctl
      ensures Valid() && Abs() == ThrottleSpec.Classify(old(Abs()), r, q, io, env).s
      ensures if old(r in pool.live) || old(|pool.live|) != pool.slots.Length then r in pool.live && pool.live[r].queued
              else Abs().mode == Idle && r !in pool.live
    {
      hide Inv, Sound, Put, Enqueued;
      ClassifyKeeps(Abs(), r, q, io, env);
      ghost var s := Abs();
      var found := Lookup(r);
      if found.None? {
        found := AllocQueued(r, q, io);
        if found.None? {
          return;
        }
        PutTwice(s, r, Fresh(q, io).(queueClass := q), Enqueued(Fresh(q, io).(queueClass := q), env));
      }
      PendingInc(found.value, r, env);
    }

    /** A record for a request that enters the scheduler; its queue is known. */
    method AllocQueued(r: Request, q: QueueClass, io: Io) returns (taken: Option<nat>)
      requires Sound() && r !in pool.live
      modifies this`gateBlocked, this`gateReason, this`anomalies, ring, ring.cells, ctl, pool, pool.slots
      ensures Sound()
      ensures taken.None? <==> |old(pool.live)| == pool.slots.Length
      ensures taken.None? ==> Abs() == Anomaly(old(Abs())).s
      ensures taken.Some? ==> Holds(taken.value, r) && Abs() == Put(old(Abs()), r, Fresh(q, io).(queueClass := q))
    {
      hide Sound, Put;
      ghost var s := Abs();
      taken := Alloc(r, q, io);
      if taken.Some? {
        var m := pool.slots[taken.value].meta.(queueClass := q);
        Rewrite(taken.value, r, m);
        PutTwice(s, r, Fresh(q, io), m);
      }
    }

    /** Changes what nothing counts and no table depends on. */
    method Rewrite(i: nat, ghost r: Request, m: Meta)
      requires Sound() && Holds(i, r)
      requires var was := pool.live[r];
               && m.reserved == was.reserved && m.bgReserved == was.bgReserved && m.issued == was.issued
               && m.indexed == was.indexed
               && m.queued == was.queued && m.cls == was.cls
               && (m.indexed ==> m.io.op == was.io.op && m.io.start == was.io.start && m.io.end == was.io.end)
      modifies pool`live, pool.slots
      ensures Sound() && Holds(i, r) && pool.at == old(pool.at)
      ensures Abs() == Put(old(Abs()), r, m)
    {
      hide Pool.Valid, Ring.Valid, Controller.Valid, CountsOk;
      CountersFollow(pool.live, Counts(), r, m, Counts());
      pool.Set(i, m);
    }

    method Update(r: Request, io: Io)
      requires Valid()
      modifies pool, pool.slots
      ensures Valid() && Abs() == ThrottleSpec.Update(old(Abs()), r, io).s
    {
      hide Inv, Sound, Put;
      UpdateKeeps(Abs(), r, io);
      InvFacts(Abs(), r);
      var found := Lookup(r);
      if found.Some? && !pool.slots[found.value].meta.issued {
        Rewrite(found.value, r, pool.slots[found.value].meta.(io := io));
      }
    }

    method Unqueue(r: Request)
      requires Valid()
      modifies this`pendingFg, this`pendingBg, pool, pool.slots
      ensures Valid() && Abs() == ThrottleSpec.Unqueue(old(Abs()), r).s
    {
      hide Inv, Sound, Put;
      UpdateKeeps(Abs(), r, Io(Read, 0, 0, false, false));
      var found := Lookup(r);
      if found.Some? {
        PendingDec(found.value, r);
      }
    }

    /** Counts a request as started. */
    method StartDepth(i: nat, ghost r: Request)
      requires Sound() && Holds(i, r) && !pool.live[r].reserved && !pool.live[r].bgReserved
      modifies this`current, this`bg, pool, pool.slots
      ensures Sound() && Holds(i, r) && pool.at == old(pool.at)
      ensures Abs() == Put(old(Abs()), r, WithDepth(old(pool.live[r])))
    {
      hide Pool.Valid, Ring.Valid, Controller.Valid, CountsOk;
      var m := pool.slots[i].meta;
      CountStart(pool.live, Counts(), r);
      LiveFits();
      if current == U32_MAX || (m.queueClass != Hp && bg == U32_MAX) {
        assert false;
      }
      current := current + 1;
      if m.queueClass != Hp {
        bg := bg + 1;
      }
      pool.Set(i, WithDepth(m));
    }

    /** Takes the request out of the waiters and notes which decision it is dispatched under. */
    method PrepareDispatch(i: nat, ghost r: Request, excluded: bool, env: Env)
      requires Sound() && Holds(i, r)
      modifies this`pendingFg, this`pendingBg, pool, pool.slots, ctl
      ensures Sound() && Holds(i, r) && pool.at == old(pool.at)
      ensures Abs() == Prepared(old(Abs()), r, excluded, env)
    {
      hide Sound, Put, Dequeued;
      ghost var s := Abs();
      var judged := InForce();
      var m := pool.slots[i].meta;
      var under := if env.enabled && judged then ctl.action.decision else 0;
      var noted := m.(io := m.io.(excluded := excluded), decision := under);
      Rewrite(i, r, noted);
      PendingDec(i, r);
      PutTwice(s, r, noted, Dequeued(noted));
      FirstAfterApply();
    }

    /** An action is in force. */
    method InForce() returns (yes: bool)
      requires Sound()
      ensures yes <==> ctl.mode.Controlled?
      ensures yes ==> ctl.action == ctl.mode.action
    {
      yes := ctl.throttleActive && ctl.actionValid && !ctl.inferencePending;
    }

    /** The first dispatch after the model's answer has been seen. */
    method FirstAfterApply()
      requires Sound()
      modifies ctl
      ensures Sound() && ctl.feedbackMeta == old(ctl.feedbackMeta)
      ensures var s := old(Abs());
              Abs() == s.(mode := if s.mode.Controlled? then s.mode.(postApply := false) else s.mode)
    {
      hide Pool.Valid, Ring.Valid, Controller.Valid, CountsOk;
      ctl.ClearPostApply();
    }

    /** The next dispatch under an action in force is the one to be judged by, unless its device time does not count. */
    method BindFeedback(i: nat, ghost r: Request, env: Env)
      requires Sound() && Holds(i, r) && (ctl.mode.Controlled? ==> |ctl.mode.votes| < SAMPLES)
      modifies ctl
      ensures Sound() && Abs() == Bound(old(Abs()), r, env)
    {
      hide Pool.Valid, Ring.Valid, CountsOk;
      if !pool.slots[i].meta.io.excluded && env.enabled && ctl.throttleActive && ctl.actionValid
         && !ctl.inferencePending
         && ctl.feedbackState == FbWaitDispatch && ctl.voteCount < SAMPLES {
        ctl.Bind(i, r);
      }
    }

    /** The dispatcher starts a request. */
    method AccountDispatch(r: Request, excluded: bool, env: Env) returns (wake: bool)
      requires Valid()
      modifies this, pool, pool.slots, ring, ring.cells, ctl
      ensures Valid() && Outcome(Abs(), wake) == Dispatch(old(Abs()), r, excluded, env)
    {
      hide Sound, Inv;
      ghost var s := Abs();
      DispatchKeeps(s, r, excluded, env);
      InvFacts(s, r);
      hide Prepared, Bound, Put;
      var found := Lookup(r);
      if found.None? {
        wake := RaiseAnomaly();
        return;
      }
      var i := found.value;
      PrepareDispatch(i, r, excluded, env);
      if pool.slots[i].meta.reserved {
        var gaveUp := RaiseAnomaly();
        wake := true;
      } else {
        StartDepth(i, r);
        BindFeedback(i, r, env);
        wake := false;
      }
    }

    /** The record a request points to. */
    method Lookup(r: Request) returns (found: Option<nat>)
      requires Sound()
      ensures found.Some? <==> Known(Abs(), r)
      ensures found.Some? ==> Holds(found.value, r)
    {
      AtIsLive();
      found := pool.Pointer(r);
    }

    /** The record of a request that the device driver handles. */
    method Search(r: Request) returns (found: Option<nat>)
      requires Sound()
      ensures found.Some? <==> r in pool.live
      ensures found.Some? ==> Holds(found.value, r)
    {
      AtIsLive();
      found := pool.Find(r);
    }

    static lemma InvFacts(s: State, r: Request)
      requires Inv(s)
      ensures r in s.reqs ==> MetaOk(s.reqs[r], s.decision)
      ensures s.mode.Controlled? ==> |s.mode.votes| < SAMPLES
      ensures FeedbackOf(s.mode) == WaitIssue(r) ==> r in s.reqs && s.reqs[r].decision == s.mode.action.decision
      ensures IndexIsIssued(s.reqs)
    {
      assert forall x :: x in s.reqs ==> MetaOk(s.reqs[x], s.decision);
    }

    method FinishRequest(r: Request) returns (wake: bool)
      requires Valid()
      modifies this, pool, pool.slots, ctl
      ensures Valid() && Outcome(Abs(), wake) == Finish(old(Abs()), r)
    {
      hide Sound, Inv, Put, Unbound;
      ghost var s := Abs();
      FinishKeeps(s, r);
      InvFacts(s, r);
      var found := Lookup(r);
      if found.None? {
        return false;
      }
      UnboundFrame(s, r);
      Unbind(found.value, r);
      ReleaseFrame(Abs(), r);
      hide ThrottleSpec.Release;
      wake := Release(found.value, r);
      Free(found.value, r);
    }

    static lemma UnboundFrame(s: State, r: Request)
      ensures Unbound(s, r).reqs == s.reqs
    {
    }

    /** The device driver hands a request back to be started again. */
    method RecordRequeue(r: Request) returns (wake: bool)
      requires Valid()
      modifies this, pool, pool.slots, ctl
      ensures Valid() && Outcome(Abs(), wake) == Requeue(old(Abs()), r)
    {
      hide Sound, Inv, Put, Unbound;
      ghost var s := Abs();
      RequeueKeeps(s, r);
      InvFacts(s, r);
      var found := Search(r);
      if found.None? {
        return false;
      }
      UnboundFrame(s, r);
      Unbind(found.value, r);
      ReleaseFrame(Abs(), r);
      hide ThrottleSpec.Release;
      wake := Release(found.value, r);
      var m := pool.slots[found.value].meta;
      Rewrite(found.value, r, m.(issueTs := 0, issueSession := 0, decision := 0, sampled := false));
    }

    // ---- Issue ----

    /** Counts a request as being worked on by the device. */
    method IssueDepth(i: nat, ghost r: Request)
      requires Sound() && Holds(i, r) && !pool.live[r].issued
      modifies this`issued, pool, pool.slots
      ensures Sound() && Holds(i, r) && pool.at == old(pool.at)
      ensures Abs() == Put(old(Abs()), r, old(pool.live[r]).(issued := true))
    {
      hide Pool.Valid, Ring.Valid, Controller.Valid, CountsOk;
      CountIssue(pool.live, Counts(), r);
      LiveFits();
      if issued == U32_MAX {
        assert false;
      }
      issued := issued + 1;
      pool.Set(i, pool.slots[i].meta.(issued := true));
    }

    method IndexRecord(i: nat, ghost r: Request, start: nat, end: nat)
      requires Sound() && Holds(i, r) && !pool.live[r].indexed
      modifies pool, pool.slots
      ensures Sound() && Holds(i, r) && pool.at == old(pool.at)
      ensures var m := old(pool.live[r]);
              Abs() == Put(old(Abs()), r, m.(indexed := true, io := m.io.(start := start, end := end)))
    {
      hide Pool.Valid, Ring.Valid, Controller.Valid, CountsOk;
      ghost var m := pool.live[r].(indexed := true, io := pool.live[r].io.(start := start, end := end));
      CountersFollow(pool.live, Counts(), r, m, Counts());
      pool.Index(i, start, end);
    }

    method PlaceRecord(i: nat, ghost r: Request, io: Io)
      requires Sound() && Holds(i, r) && MetaOk(pool.live[r], decision)
      requires pool.live[r].issued ==> io.op == pool.live[r].io.op
      modifies this`current, this`bg, this`issued, pool, pool.slots
      ensures Sound() && Holds(i, r)
      ensures Abs() == Put(old(Abs()), r, Placed(old(pool.live[r]), io))
    {
      hide Sound, Put;
      ghost var s := Abs();
      var m := pool.slots[i].meta;
      var n := m.(io := m.io.(excluded := io.excluded, op := io.op));
      Rewrite(i, r, n);
      if !m.reserved {
        StartDepth(i, r);
        PutTwice(s, r, n, WithDepth(n));
        n := WithDepth(n);
      }
      if !m.issued {
        IssueDepth(i, r);
        PutTwice(s, r, n, n.(issued := true));
        n := n.(issued := true);
      }
      if !m.indexed && (io.op.Read? || io.op.Write?) {
        IndexRecord(i, r, io.start, io.end);
        PutTwice(s, r, n, n.(indexed := true, io := n.io.(start := io.start, end := io.end)));
      }
    }

    method StampRecord(i: nat, ghost r: Request, env: Env)
      requires Sound() && Holds(i, r)
      modifies pool, pool.slots
      ensures Sound() && Holds(i, r)
      ensures Abs() == Put(old(Abs()), r, Stamped(old(pool.live[r]), env.now, if env.enabled then session else 0))
    {
      hide Sound;
      var m := pool.slots[i].meta;
      if m.issueTs != 0 {
        assert pool.live[r := m] == pool.live;
        return;
      }
      hide Put;
      Rewrite(i, r, m.(issueTs := env.now, sampled := false, issueSession := if env.enabled then session else 0));
    }

    /** Feedback that waits for the issue of this request sees it. */
    method NoteIssue(i: nat, ghost r: Request)
      requires Sound() && Holds(i, r) && pool.live[r].issueTs > 0
      requires FeedbackOf(ctl.mode) == WaitIssue(r) ==> pool.live[r].decision == ctl.mode.action.decision
      modifies ctl
      ensures Sound() && Abs() == FeedbackIssued(old(Abs()), r)
    {
      hide Pool.Valid, Ring.Valid, CountsOk;
      var m := pool.slots[i].meta;
      if ctl.feedbackMeta == Some(i) {
        OwnersDiffer(ctl.waiting, r);
      }
      if !m.io.excluded && ctl.feedbackMeta == Some(i) && ctl.feedbackState == FbWaitIssue
         && m.decision == ctl.action.decision {
        ctl.MarkIssued(m.issueTs);
      }
    }

    /** The device driver starts a request, perhaps one that has no record yet. */
    method RecordIssue(r: Request, q: QueueClass, io: Io, env: Env) returns (wake: bool)
      requires Valid() && env.now > 0 && (r in pool.live && pool.live[r].issued ==> io.op == pool.live[r].io.op)
      modifies this, pool, pool.slots, ring, ring.cells, ctl
      ensures Valid() && Outcome(Abs(), wake) == Issue(old(Abs()), r, q, io, env)
    {
      hide Sound, Inv, Put;
      ghost var s := Abs();
      IssueKeeps(s, r, q, io, env);
      InvFacts(s, r);
      ghost var m := if r in s.reqs then s.reqs[r] else Fresh(q, io);
      ghost var stamp := if env.enabled then s.session else 0;
      var found := Search(r);
      if found.None? {
        found := Alloc(r, q, io);
        if found.None? {
          return true;
        }
        PutTwice(s, r, m, Placed(m, io));
      }
      var i := found.value;
      PlaceRecord(i, r, io);
      StampRecord(i, r, env);
      PutTwice(s, r, Placed(m, io), Issued(m, io, env.now, stamp));
      NoteIssue(i, r);
      wake := false;
    }

    // ---- Completion ----

    /** Records the completion in the ring, and tells whether it completes a slow window while nothing is under way. */
    method SampleCompletion(i: nat, ghost r: Request, env: Env) returns (trigger: bool)
      requires Sound() && Holds(i, r)
      modifies ring, ring.cells
      ensures Sound() && Abs() == Sampled(old(Abs()), r, env) && trigger == Triggers(old(Abs()), r, env)
    {
      hide Pool.Valid, CountsOk, Pushed, SlowWindow;
      trigger := false;
      var m := pool.slots[i].meta;
      var latency := Latency(m, env.now);
      hide Latency;
      if latency.Some? && !m.sampled && !m.io.excluded && env.enabled && m.issueSession == session {
        ring.Push(Sample(env.now, latency.value, m.cls == Foreground));
        if !ctl.throttleActive && !ctl.inferencePending {
          trigger := ring.IsSlow(env.threshold);
        }
      }
    }

    /** Counts the completion as a vote if feedback waits for it; the fifth vote is the verdict. */
    method CountVote(i: nat, ghost r: Request, env: Env) returns (wake: bool, reinfer: bool)
      requires Sound() && Holds(i, r)
      modifies this`gateBlocked, this`gateReason, ring, ring.cells, ctl
      ensures Sound() && Outcome(Abs(), wake) == Counted(old(Abs()), r, env)
              && reinfer == SlowVerdict(old(Abs()), r, env)
      ensures ctl.feedbackMeta != Some(i)
    {
      hide Pool.Valid, Ring.Valid, CountsOk, Mean, Total;
      wake, reinfer := false, false;
      var m := pool.slots[i].meta;
      var latency := Latency(m, env.now);
      if ctl.feedbackMeta == Some(i) {
        OwnersDiffer(ctl.waiting, r);
      }
      if latency.Some? && !m.io.excluded && ctl.feedbackMeta == Some(i) && ctl.feedbackState == FbWaitComplete
         && ctl.feedbackIssueTs != 0 {
        assert Votes(Abs(), r, env.now);
        hide Latency;
        ghost var voted := WithVote(Abs(), r, env.now);
        ctl.AddVote(m.decision, latency.value);
        var mean := ctl.FeedbackMean();
        ctl.ClearBinding();
        if ctl.voteCount == SAMPLES {
          if mean < env.threshold {
            wake := GiveUp();
          } else {
            reinfer := true;
          }
        } else {
          ctl.AwaitDispatch();
        }
      } else {
        assert !Votes(Abs(), r, env.now);
        hide Sound;
        Unbind(i, r);
      }
    }

    /** The request is done: it leaves the device, the dispatcher's count and the pool. */
    method Retire(i: nat, ghost r: Request) returns (wake: bool)
      requires Sound() && Holds(i, r) && ctl.feedbackMeta != Some(i)
               && (pool.live[r].bgReserved ==> pool.live[r].reserved)
      modifies this`current, this`bg, this`issued, this`pendingFg, this`pendingBg, this`gateBlocked, this`gateReason,
               pool, pool.slots
      ensures Sound()
      ensures var released := ThrottleSpec.Release(old(Abs()), r);
              Abs() == Forget(released.s, r) && wake == released.wake
    {
      hide Sound, Put;
      ReleaseFrame(Abs(), r);
      hide ThrottleSpec.Release;
      wake := Release(i, r);
      Free(i, r);
    }

    /** The device has completed a request, or a part of it. */
    method RecordComplete(r: Request, final: bool, env: Env) returns (wake: bool)
      requires Valid() && env.now > 0
      modifies this, pool, pool.slots, ring, ring.cells, ctl
      ensures Valid() && Outcome(Abs(), wake) == Complete(old(Abs()), r, final, env)
    {
      hide Sound, Inv, Put, ThrottleSpec.Release, Counted, Sampled, SlowVerdict, Triggers, Started, Forget;
      ghost var s := Abs();
      CompleteKeeps(s, r, final, env);
      InvFacts(s, r);
      var found := Search(r);
      if found.None? || !final {
        return false;
      }
      SampledFrame(s, r, env);
      var trigger := SampleCompletion(found.value, r, env);
      CountedFrame(Abs(), r, env);
      var reinfer, released;
      wake, reinfer := CountVote(found.value, r, env);
      released := Retire(found.value, r);
      wake := wake || released;
      if reinfer || trigger {
        RetiredIndex(s, r, env);
        var started := StartInference(trigger, env);
        if !started && reinfer {
          var gaveUp := GiveUp();
          wake := wake || gaveUp;
        }
      }
    }

    static lemma SampledFrame(s: State, r: Request, env: Env)
      requires r in s.reqs
      ensures Sampled(s, r, env) == s.(window := Sampled(s, r, env).window)
      ensures SlowVerdict(Sampled(s, r, env), r, env) == SlowVerdict(s, r, env)
    {
    }

    static lemma CountedFrame(s: State, r: Request, env: Env)
      requires r in s.reqs
      ensures Counted(s, r, env).s.reqs == s.reqs
    {
    }

    static lemma RetiredIndex(s: State, r: Request, env: Env)
      requires Inv(s) && r in s.reqs && env.now > 0
      ensures IndexIsIssued(Retired(s, r, env).s.reqs)
    {
      RetiredKeeps(s, r, env);
    }

    // ---- Inference ----

    /** The worker reads the inference it works for; otherwise it rests. */
    method WorkerStart() returns (work: Option<(Ids, Config, Snapshot)>)
      requires Valid()
      modifies ctl
      ensures Valid() && Abs() == WorkerReads(old(Abs())).s
      ensures var found := WorkerRead(old(Abs()));
              work == if found.None? then None
                      else Some((found.value.ids, found.value.config, found.value.snapshot.value))
    {
      hide Inv, WorkerReads;
      WorkerKeeps(Abs(), Ids(0, 0, 0), Fixed, None, 0);
      work := ReadInference();
    }

    method ReadInference() returns (work: Option<(Ids, Config, Snapshot)>)
      requires Sound()
      modifies ctl
      ensures Sound() && Abs() == WorkerReads(old(Abs())).s
      ensures var found := WorkerRead(old(Abs()));
              work == if found.None? then None
                      else Some((found.value.ids, found.value.config, found.value.snapshot.value))
    {
      hide Pool.Valid, Ring.Valid, CountsOk;
      if !ctl.inferencePending || ctl.timedOut || dying || !ctl.pendingStateValid {
        ctl.SetRunning(false);
        return None;
      }
      work := Some((ctl.pendingIds, ctl.pendingConfig, ctl.pendingState));
    }

    /** The worker comes back with a choice, or with an error. */
    method WorkerEnd(ids: Ids, source: Source, choice: Option<Choice>, queueMax: nat) returns (wake: bool)
      requires Valid()
      modifies this`gateBlocked, this`gateReason, ring, ring.cells, ctl
      ensures Valid() && Outcome(Abs(), wake) == WorkerApply(old(Abs()), ids, source, choice, queueMax)
    {
      hide Pool.Valid, Ring.Valid, CountsOk, Inv, Target;
      ghost var s := Abs();
      WorkerKeeps(s, ids, source, choice, queueMax);
      wake := false;
      var current := ctl.inferencePending && !ctl.timedOut && ctl.pendingIds == ids;
      if choice.None? || queueMax == 0 {
        if current {
          wake := GiveUp();
        }
        return;
      }
      if !current || dying {
        ctl.SetRunning(false);
        return;
      }
      var level := choice.value.level;
      var ratio := Ratio(ctl.pendingConfig, level);
      if level != No && (ratio == 0 || ratio > 100) {
        wake := GiveUp();
        return;
      }
      var target := if level == No then 0 else Min(queueMax, (queueMax * ratio + 99) / 100);
      TargetPositive(level, ratio, queueMax);
      if level != No && target == 0 {
        assert false;
      }
      ctl.Apply(Action(choice.value, ratio, queueMax, target, ids.decision), source == Model);
      gateBlocked, gateReason := false, None;
      wake := true;
    }

    static function Min(a: nat, b: nat): nat {
      if b < a then b else a
    }

    static lemma TargetPositive(level: Level, ratio: nat, queueMax: nat)
      requires queueMax > 0 && (level == No || 0 < ratio <= 100)
      ensures Target(level, ratio, queueMax) == if level == No then 0 else Min(queueMax, (queueMax * ratio + 99) / 100)
      ensures level != No ==> Target(level, ratio, queueMax) > 0
    {
      if level != No {
        assert queueMax * ratio >= 1;
      }
    }

    /** The work item could not be queued. */
    method ScheduleFailed() returns (wake: bool)
      requires Valid()
      modifies this`gateBlocked, this`gateReason, ring, ring.cells, ctl
      ensures Valid() && Outcome(Abs(), wake) == ScheduleFail(old(Abs()))
    {
      hide Pool.Valid, Ring.Valid, CountsOk, Inv;
      InferenceKeeps(Abs(), Env(0, false, ctl.pendingConfig, 0, 0), false);
      wake := false;
      if ctl.inferencePending {
        wake := GiveUp();
      }
    }

    /** The model thread founds the inference on a snapshot before it works on it. */
    method ModelThreadRun(env: Env) returns (wake: bool)
      requires Valid()
      modifies this`gateBlocked, this`gateReason, ring, ring.cells, ctl
      ensures Valid() && Outcome(Abs(), wake) == ModelRun(old(Abs()), env)
    {
      hide Pool.Valid, Ring.Valid, CountsOk, Inv, SnapshotOf;
      InferenceKeeps(Abs(), env, false);
      InvFacts(Abs(), Request(0, false));
      wake := false;
      if !ctl.inferencePending || ctl.timedOut || dying || ctl.pendingConfig.source != Model {
        ctl.SetRunning(false);
        return;
      }
      var snapshot := TakeSnapshot(env);
      if snapshot.None? {
        wake := GiveUp();
      } else {
        ctl.SetSnapshot(snapshot.value);
      }
    }

    method ModelDispatchNeeded() returns (needed: bool)
      requires Sound()
      ensures needed <==> ModelDue(Abs())
    {
      hide Pool.Valid, Ring.Valid;
      needed := ctl.inferencePending && !ctl.running && ctl.pendingConfig.source == Model && pendingBg != 0;
    }

    /** Hands the inference to the model thread; a busy thread means giving up. */
    method DispatchModelIfNeeded(enabled: bool, free: bool) returns (submitted: bool, wake: bool)
      requires Valid()
      modifies this`gateBlocked, this`gateReason, ring, ring.cells, ctl
      ensures Valid() && Outcome(Abs(), wake) == DispatchModel(old(Abs()), enabled, free)
      ensures submitted <==> enabled && free && ModelDue(old(Abs()))
    {
      hide Pool.Valid, Ring.Valid, CountsOk, Inv, ModelDue;
      InferenceKeeps(Abs(), Env(0, enabled, ctl.pendingConfig, 0, 0), free);
      submitted, wake := false, false;
      if !enabled {
        return;
      }
      var needed := ModelDispatchNeeded();
      if needed {
        assert ctl.mode.Pending? by {
          DueIsPending(Abs());
        }
        ctl.SetRunning(true);
        if free {
          submitted := true;
        } else {
          wake := GiveUp();
        }
      }
    }

    static lemma DueIsPending(s: State)
      requires ModelDue(s)
      ensures s.mode.Pending?
    {
    }

    method InferenceTimer()
      requires Valid()
      modifies ctl
      ensures Valid() && Abs() == Timer(old(Abs())).s
    {
      hide Pool.Valid, Ring.Valid, CountsOk, Inv;
      TimeKeeps(Abs(), false, false);
      if ctl.inferencePending && !dying {
        ctl.SetTimedOut();
      }
    }

    /** The queues are run after a timeout only when the session that timed out is not 0. */
    method RunTimeout() returns (wake: bool)
      requires Valid()
      modifies this`gateBlocked, this`gateReason, ring, ring.cells, ctl
      ensures Valid() && Outcome(Abs(), wake) == TimeoutWork(old(Abs()))
    {
      hide Pool.Valid, Ring.Valid, CountsOk, Inv;
      TimeKeeps(Abs(), false, false);
      wake := false;
      var timedOutSession := 0;
      if ctl.inferencePending && ctl.timedOut {
        timedOutSession := ctl.pendingIds.session;
        wake := GiveUp();
      }
      if timedOutSession == 0 {
        wake := false;
      }
    }

    // ---- The gate, switching, and exit ----

    /** Whether a background request may be started now. */
    method NonHpAllowed(enabled: bool, demo: bool) returns (allowed: bool)
      requires Valid()
      modifies this`gateBlocked, this`gateReason
      ensures Valid() && Abs() == GateQuery(old(Abs()), enabled, demo).s
              && allowed == Allowed(old(Abs()), enabled, demo)
    {
      hide Pool.Valid, Ring.Valid, CountsOk, Inv, CanRun;
      TimeKeeps(Abs(), enabled, demo);
      if !enabled {
        return true;
      }
      allowed := true;
      var reason := None;
      if !demo && ctl.inferencePending {
        allowed, reason := false, Some(Inference);
      } else {
        var can := DepthCanRun();
        if !demo && !can {
          allowed, reason := false, Some(Depth);
        }
      }
      if !allowed && (!gateBlocked || gateReason != reason) {
        gateBlocked, gateReason := true, reason;
      }
    }

    static lemma RestampStep(was: Requests, live: Requests, seen: set<Request>, r: Request, newSession: bool, now: nat)
      requires HalfRestamped(was, live, seen, newSession, now) && r in live && r !in seen
      ensures r in was && live[r] == was[r]
      ensures HalfRestamped(was, live[r := Restamped(was[r], newSession, now)], seen + {r}, newSession, now)
    {
    }

    /** The requests seen so far have new queueing times. */
    static ghost predicate HalfRestamped(was: Requests, live: Requests, seen: set<Request>, newSession: bool,
                                         now: nat) {
      && live.Keys == was.Keys
      && forall r :: r in was ==> live[r] == if r in seen then Restamped(was[r], newSession, now) else was[r]
    }

    /** Walks the table of live records and restarts the queueing times. */
    method RestampAll(newSession: bool, now: nat)
      requires Sound()
      modifies pool`live, pool.slots
      ensures Sound()
      ensures Abs() == old(Abs()).(reqs := map r | r in old(pool.live) :: Restamped(old(pool.live)[r], newSession, now))
    {
      hide Sound, Walked, HalfRestamped, Located, Chained;
      ghost var was, at, seen := pool.live, pool.at, {};
      ghost var s := Abs();
      WalkBegin(at, pool.hash);
      assert HalfRestamped(was, was, {}, newSession, now) by {
        BeginRestamp(was, newSession, now);
      }
      for b := 0 to BUCKETS
        invariant Sound() && Abs() == s.(reqs := pool.live)
        invariant Walked(seen, at, pool.hash, b, []) && HalfRestamped(was, pool.live, seen, newSession, now)
      {
        Parts();
        var chain := pool.active[b];
        assert chain[..0] == [];
        for k := 0 to |chain|
          invariant Sound() && Abs() == s.(reqs := pool.live)
          invariant Walked(seen, at, pool.hash, b, chain[..k]) && HalfRestamped(was, pool.live, seen, newSession, now)
        {
          Parts();
          WalkStep(seen, pool.slots[..], pool.active, pool.live, at, pool.hash, b, k);
          ghost var r := pool.slots[chain[k]].rq;
          var m := pool.slots[chain[k]].meta;
          RestampStep(was, pool.live, seen, r, newSession, now);
          var stamped := m.(queuedTs := if newSession && m.queued && m.cls == Background then now else 0);
          Rewrite(chain[k], r, stamped);
          seen := seen + {r};
        }
        assert chain[..|chain|] == chain;
        Parts();
        WalkNext(seen, pool.slots[..], pool.active, pool.live, at, pool.hash, b);
      }
      WalkEnd(seen, at, pool.hash);
      Parts();
      EndRestamp(was, pool.live, seen, newSession, now);
    }

    lemma Parts()
      requires Sound()
      ensures Located(pool.slots[..], pool.live, pool.at) && Chained(Active, pool.active, pool.slots[..], pool.hash)
      ensures |pool.active| == BUCKETS && pool.at.Keys == pool.live.Keys
    {
    }

    static lemma BeginRestamp(was: Requests, newSession: bool, now: nat)
      ensures HalfRestamped(was, was, {}, newSession, now)
    {
    }

    static lemma EndRestamp(was: Requests, live: Requests, seen: set<Request>, newSession: bool, now: nat)
      requires HalfRestamped(was, live, seen, newSession, now) && live.Keys <= seen
      ensures live == map r | r in was :: Restamped(was[r], newSession, now)
    {
    }

    /** Throttling is switched on, with a new session, or off. The queues are run afterwards in any case. */
    method ResetContext(newSession: bool, now: nat)
      requires Valid()
      modifies this, pool, pool.slots, ring, ring.cells, ctl
      ensures Valid() && Abs() == Reset(old(Abs()), newSession, now).s
    {
      hide Sound, Inv;
      ghost var s := Abs();
      ResetKeeps(s, newSession, now);
      OpenSession(newSession);
      var wake := GiveUp();
      RestampAll(newSession, now);
    }

    method OpenSession(newSession: bool)
      requires Sound()
      modifies this`session
      ensures Sound() && Abs() == old(Abs()).(session := if newSession then old(session) + 1 else old(session))
    {
      hide Pool.Valid, Ring.Valid, Controller.Valid, CountsOk;
      if newSession {
        session := session + 1;
      }
    }

    /** The queue is on its way out. */
    method BeginExit()
      requires Valid()
      modifies this`dying
      ensures Valid() && Abs() == Exit(old(Abs())).s
    {
      hide Pool.Valid, Ring.Valid, Controller.Valid, CountsOk;
      dying := true;
    }
  }
}
