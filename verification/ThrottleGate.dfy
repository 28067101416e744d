/** A closed gate always has a reason that still stands, so whoever was turned away is woken when that ends. */
module ThrottleGate {
  import opened Options
  import opened ThrottleSpec
  import opened ThrottleRuns
  import opened ThrottleCounts
  import opened ThrottleDepth
  import opened ThrottleWaking

  /**
   The gate is closed only while an inference is pending, or, for the sake of depth, while an action
   is in force that still leaves no room; it is open while nothing is under control.
   */
  ghost predicate GateOk(s: State) {
    s.gate.Some? ==> s.mode.Pending? || (s.mode.Controlled? && s.gate == Some(Depth) && !CanRun(s))
  }

  /** As much background depth under the same action. */
  lemma StillFull(s: State, next: State)
    requires GateOk(s) && next.gate == s.gate && BgDepth(next) >= BgDepth(s)
    requires next.mode.Controlled? ==> s.mode.Controlled? && next.mode.action == s.mode.action
    requires next.mode.Idle? ==> s.mode.Idle?
    ensures GateOk(next)
  {
  }

  lemma QueueingKeepsGate(s: State, r: Request, q: QueueClass, io: Io, env: Env)
    requires GateOk(s) && r.useSched
    ensures GateOk(Classify(s, r, q, io, env).s) && GateOk(Update(s, r, io).s) && GateOk(Unqueue(s, r).s)
  {
    QueueingKeepsDepth(s, r, q, io, env);
    hide Count, Known, Enqueued, Dequeued;
  }

  lemma UpdateKeepsGate(s: State, r: Request, io: Io)
    requires GateOk(s)
    ensures GateOk(Update(s, r, io).s) && GateOk(Unqueue(s, r).s)
  {
    if r.useSched {
      QueueingKeepsGate(s, r, Hp, io, Env(0, false, Config(Fixed, Choice(No, Baseline), 0, 0, 0), 0, 0));
    }
  }

  lemma DispatchKeepsGate(s: State, r: Request, excluded: bool, env: Env)
    requires GateOk(s) && Inv(s)
    ensures GateOk(Dispatch(s, r, excluded, env).s)
  {
    if Known(s, r) {
      DispatchFrame(s, r, excluded, env);
      NotedOk(s, r, excluded, env);
      var m := Noted(s, r, excluded, env);
      OneChangesDepth(s, r, WithDepth(m));
      assert MetaOk(s.reqs[r], s.decision);
      hide Dispatch, Noted, Inv, BgDepth;
      if !m.reserved {
        StillFull(s, Dispatch(s, r, excluded, env).s) by {
          SameRequests(Dispatch(s, r, excluded, env).s, s.(reqs := s.reqs[r := WithDepth(m)]));
        }
      }
    }
  }

  lemma SameRequests(s: State, t: State)
    requires s.reqs == t.reqs
    ensures BgDepth(s) == BgDepth(t)
  {
  }

  lemma IssueKeepsGate(s: State, r: Request, q: QueueClass, io: Io, env: Env)
    requires GateOk(s) && Inv(s)
    ensures GateOk(Issue(s, r, q, io, env).s)
  {
    var m := if r in s.reqs then s.reqs[r] else Fresh(q, io);
    var issued := Issued(m, io, env.now, if env.enabled then s.session else 0);
    OneChangesDepth(s, r, issued);
    assert r in s.reqs ==> MetaOk(s.reqs[r], s.decision);
    assert m.bgReserved ==> issued.bgReserved;
    hide Inv, BgDepth, Issued;
    if r in s.reqs || |s.reqs| != s.capacity {
      SameRequests(Issue(s, r, q, io, env).s, s.(reqs := s.reqs[r := issued]));
      StillFull(s, Issue(s, r, q, io, env).s);
    }
  }

  /** Releasing opens the gate if there is room now; what happens to the released record afterwards does not matter. */
  lemma ReleaseKeepsGate(s: State, r: Request, m: Meta)
    requires GateOk(s) && r in s.reqs && (s.reqs[r].bgReserved ==> s.reqs[r].reserved) && !m.bgReserved
    ensures GateOk(Put(Release(s, r).s, r, m)) && GateOk(Forget(Release(s, r).s, r))
  {
    var out := Release(s, r).s;
    ReleaseFrame(s, r);
    assert out.reqs[r := m] == s.reqs[r := m] && out.reqs - {r} == s.reqs - {r};
    CountUpdate(s.reqs, r, m, IsBgReserved);
    CountUpdate(s.reqs, r, Cleared(s.reqs[r]), IsBgReserved);
    CountRemove(s.reqs, r, IsBgReserved);
    assert Count(out.reqs[r := m], IsBgReserved) == Count(out.reqs - {r}, IsBgReserved)
           == Count(out.reqs, IsBgReserved);
    hide Count;
  }

  lemma HandBackKeepsGate(s: State, r: Request)
    requires GateOk(s) && Inv(s)
    ensures GateOk(Requeue(s, r).s) && GateOk(Finish(s, r).s)
  {
    if r in s.reqs {
      assert MetaOk(s.reqs[r], s.decision);
      var unbound := Unbound(s, r);
      StillFull(s, unbound);
      ReleaseFrame(unbound, r);
      var m := Release(unbound, r).s.reqs[r].(issueTs := 0, issueSession := 0, decision := 0, sampled := false);
      ReleaseKeepsGate(unbound, r, m);
    }
    hide Release, GateOk, Put;
  }

  lemma JudgedKeepsGate(s: State, r: Request, env: Env)
    requires GateOk(s) && r in s.reqs
    ensures GateOk(Judged(s, r, env).s) && Judged(s, r, env).s.reqs == s.reqs
  {
    JudgedFrame(s, r, env);
    SameRequests(Judged(s, r, env).s, s);
    hide Judged, Mean, Eligible, Votes, BgDepth, Sampled;
    if Judged(s, r, env).s.gate.Some? {
      StillFull(s, Judged(s, r, env).s);
    }
  }

  lemma CompletionKeepsGate(s: State, r: Request, final: bool, env: Env)
    requires GateOk(s) && Inv(s)
    ensures GateOk(Complete(s, r, final, env).s)
  {
    if r in s.reqs && final {
      assert MetaOk(s.reqs[r], s.decision);
      JudgedKeepsGate(s, r, env);
      var judged := Judged(s, r, env).s;
      hide Judged;
      ReleaseKeepsGate(judged, r, Cleared(s.reqs[r]));
      hide Release, SlowVerdict, Triggers, SnapshotOf, CanRun;
    }
  }

  lemma InferenceKeepsGate(s: State, ids: Ids, source: Source, choice: Option<Choice>, free: bool, env: Env)
    requires GateOk(s)
    ensures GateOk(WorkerReads(s).s) && GateOk(WorkerApply(s, ids, source, choice, env.queueMax).s)
    ensures GateOk(ScheduleFail(s).s) && GateOk(ModelRun(s, env).s) && GateOk(DispatchModel(s, env.enabled, free).s)
    ensures GateOk(Timer(s).s) && GateOk(TimeoutWork(s).s)
  {
    hide SnapshotOf, Count, Ratio, Target;
  }

  lemma AskingKeepsGate(s: State, enabled: bool, demo: bool, newSession: bool, now: nat)
    requires GateOk(s)
    ensures GateOk(GateQuery(s, enabled, demo).s) && GateOk(Reset(s, newSession, now).s) && GateOk(Exit(s).s)
  {
    hide Count;
  }

  lemma StepKeepsGate(s: State, step: Step)
    requires GateOk(s) && Inv(s) && Proper(s, step)
    ensures GateOk(Next(s, step).s)
  {
    hide Inv, Next, GateOk;
    if AboutRequest(step.event) {
      RequestStepKeepsGate(s, step);
    } else {
      OtherStepKeepsGate(s, step);
    }
  }

  lemma RequestStepKeepsGate(s: State, step: Step)
    requires GateOk(s) && Inv(s) && Proper(s, step) && AboutRequest(step.event)
    ensures GateOk(Next(s, step).s)
  {
    var env := step.env;
    hide Inv, GateOk, Classify, Update, Unqueue, Dispatch, Finish, Issue, Requeue, Complete;
    match step.event
    case Classifies(r, q, io) => QueueingKeepsGate(s, r, q, io, env);
    case Updates(r, io) => UpdateKeepsGate(s, r, io);
    case Unqueues(r) => UpdateKeepsGate(s, r, Io(Read, 0, 0, false, false));
    case Dispatches(r, excluded) => DispatchKeepsGate(s, r, excluded, env);
    case Issues(r, q, io) => IssueKeepsGate(s, r, q, io, env);
    case Completes(r, final) => CompletionKeepsGate(s, r, final, env);
    case Finishes(r) => HandBackKeepsGate(s, r);
    case Requeues(r) => HandBackKeepsGate(s, r);
  }

  lemma OtherStepKeepsGate(s: State, step: Step)
    requires GateOk(s) && !AboutRequest(step.event)
    ensures GateOk(Next(s, step).s)
  {
    var env, ids := step.env, Ids(0, 0, 0);
    hide WorkerReads, WorkerApply, ScheduleFail, ModelRun, DispatchModel, Timer, TimeoutWork, GateQuery, Reset, Exit,
         GateOk;
    match step.event
    case Works(id, source, choice) => InferenceKeepsGate(s, id, source, choice, false, env);
    case ModelDispatches(free) => InferenceKeepsGate(s, ids, Fixed, None, free, env);
    case Asks(demo, _) => AskingKeepsGate(s, env.enabled, demo, false, 0);
    case Resets(newSession) => AskingKeepsGate(s, false, false, newSession, env.now);
    case Exits => AskingKeepsGate(s, false, false, false, 0);
    case _ => InferenceKeepsGate(s, ids, Fixed, None, false, env);
  }

  /** In every run: a closed gate has a reason that still stands. */
  lemma {:induction false} GateHasReason(s: State, steps: seq<Step>)
    requires GateOk(s) && Inv(s) && IsRun(s, steps)
    ensures GateOk(Run(s, steps))
    decreases |steps|
  {
    if steps != [] {
      StepKeeps(s, steps[0]);
      StepKeepsGate(s, steps[0]);
      hide Inv, Next, Proper, GateOk;
      GateHasReason(Next(s, steps[0]).s, steps[1..]);
    }
  }

  /** Behind a closed gate, whoever asked would be turned away. */
  lemma ClosedMeansRefused(s: State)
    requires GateOk(s) && s.gate.Some?
    ensures !Allowed(s, true, false)
  {
  }

  /**
   Whoever has been turned away and has not been woken since, nor let in by one of the two silent
   regions, would be let through in exactly two cases: throttling is off, or the demonstration mode
   is on. Switching throttling off runs the queues; switching that mode on does not.
   */
  lemma RefusedAreNoticed(s: State, ask: Step, steps: seq<Step>)
    requires GateOk(s) && Inv(s) && Proper(s, ask) && IsRun(Next(s, ask).s, steps)
    requires ask.event.Asks? && !Allowed(s, ask.env.enabled, ask.event.demo)
    ensures var refused := Next(s, ask).s;
            !Noticed(refused, steps) ==>
              forall enabled, demo :: Allowed(Run(refused, steps), enabled, demo) <==> !enabled || demo
  {
    var refused := Next(s, ask).s;
    assert refused.gate.Some?;
    StepKeeps(s, ask);
    StepKeepsGate(s, ask);
    hide Inv, Next, GateOk, Noticed;
    GateHasReason(refused, steps);
    hide CanRun;
    if Run(refused, steps).gate.Some? {
      ClosedMeansRefused(Run(refused, steps));
    } else {
      OpenGateWasNoticed(refused, steps);
    }
  }
}
