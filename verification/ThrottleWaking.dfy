/** Whoever the gate turned away is woken when it opens. */
module ThrottleWaking {
  import opened Options
  import opened ThrottleSpec
  import opened ThrottleRuns

  /**
   The two regions that open the gate without running the queues: giving up control because the
   pool is exhausted when a request is classified, and a timeout in session 0.
   */
  ghost predicate OpensSilently(s: State, step: Step) {
    || (step.event.Classifies? && !Known(s, step.event.r) && |s.reqs| == s.capacity)
    || (step.event.TimesOut? && s.mode.Pending? && s.mode.timedOut && s.mode.ids.session == 0)
  }

  ghost predicate Wakes(s: State, out: Outcome, silent: bool) {
    s.gate.Some? && out.s.gate.None? ==> (out.wake <==> !silent)
  }

  lemma RequestWakes(s: State, r: Request, q: QueueClass, io: Io, excluded: bool, env: Env)
    ensures Wakes(s, Classify(s, r, q, io, env), !Known(s, r) && |s.reqs| == s.capacity)
    ensures Wakes(s, Issue(s, r, q, io, env), false) && Wakes(s, Dispatch(s, r, excluded, env), false)
    ensures Wakes(s, Update(s, r, io), false) && Wakes(s, Unqueue(s, r), false)
  {
    hide Known, Issued;
  }

  lemma ReleaseWakes(s: State, r: Request)
    ensures Wakes(s, Requeue(s, r), false) && Wakes(s, Finish(s, r), false)
    ensures r in s.reqs ==> Wakes(s, Release(s, r), false)
  {
    hide CanRun;
  }

  lemma JudgedWakes(s: State, r: Request, env: Env)
    requires r in s.reqs
    ensures Wakes(s, Judged(s, r, env), false) && Wakes(s, Retired(s, r, env), false)
    ensures Judged(s, r, env).s.gate.Some? ==> s.gate == Judged(s, r, env).s.gate
    ensures Retired(s, r, env).s.gate.Some? ==> s.gate == Retired(s, r, env).s.gate
  {
    JudgedFrame(s, r, env);
    var judged := Judged(s, r, env);
    assert judged.s.gate.None? && s.gate.Some? ==> judged.wake;
    ReleaseWakes(judged.s, r);
    hide Eligible, Votes, StaysSlow, CanRun, Judged;
  }

  lemma CompletionWakes(s: State, r: Request, final: bool, env: Env)
    ensures Wakes(s, Complete(s, r, final, env), false)
  {
    if r in s.reqs && final {
      JudgedWakes(s, r, env);
    }
    hide Retired, SlowVerdict, Triggers, SnapshotOf;
  }

  lemma InferenceWakes(s: State, ids: Ids, source: Source, choice: Option<Choice>, free: bool, env: Env)
    ensures Wakes(s, WorkerReads(s), false)
    ensures Wakes(s, WorkerApply(s, ids, source, choice, env.queueMax), false) && Wakes(s, ScheduleFail(s), false)
    ensures Wakes(s, ModelRun(s, env), false) && Wakes(s, DispatchModel(s, env.enabled, free), false)
    ensures Wakes(s, Timer(s), false)
    ensures Wakes(s, TimeoutWork(s), s.mode.Pending? && s.mode.timedOut && s.mode.ids.session == 0)
  {
    hide SnapshotOf, Count, Ratio, Target;
  }

  lemma GateWakes(s: State, enabled: bool, demo: bool, newSession: bool, now: nat)
    ensures Wakes(s, GateQuery(s, enabled, demo), false) && Wakes(s, Reset(s, newSession, now), false)
            && Wakes(s, Exit(s), false)
  {
    hide Allowed;
  }

  /** When the gate opens, the queues are run, with exactly the two exceptions. */
  lemma OpeningWakes(s: State, step: Step)
    requires s.gate.Some? && Next(s, step).s.gate.None?
    ensures Next(s, step).wake <==> !OpensSilently(s, step)
  {
    hide Next, OpensSilently;
    if AboutRequest(step.event) {
      RequestStepWakes(s, step);
    } else {
      OtherStepWakes(s, step);
    }
  }

  /**
   The regions that run the queues whether or not the gate was closed: an action comes into force, a
   session opens or ends, and two anomalies.
   */
  ghost predicate AlwaysRuns(s: State, step: Step) {
    match step.event
    case Resets(_) => true
    case Works(_, _, _) => !s.mode.Controlled? && Next(s, step).s.mode.Controlled?
    case Issues(r, _, _) => r !in s.reqs && |s.reqs| == s.capacity
    case Dispatches(r, _) => r.useSched && r in s.reqs && s.reqs[r].reserved
    case _ => false
  }

  ghost predicate Opens(s: State, out: Outcome) {
    s.gate.Some? && out.s.gate.None?
  }

  lemma JudgedOpens(s: State, r: Request, env: Env)
    requires r in s.reqs
    ensures Judged(s, r, env).wake ==> Opens(s, Judged(s, r, env))
    ensures Retired(s, r, env).wake ==> Opens(s, Retired(s, r, env))
    ensures Retired(s, r, env).s.gate.Some? ==> s.gate == Retired(s, r, env).s.gate
  {
    JudgedFrame(s, r, env);
    JudgedWakes(s, r, env);
    hide Eligible, StaysSlow, CanRun, Triggers, Latency;
  }

  lemma CompletionOpens(s: State, r: Request, final: bool, env: Env)
    ensures Complete(s, r, final, env).wake ==> Opens(s, Complete(s, r, final, env))
  {
    if r in s.reqs && final {
      JudgedOpens(s, r, env);
    }
    hide Retired, SlowVerdict, Triggers, SnapshotOf;
  }

  lemma RequestRuns(s: State, step: Step)
    requires AboutRequest(step.event)
    ensures Next(s, step).wake ==> Opens(s, Next(s, step)) || AlwaysRuns(s, step)
    ensures AlwaysRuns(s, step) ==> Next(s, step).wake
  {
    if step.event.Completes? {
      CompletionOpens(s, step.event.r, step.event.final, step.env);
      hide Complete;
    } else {
      hide CanRun, Issued, Enqueued, Dequeued, Complete;
    }
  }

  lemma OtherRuns(s: State, step: Step)
    requires !AboutRequest(step.event)
    ensures Next(s, step).wake ==> Opens(s, Next(s, step)) || AlwaysRuns(s, step)
    ensures AlwaysRuns(s, step) ==> Next(s, step).wake
  {
    hide SnapshotOf, Count, Ratio, Target, Allowed, ModelDue;
  }

  /** The queues are run exactly if the gate opens, but for the two silent regions, or in one of those four. */
  lemma QueuesAreRun(s: State, step: Step)
    ensures Next(s, step).wake <==> (Opens(s, Next(s, step)) && !OpensSilently(s, step)) || AlwaysRuns(s, step)
  {
    if AboutRequest(step.event) {
      RequestRuns(s, step);
    } else {
      OtherRuns(s, step);
    }
    hide Next, OpensSilently, AlwaysRuns;
    if Opens(s, Next(s, step)) {
      OpeningWakes(s, step);
    }
  }

  /** Some step of the run has run the queues, or has opened the gate silently. */
  ghost predicate Noticed(s: State, steps: seq<Step>)
    decreases |steps|
  {
    steps != [] && (Next(s, steps[0]).wake || OpensSilently(s, steps[0]) || Noticed(Next(s, steps[0]).s, steps[1..]))
  }

  /** Whoever was turned away by a gate that is open later on has been woken in between, but for the two exceptions. */
  lemma {:induction false} OpenGateWasNoticed(s: State, steps: seq<Step>)
    requires s.gate.Some? && Run(s, steps).gate.None?
    ensures Noticed(s, steps)
    decreases |steps|
  {
    if steps != [] {
      var next := Next(s, steps[0]).s;
      if next.gate.Some? {
        hide Next, OpensSilently;
        OpenGateWasNoticed(next, steps[1..]);
      } else {
        OpeningWakes(s, steps[0]);
        hide Next, OpensSilently;
      }
    }
  }

  lemma RequestStepWakes(s: State, step: Step)
    requires AboutRequest(step.event)
    ensures Wakes(s, Next(s, step), OpensSilently(s, step))
  {
    var env := step.env;
    var read := Io(Read, 0, 0, false, false);
    hide Classify, Update, Unqueue, Dispatch, Finish, Issue, Requeue, Complete, Wakes;
    match step.event
    case Classifies(r, q, io) => RequestWakes(s, r, q, io, false, env);
    case Updates(r, io) => RequestWakes(s, r, Hp, io, false, env);
    case Unqueues(r) => RequestWakes(s, r, Hp, read, false, env);
    case Dispatches(r, excluded) => RequestWakes(s, r, Hp, read, excluded, env);
    case Issues(r, q, io) => RequestWakes(s, r, q, io, false, env);
    case Completes(r, final) => CompletionWakes(s, r, final, env);
    case Finishes(r) => ReleaseWakes(s, r);
    case Requeues(r) => ReleaseWakes(s, r);
  }

  lemma OtherStepWakes(s: State, step: Step)
    requires !AboutRequest(step.event)
    ensures Wakes(s, Next(s, step), OpensSilently(s, step))
  {
    var env, ids := step.env, Ids(0, 0, 0);
    hide WorkerReads, WorkerApply, ScheduleFail, ModelRun, DispatchModel, Timer, TimeoutWork, GateQuery, Reset, Exit,
         Wakes;
    match step.event
    case Reads => InferenceWakes(s, ids, Fixed, None, false, env);
    case Works(id, source, choice) => InferenceWakes(s, id, source, choice, false, env);
    case ModelDispatches(free) => InferenceWakes(s, ids, Fixed, None, free, env);
    case ScheduleFails => InferenceWakes(s, ids, Fixed, None, false, env);
    case ModelRuns => InferenceWakes(s, ids, Fixed, None, false, env);
    case TimerFires => InferenceWakes(s, ids, Fixed, None, false, env);
    case TimesOut => InferenceWakes(s, ids, Fixed, None, false, env);
    case Asks(demo, _) => GateWakes(s, env.enabled, demo, false, 0);
    case Resets(newSession) => GateWakes(s, false, false, newSession, env.now);
    case Exits => GateWakes(s, false, false, false, 0);
  }

  /**
   A queue that is created while throttling is already on never enters a session: then every
   timeout that finds the gate closed opens it without waking those it had turned away.
   */
  lemma {:induction false} WithoutSessionTimeoutsAreSilent(s: State, steps: seq<Step>, last: Step)
    requires s.session == 0 && Inv(s) && IsRun(s, steps)
    requires forall step <- steps :: step.event != Resets(true)
    requires last.event.TimesOut?
    ensures var end := Run(s, steps);
            end.session == 0 && (end.mode.Pending? && end.mode.timedOut && end.gate.Some? ==>
                                   Next(end, last).s.gate.None? && !Next(end, last).wake)
    decreases |steps|
  {
    if steps == [] {
      assert s.mode.Pending? ==> s.mode.ids.session == 0;
    } else {
      var next := Next(s, steps[0]).s;
      StepKeeps(s, steps[0]);
      StepTallies(s, steps[0]);
      hide Inv, Next, Proper;
      WithoutSessionTimeoutsAreSilent(next, steps[1..], last);
    }
  }
}
