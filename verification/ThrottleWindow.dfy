/** The latency window over whole runs: the last five samples, and how many an episode of control needs. */
module ThrottleWindow {
  import opened Options
  import opened ThrottleSpec
  import opened ThrottleRuns

  /** Control is given up, or its giving up is repeated: an anomaly, a reset, or a return to idle. */
  ghost predicate FallsBack(s: State, next: State, reset: bool) {
    reset || next.anomalies > s.anomalies || (!s.mode.Idle? && next.mode.Idle?)
  }

  /** The sample a step records, if any. */
  ghost function Recorded(s: State, step: Step): seq<Sample> {
    if step.event.Completes? && step.event.final && step.event.r in s.reqs
       && Eligible(s, s.reqs[step.event.r], step.env)
    then [SampleOf(s.reqs[step.event.r], step.env.now)]
    else []
  }

  /** What a step does to the window, and when it opens a new stretch of control. */
  ghost predicate WindowMoved(s: State, next: State, recorded: seq<Sample>, reset: bool) {
    && |recorded| <= 1
    && (next.window == if FallsBack(s, next, reset) then []
                       else if recorded == [] then s.window
                       else Pushed(s.window, recorded[0]))
    && next.control >= s.control
    && (next.control > s.control ==> recorded != [] && |next.window| == SAMPLES)
  }

  lemma CompletionMovesWindow(s: State, r: Request, final: bool, env: Env)
    requires Inv(s) && env.now > 0
    ensures WindowMoved(s, Complete(s, r, final, env).s, Recorded(s, Step(Completes(r, final), env)), false)
  {
    if r in s.reqs && final {
      if s.mode.Controlled? {
        Verdict(s, r, env);
      } else {
        Trigger(s, r, env);
      }
    }
    hide Inv, Complete, Votes, CanStart, Mean, Latency, Eligible, Pushed;
  }

  lemma ReleaseMovesWindow(s: State, r: Request)
    ensures WindowMoved(s, Requeue(s, r).s, [], false) && WindowMoved(s, Finish(s, r).s, [], false)
  {
    if r in s.reqs {
      ReleaseFrame(Unbound(s, r), r);
    }
    hide Release;
  }

  lemma QueueingMovesWindow(s: State, r: Request, q: QueueClass, io: Io, env: Env)
    ensures WindowMoved(s, Classify(s, r, q, io, env).s, [], false)
    ensures WindowMoved(s, Update(s, r, io).s, [], false) && WindowMoved(s, Unqueue(s, r).s, [], false)
  {
    hide Known, Enqueued, Dequeued;
  }

  lemma DispatchMovesWindow(s: State, r: Request, excluded: bool, env: Env)
    ensures WindowMoved(s, Dispatch(s, r, excluded, env).s, [], false)
  {
    if Known(s, r) {
      DispatchFrame(s, r, excluded, env);
      hide Dispatch, Noted;
    }
  }

  lemma IssueMovesWindow(s: State, r: Request, q: QueueClass, io: Io, env: Env)
    ensures WindowMoved(s, Issue(s, r, q, io, env).s, [], false)
  {
    hide Issued;
  }

  lemma InferenceMovesWindow(s: State, ids: Ids, source: Source, choice: Option<Choice>, free: bool, env: Env)
    ensures WindowMoved(s, WorkerReads(s).s, [], false)
    ensures WindowMoved(s, WorkerApply(s, ids, source, choice, env.queueMax).s, [], false)
    ensures WindowMoved(s, ScheduleFail(s).s, [], false) && WindowMoved(s, ModelRun(s, env).s, [], false)
    ensures WindowMoved(s, DispatchModel(s, env.enabled, free).s, [], false)
    ensures WindowMoved(s, Timer(s).s, [], false) && WindowMoved(s, TimeoutWork(s).s, [], false)
  {
    hide SnapshotOf, Count, Ratio, Target;
  }

  lemma GateMovesWindow(s: State, enabled: bool, demo: bool, newSession: bool, now: nat)
    ensures WindowMoved(s, GateQuery(s, enabled, demo).s, [], false)
            && WindowMoved(s, Reset(s, newSession, now).s, [], true)
    ensures WindowMoved(s, Exit(s).s, [], false)
  {
    hide Allowed;
  }

  lemma WindowMoves(s: State, step: Step)
    requires Inv(s) && Proper(s, step)
    ensures WindowMoved(s, Next(s, step).s, Recorded(s, step), step.event.Resets?)
  {
    hide Inv, Next, WindowMoved;
    if AboutRequest(step.event) {
      RequestStepMovesWindow(s, step);
    } else {
      OtherStepMovesWindow(s, step);
    }
  }

  lemma RequestStepMovesWindow(s: State, step: Step)
    requires Inv(s) && Proper(s, step) && AboutRequest(step.event)
    ensures WindowMoved(s, Next(s, step).s, Recorded(s, step), false)
  {
    var env := step.env;
    var read := Io(Read, 0, 0, false, false);
    hide Inv, Classify, Update, Unqueue, Dispatch, Finish, Issue, Requeue, Complete, WindowMoved;
    assert !step.event.Completes? ==> Recorded(s, step) == [];
    hide Recorded;
    match step.event
    case Classifies(r, q, io) => QueueingMovesWindow(s, r, q, io, env);
    case Updates(r, io) => QueueingMovesWindow(s, r, Hp, io, env);
    case Unqueues(r) => QueueingMovesWindow(s, r, Hp, read, env);
    case Dispatches(r, excluded) => DispatchMovesWindow(s, r, excluded, env);
    case Issues(r, q, io) => IssueMovesWindow(s, r, q, io, env);
    case Completes(r, final) =>
      CompletionMovesWindow(s, r, final, env);
      assert step == Step(Completes(r, final), env);
    case Finishes(r) => ReleaseMovesWindow(s, r);
    case Requeues(r) => ReleaseMovesWindow(s, r);
  }

  lemma OtherStepMovesWindow(s: State, step: Step)
    requires !AboutRequest(step.event)
    ensures WindowMoved(s, Next(s, step).s, Recorded(s, step), step.event.Resets?)
  {
    var env, ids := step.env, Ids(0, 0, 0);
    assert Recorded(s, step) == [];
    hide WorkerReads, WorkerApply, ScheduleFail, ModelRun, DispatchModel, Timer, TimeoutWork, GateQuery, Reset, Exit,
         WindowMoved, Recorded;
    match step.event
    case Reads => InferenceMovesWindow(s, ids, Fixed, None, false, env);
    case Works(id, source, choice) => InferenceMovesWindow(s, id, source, choice, false, env);
    case ModelDispatches(free) => InferenceMovesWindow(s, ids, Fixed, None, free, env);
    case ScheduleFails => InferenceMovesWindow(s, ids, Fixed, None, false, env);
    case ModelRuns => InferenceMovesWindow(s, ids, Fixed, None, false, env);
    case TimerFires => InferenceMovesWindow(s, ids, Fixed, None, false, env);
    case TimesOut => InferenceMovesWindow(s, ids, Fixed, None, false, env);
    case Asks(demo, _) => GateMovesWindow(s, env.enabled, demo, false, 0);
    case Resets(newSession) => GateMovesWindow(s, false, false, newSession, env.now);
    case Exits => GateMovesWindow(s, false, false, false, 0);
  }

  // ---- The window is the last five ----

  function LastFive(h: seq<Sample>): seq<Sample> {
    if |h| <= SAMPLES then h else h[|h| - SAMPLES..]
  }

  /** All samples recorded since control was last given up, when `h` had been recorded before the run. */
  ghost function History(s: State, steps: seq<Step>, h: seq<Sample>): seq<Sample>
    decreases |steps|
  {
    if steps == [] then h
    else
      var next := Next(s, steps[0]).s;
      History(next, steps[1..], if FallsBack(s, next, steps[0].event.Resets?) then [] else h + Recorded(s, steps[0]))
  }

  lemma PushedOnLastFive(h: seq<Sample>, x: Sample)
    ensures Pushed(LastFive(h), x) == LastFive(h + [x])
  {
  }

  /** In every run the window holds the last five samples since control was last given up, oldest first. */
  lemma {:induction false} WindowIsLastFive(s: State, steps: seq<Step>, h: seq<Sample>)
    requires Inv(s) && IsRun(s, steps) && s.window == LastFive(h)
    ensures Run(s, steps).window == LastFive(History(s, steps, h))
    decreases |steps|
  {
    if steps != [] {
      var next, recorded := Next(s, steps[0]).s, Recorded(s, steps[0]);
      StepKeeps(s, steps[0]);
      WindowMoves(s, steps[0]);
      if recorded != [] {
        PushedOnLastFive(h, recorded[0]);
        assert recorded == [recorded[0]];
      }
      hide Inv, Next, Proper, Recorded, Pushed;
      assert h + [] == h;
      WindowIsLastFive(next, steps[1..], if FallsBack(s, next, steps[0].event.Resets?) then [] else h + recorded);
    }
  }

  ghost function RecordedIn(s: State, steps: seq<Step>): nat
    decreases |steps|
  {
    if steps == [] then 0 else |Recorded(s, steps[0])| + RecordedIn(Next(s, steps[0]).s, steps[1..])
  }

  /** A new stretch of control takes as many new samples as the window lacks: five after every giving up. */
  lemma {:induction false} ControlTakesSamples(s: State, steps: seq<Step>)
    requires Inv(s) && IsRun(s, steps)
    ensures Run(s, steps).control >= s.control
    ensures Run(s, steps).control > s.control ==>
              RecordedIn(s, steps) + |s.window| >= SAMPLES && RecordedIn(s, steps) >= 1
    decreases |steps|
  {
    if steps != [] {
      var next := Next(s, steps[0]).s;
      StepKeeps(s, steps[0]);
      WindowMoves(s, steps[0]);
      ControlTakesSamples(next, steps[1..]);
      hide Inv, Next, Proper, Recorded;
    }
  }

  /** After a step that gives up control, the next stretch of control takes five new samples. */
  lemma FiveAfterGivingUp(s: State, step: Step, steps: seq<Step>)
    requires Inv(s) && Proper(s, step) && FallsBack(s, Next(s, step).s, step.event.Resets?)
    requires IsRun(Next(s, step).s, steps)
    ensures var rest := Next(s, step).s;
            Run(rest, steps).control > rest.control ==> RecordedIn(rest, steps) >= SAMPLES
  {
    hide Inv, Next, Proper, FallsBack, Recorded;
    StepKeeps(s, step);
    WindowMoves(s, step);
    ControlTakesSamples(Next(s, step).s, steps);
  }
}
