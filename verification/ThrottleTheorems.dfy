/** What the controller promises over whole runs about inferences and verdicts. */
module ThrottleTheorems {
  import opened Options
  import opened ThrottleSpec
  import opened ThrottleRuns

  // ---- Inference ----

  ghost predicate Applies(s: State, step: Step) {
    !s.mode.Controlled? && Next(s, step).s.mode.Controlled?
  }

  /** The decisions applied in a run, in order. */
  ghost function Applied(s: State, steps: seq<Step>): seq<nat>
    decreases |steps|
  {
    if steps == [] then []
    else
      var next := Next(s, steps[0]).s;
      (if Applies(s, steps[0]) then [next.mode.action.decision] else []) + Applied(next, steps[1..])
  }

  /** The step is the completion of the request that feedback waits for. */
  ghost predicate IsVote(s: State, step: Step) {
    step.event.Completes? && step.event.final && step.event.r in s.reqs && Votes(s, step.event.r, step.env.now)
  }

  /** What one step can do to the mode; only the worker can take control, and only a vote adds to the votes. */
  ghost predicate Moved(s: State, next: State, byWorker: bool, vote: bool) {
    && (next.mode.Controlled? && s.mode.Controlled? ==> |next.mode.votes| == |s.mode.votes| + if vote then 1 else 0)
    && next.decision >= s.decision
    && (next.mode.Controlled? && s.mode.Controlled? ==> next.mode.action == s.mode.action)
    && (next.mode.Pending? ==>
          || next.decision == s.decision + 1
          || (s.mode.Pending? && next.mode.ids == s.mode.ids && next.decision == s.decision))
    && (next.mode.Controlled? ==> !s.mode.Idle? && next.decision == s.decision && (s.mode.Controlled? || byWorker))
    && (s.mode.Pending? && s.mode.timedOut ==>
          next.mode.Idle? || (next.mode.Pending? && next.mode.timedOut && next.mode.ids == s.mode.ids))
  }

  lemma CompleteMoves(s: State, r: Request, final: bool, env: Env)
    requires Inv(s) && env.now > 0
    ensures Moved(s, Complete(s, r, final, env).s, false, final && r in s.reqs && Votes(s, r, env.now))
  {
    if r in s.reqs && final {
      if s.mode.Controlled? {
        Verdict(s, r, env);
      } else {
        Trigger(s, r, env);
      }
      PendingIsLatest(s);
    }
    hide Complete, Inv, Votes, Triggers, CanStart, Mean, Sampled, Latency;
  }

  lemma ReleaseMoves(s: State, r: Request)
    requires s.mode.Pending? ==> s.mode.ids.decision == s.decision
    ensures Moved(s, Requeue(s, r).s, false, false) && Moved(s, Finish(s, r).s, false, false)
  {
    if r in s.reqs {
      ReleaseFrame(Unbound(s, r), r);
    }
    hide Release;
  }

  lemma QueueingMoves(s: State, r: Request, q: QueueClass, io: Io, env: Env)
    requires s.mode.Pending? ==> s.mode.ids.decision == s.decision
    ensures Moved(s, Classify(s, r, q, io, env).s, false, false)
    ensures Moved(s, Update(s, r, io).s, false, false) && Moved(s, Unqueue(s, r).s, false, false)
  {
    hide Known, Enqueued, Dequeued;
  }

  lemma DispatchMoves(s: State, r: Request, excluded: bool, env: Env)
    requires s.mode.Pending? ==> s.mode.ids.decision == s.decision
    ensures Moved(s, Dispatch(s, r, excluded, env).s, false, false)
  {
    if Known(s, r) {
      DispatchFrame(s, r, excluded, env);
      hide Dispatch, Noted;
    }
  }

  lemma IssueMoves(s: State, r: Request, q: QueueClass, io: Io, env: Env)
    requires s.mode.Pending? ==> s.mode.ids.decision == s.decision
    ensures Moved(s, Issue(s, r, q, io, env).s, false, false)
  {
    hide Issued;
  }

  lemma WorkerMoves(s: State, ids: Ids, source: Source, choice: Option<Choice>, env: Env)
    requires s.mode.Pending? ==> s.mode.ids.decision == s.decision
    ensures Moved(s, WorkerApply(s, ids, source, choice, env.queueMax).s, true, false)
  {
    hide Ratio, Target;
  }

  lemma InferenceMoves(s: State, free: bool, env: Env)
    requires s.mode.Pending? ==> s.mode.ids.decision == s.decision
    ensures Moved(s, WorkerReads(s).s, false, false)
    ensures Moved(s, ScheduleFail(s).s, false, false) && Moved(s, ModelRun(s, env).s, false, false)
    ensures Moved(s, DispatchModel(s, env.enabled, free).s, false, false)
    ensures Moved(s, Timer(s).s, false, false) && Moved(s, TimeoutWork(s).s, false, false)
  {
    hide SnapshotOf, Count;
  }

  lemma GateMoves(s: State, enabled: bool, demo: bool, newSession: bool, now: nat)
    requires s.mode.Pending? ==> s.mode.ids.decision == s.decision
    ensures Moved(s, GateQuery(s, enabled, demo).s, false, false) && Moved(s, Reset(s, newSession, now).s, false, false)
    ensures Moved(s, Exit(s).s, false, false)
  {
    hide Allowed;
  }

  lemma PendingIsLatest(s: State)
    requires Inv(s)
    ensures s.mode.Pending? ==> s.mode.ids == Ids(s.session, s.control, s.decision)
    ensures s.mode.Controlled? ==> s.mode.action.decision == s.decision
  {
  }

  lemma ModeMoves(s: State, step: Step)
    requires Inv(s) && Proper(s, step)
    ensures Moved(s, Next(s, step).s, step.event.Works?, IsVote(s, step))
  {
    hide Inv, Next, Moved;
    PendingIsLatest(s);
    if AboutRequest(step.event) {
      RequestStepMoves(s, step);
    } else {
      OtherStepMoves(s, step);
    }
  }

  lemma RequestStepMoves(s: State, step: Step)
    requires Inv(s) && Proper(s, step) && AboutRequest(step.event)
    requires s.mode.Pending? ==> s.mode.ids.decision == s.decision
    ensures Moved(s, Next(s, step).s, false, IsVote(s, step))
  {
    var env := step.env;
    var read := Io(Read, 0, 0, false, false);
    hide Inv, Classify, Update, Unqueue, Dispatch, Finish, Issue, Requeue, Complete, Moved;
    match step.event
    case Classifies(r, q, io) => QueueingMoves(s, r, q, io, env);
    case Updates(r, io) => QueueingMoves(s, r, Hp, io, env);
    case Unqueues(r) => QueueingMoves(s, r, Hp, read, env);
    case Dispatches(r, excluded) => DispatchMoves(s, r, excluded, env);
    case Issues(r, q, io) => IssueMoves(s, r, q, io, env);
    case Completes(r, final) => CompleteMoves(s, r, final, env);
    case Finishes(r) => ReleaseMoves(s, r);
    case Requeues(r) => ReleaseMoves(s, r);
  }

  lemma OtherStepMoves(s: State, step: Step)
    requires !AboutRequest(step.event)
    requires s.mode.Pending? ==> s.mode.ids.decision == s.decision
    ensures Moved(s, Next(s, step).s, step.event.Works?, IsVote(s, step))
  {
    var env := step.env;
    hide WorkerReads, WorkerApply, ScheduleFail, ModelRun, DispatchModel, Timer, TimeoutWork, GateQuery, Reset, Exit,
         Moved;
    match step.event
    case Reads => InferenceMoves(s, false, env);
    case Works(ids, source, choice) => WorkerMoves(s, ids, source, choice, env);
    case ModelDispatches(free) => InferenceMoves(s, free, env);
    case ScheduleFails => InferenceMoves(s, false, env);
    case ModelRuns => InferenceMoves(s, false, env);
    case TimerFires => InferenceMoves(s, false, env);
    case TimesOut => InferenceMoves(s, false, env);
    case Asks(demo, _) => GateMoves(s, env.enabled, demo, false, 0);
    case Resets(newSession) => GateMoves(s, false, false, newSession, env.now);
    case Exits => GateMoves(s, false, false, false, 0);
  }

  /**
   An action comes into force only when the worker answers for the inference that is still
   pending, and carries the worker's choice under that inference's decision.
   */
  lemma OnlyPendingIsApplied(s: State, step: Step)
    requires Inv(s) && Proper(s, step)
    ensures Applies(s, step) <==>
              && step.event.Works? && step.event.choice.Some? && step.env.queueMax > 0
              && s.mode.Pending? && !s.mode.timedOut && !s.dying && step.event.ids == s.mode.ids
              && var level := step.event.choice.value.level; (level == No || 0 < Ratio(s.mode.config, level) <= 100)
    ensures Applies(s, step) ==>
              var action := Next(s, step).s.mode.action;
              action.choice == step.event.choice.value && action.decision == s.mode.ids.decision == s.decision
  {
    PendingIsLatest(s);
    ModeMoves(s, step);
    hide Inv, Next;
    if step.event.Works? {
      WorkerStep(s, step);
    }
  }

  lemma WorkerStep(s: State, step: Step)
    requires step.event.Works?
    ensures Next(s, step) == WorkerApply(s, step.event.ids, step.event.source, step.event.choice, step.env.queueMax)
  {
  }

  ghost predicate Increasing(log: seq<nat>, least: nat) {
    (forall i :: 0 <= i < |log| ==> log[i] >= least) && (forall i, j :: 0 <= i < j < |log| ==> log[i] < log[j])
  }

  lemma IncreasingPrepend(x: nat, log: seq<nat>, least: nat)
    requires Increasing(log, least)
    ensures x < least ==> Increasing([x] + log, x)
    ensures forall lower: nat :: lower <= least ==> Increasing(log, lower)
  {
    assert forall i :: 0 < i < |[x] + log| ==> ([x] + log)[i] == log[i - 1];
  }

  function NextDecision(s: State): nat {
    if s.mode.Pending? then s.decision else s.decision + 1
  }

  /** Decisions are applied in strictly increasing order, so each at most once. */
  lemma {:induction false} AppliedIncreases(s: State, steps: seq<Step>)
    requires Inv(s) && IsRun(s, steps)
    ensures Increasing(Applied(s, steps), NextDecision(s))
    decreases |steps|
  {
    if steps != [] {
      StepKeeps(s, steps[0]);
      ModeMoves(s, steps[0]);
      var next := Next(s, steps[0]).s;
      PendingIsLatest(s);
      PendingIsLatest(next);
      AppliedIncreases(next, steps[1..]);
      hide Inv, Next, Proper, Increasing;
      var rest := Applied(next, steps[1..]);
      IncreasingPrepend(s.decision, rest, NextDecision(next));
      assert Applied(s, steps) == if Applies(s, steps[0]) then [s.decision] + rest else rest;
    }
  }

  /** Once the pending inference has timed out, it is never applied; it stays pending until control is given up. */
  lemma {:induction false} TimedOutIsNeverApplied(s: State, steps: seq<Step>)
    requires Inv(s) && IsRun(s, steps) && s.mode.Pending? && s.mode.timedOut
    ensures s.mode.ids.decision !in Applied(s, steps)
    ensures var end := Run(s, steps).mode; end.Pending? && end.ids == s.mode.ids ==> end.timedOut
    decreases |steps|
  {
    if steps != [] {
      StepKeeps(s, steps[0]);
      ModeMoves(s, steps[0]);
      var next := Next(s, steps[0]).s;
      PendingIsLatest(s);
      PendingIsLatest(next);
      hide Inv, Next, Proper;
      assert Applied(s, steps) == Applied(next, steps[1..]);
      if next.mode.Pending? {
        TimedOutIsNeverApplied(next, steps[1..]);
      } else {
        AppliedIncreases(next, steps[1..]);
        DecisionsGrow(next, steps[1..]);
      }
    }
  }

  /** From idle, every inference to come has a later decision. */
  lemma {:induction false} DecisionsGrow(s: State, steps: seq<Step>)
    requires Inv(s) && IsRun(s, steps)
    ensures Run(s, steps).decision >= s.decision
    ensures !s.mode.Pending? && Run(s, steps).mode.Pending? ==> Run(s, steps).mode.ids.decision > s.decision
    decreases |steps|
  {
    if steps != [] {
      StepKeeps(s, steps[0]);
      ModeMoves(s, steps[0]);
      PendingIsLatest(s);
      PendingIsLatest(Next(s, steps[0]).s);
      RunKeeps(Next(s, steps[0]).s, steps[1..]);
      DecisionsGrow(Next(s, steps[0]).s, steps[1..]);
      PendingIsLatest(Run(s, steps));
      hide Inv, Next, Proper;
    }
  }

  // ---- Verdicts ----

  /** How many votes are cast in a run. */
  ghost function VotesCast(s: State, steps: seq<Step>): nat
    decreases |steps|
  {
    if steps == [] then 0 else (if IsVote(s, steps[0]) then 1 else 0) + VotesCast(Next(s, steps[0]).s, steps[1..])
  }

  /** The action in force stays in force throughout the run. */
  ghost predicate InForce(s: State, steps: seq<Step>)
    decreases |steps|
  {
    s.mode.Controlled? && (steps == [] || InForce(Next(s, steps[0]).s, steps[1..]))
  }

  lemma {:induction false} VotesAreKept(s: State, steps: seq<Step>)
    requires Inv(s) && IsRun(s, steps) && InForce(s, steps)
    ensures var end := Run(s, steps).mode;
            end.Controlled? && end.action == s.mode.action && |end.votes| == |s.mode.votes| + VotesCast(s, steps)
    decreases |steps|
  {
    if steps != [] {
      StepKeeps(s, steps[0]);
      ModeMoves(s, steps[0]);
      VotesAreKept(Next(s, steps[0]).s, steps[1..]);
      hide Inv, Next, Proper, IsVote;
    }
  }

  /**
   From the application of an action, a completion ends control exactly when it is a vote and
   four votes have been cast before it: the verdict falls on five votes, never earlier or later.
   */
  lemma VerdictFallsOnFive(s: State, steps: seq<Step>, r: Request, env: Env)
    requires Inv(s) && IsRun(s, steps) && InForce(s, steps) && s.mode.votes == [] && env.now > 0
    ensures var end := Run(s, steps);
            var last := Step(Completes(r, true), env);
            !Next(end, last).s.mode.Controlled? <==> IsVote(end, last) && VotesCast(s, steps) == SAMPLES - 1
  {
    hide Inv, Run, InForce, VotesCast, IsRun, Votes, Complete;
    RunKeeps(s, steps);
    VotesAreKept(s, steps);
    FifthVoteEnds(Run(s, steps), r, env);
  }

  lemma FifthVoteEnds(s: State, r: Request, env: Env)
    requires Inv(s) && env.now > 0 && s.mode.Controlled?
    ensures !Complete(s, r, true, env).s.mode.Controlled? <==>
              r in s.reqs && Votes(s, r, env.now) && |s.mode.votes| == SAMPLES - 1
  {
    hide Inv, Votes, Mean, CanStart, Latency;
    if r in s.reqs {
      hide Complete;
      Verdict(s, r, env);
    }
  }
}
