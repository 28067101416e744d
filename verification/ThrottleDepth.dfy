/** How many background requests can be under way while an action is in force. */
module ThrottleDepth {
  import opened ThrottleSpec
  import opened ThrottleRuns
  import opened ThrottleCounts

  ghost function BgDepth(s: State): nat {
    Count(s.reqs, IsBgReserved)
  }

  // ---- The target ----

  /** The least depth that is the asked share of the queue. */
  lemma TargetIsShare(level: Level, ratio: nat, queueMax: nat)
    requires level != No && 0 < ratio <= 100 && queueMax > 0
    ensures var target := Target(level, ratio, queueMax);
            1 <= target <= queueMax && 100 * target >= queueMax * ratio && 100 * (target - 1) < queueMax * ratio
  {
    assert queueMax * ratio >= 1 * ratio;
    assert queueMax * ratio <= queueMax * 100;
  }

  /** With ratios in the order that the configuration accepts, a heavier level has no larger target. */
  lemma HeavierIsTighter(config: Config, queueMax: nat)
    requires 0 < config.heavy < config.medium < config.light <= 100
    ensures Target(Heavy, Ratio(config, Heavy), queueMax) <= Target(Medium, Ratio(config, Medium), queueMax)
            <= Target(Light, Ratio(config, Light), queueMax)
  {
    assert queueMax * config.heavy <= queueMax * config.medium <= queueMax * config.light;
  }

  // ---- The bound ----

  /** The dispatcher has been let through and has not started a request since. */
  ghost function TicketAfter(s: State, step: Step, ticket: bool): bool {
    match step.event
    case Asks(demo, dispatching) => if dispatching then Allowed(s, step.env.enabled, demo) else ticket
    case Dispatches(_, _) => false
    case _ => ticket
  }

  /**
   Throttling is on and the demonstration mode off, and the dispatcher starts a background request
   only after the gate has let it through.
   */
  ghost predicate Orderly(s: State, step: Step, ticket: bool) {
    && step.env.enabled
    && (step.event.Asks? ==> !step.event.demo)
    && (StartsBackground(s, step) ==> ticket)
  }

  /** `action` is in force throughout an orderly run. */
  ghost predicate UnderAction(s: State, steps: seq<Step>, action: Action, ticket: bool)
    decreases |steps|
  {
    && s.mode.Controlled? && s.mode.action == action
    && (steps == [] ||
        (Proper(s, steps[0]) && Orderly(s, steps[0], ticket)
         && UnderAction(Next(s, steps[0]).s, steps[1..], action, TicketAfter(s, steps[0], ticket))))
  }

  lemma CompletionLowersDepth(s: State, r: Request, final: bool, env: Env)
    requires Inv(s) && env.now > 0 && s.mode.Controlled?
    ensures Complete(s, r, final, env).s.mode.Controlled? ==> BgDepth(Complete(s, r, final, env).s) <= BgDepth(s)
  {
    if r in s.reqs && final {
      RetiredKeeps(s, r, env);
      CountRemove(s.reqs, r, IsBgReserved);
      hide Retired, Judged, Inv, Triggers, SlowVerdict, Count, RequestsOk;
    }
  }

  lemma ReleaseLowersDepth(s: State, r: Request)
    ensures BgDepth(Requeue(s, r).s) <= BgDepth(s) && BgDepth(Finish(s, r).s) <= BgDepth(s)
  {
    if r in s.reqs {
      var unbound := Unbound(s, r);
      ReleaseFrame(unbound, r);
      var out := Release(unbound, r).s;
      var m := out.reqs[r].(issueTs := 0, issueSession := 0, decision := 0, sampled := false);
      CountUpdate(s.reqs, r, m, IsBgReserved);
      CountRemove(s.reqs, r, IsBgReserved);
      assert out.reqs[r := m] == s.reqs[r := m];
      assert out.reqs - {r} == s.reqs - {r};
    }
    hide Release, Count;
  }

  lemma OneChangesDepth(s: State, r: Request, m: Meta)
    ensures BgDepth(s.(reqs := s.reqs[r := m])) + (if r in s.reqs && s.reqs[r].bgReserved then 1 else 0)
            == BgDepth(s) + (if m.bgReserved then 1 else 0)
  {
    CountUpdate(s.reqs, r, m, IsBgReserved);
  }

  lemma QueueingKeepsDepth(s: State, r: Request, q: QueueClass, io: Io, env: Env)
    ensures r.useSched ==> BgDepth(Classify(s, r, q, io, env).s) == BgDepth(s)
    ensures BgDepth(Update(s, r, io).s) == BgDepth(Unqueue(s, r).s) == BgDepth(s)
  {
    if r in s.reqs {
      OneChangesDepth(s, r, Enqueued(s.reqs[r], env));
      OneChangesDepth(s, r, Dequeued(s.reqs[r]));
      OneChangesDepth(s, r, s.reqs[r].(io := io));
    }
    OneChangesDepth(s, r, Enqueued(Fresh(q, io).(queueClass := q), env));
    hide Count;
  }

  lemma DispatchRaisesDepth(s: State, r: Request, excluded: bool, env: Env)
    requires Inv(s)
    ensures BgDepth(Dispatch(s, r, excluded, env).s)
            <= BgDepth(s) + if Known(s, r) && s.reqs[r].queueClass != Hp then 1 else 0
  {
    if Known(s, r) {
      DispatchFrame(s, r, excluded, env);
      OneChangesDepth(s, r, Noted(s, r, excluded, env));
      OneChangesDepth(s, r, WithDepth(Noted(s, r, excluded, env)));
    }
    hide Count, Dispatch;
  }

  /** The driver issues a background request that has a record and does not count as started: no gate is asked. */
  predicate RestartsBackground(s: State, step: Step) {
    && step.event.Issues? && step.event.r in s.reqs
    && s.reqs[step.event.r].queueClass != Hp && !s.reqs[step.event.r].reserved
  }

  /** An issue raises the background depth in that case and in no other. */
  lemma IssueRaisesDepth(s: State, step: Step)
    requires Inv(s) && step.event.Issues?
    ensures BgDepth(Next(s, step).s) == BgDepth(s) + if RestartsBackground(s, step) then 1 else 0
  {
    var r, env := step.event.r, step.env;
    var m := if r in s.reqs then s.reqs[r] else Fresh(step.event.q, step.event.io);
    OneChangesDepth(s, r, Issued(m, step.event.io, env.now, if env.enabled then s.session else 0));
    assert r in s.reqs ==> MetaOk(s.reqs[r], s.decision);
    hide Count, Inv;
  }

  /** How often a run starts a background request without asking the gate. */
  ghost function Restarts(s: State, steps: seq<Step>): nat
    decreases |steps|
  {
    if steps == [] then 0
    else (if RestartsBackground(s, steps[0]) then 1 else 0) + Restarts(Next(s, steps[0]).s, steps[1..])
  }

  /**
   While the action is in force, the background depth exceeds the larger of its target and the depth
   at the beginning, with one passed dispatch, by no more than the restarts.
   */
  lemma {:induction false} DepthIsBounded(s: State, steps: seq<Step>, action: Action, ticket: bool)
    requires Inv(s) && UnderAction(s, steps, action, ticket) && action.choice.level != No
    ensures var most := BgDepth(s) + if ticket then 1 else 0;
            BgDepth(Run(s, steps)) <= (if most <= action.target then action.target else most) + Restarts(s, steps)
    decreases |steps|
  {
    if steps != [] {
      var next := Next(s, steps[0]).s;
      StepKeeps(s, steps[0]);
      StepChangesDepth(s, steps[0], ticket);
      DepthIsBounded(next, steps[1..], action, TicketAfter(s, steps[0], ticket));
      hide Inv, Next, Proper, BgDepth, Orderly, TicketAfter, RestartsBackground;
    }
  }

  lemma StepChangesDepth(s: State, step: Step, ticket: bool)
    requires Inv(s) && Proper(s, step) && Orderly(s, step, ticket)
    requires s.mode.Controlled? && s.mode.action.choice.level != No && Next(s, step).s.mode.Controlled?
    ensures var after := BgDepth(Next(s, step).s) + if TicketAfter(s, step, ticket) then 1 else 0;
            || after <= BgDepth(s) + (if ticket then 1 else 0) + (if RestartsBackground(s, step) then 1 else 0)
            || after <= s.mode.action.target
  {
    assert BgDepth(s) == Count(s.reqs, IsBgReserved);
    hide Inv, Next, BgDepth, Count, Proper;
    if AboutRequest(step.event) {
      RequestStepChangesDepth(s, step);
    } else {
      SameRequestsSameDepth(s, step);
    }
  }

  predicate StartsBackground(s: State, step: Step) {
    step.event.Dispatches? && Known(s, step.event.r) && s.reqs[step.event.r].queueClass != Hp
  }

  lemma RequestStepChangesDepth(s: State, step: Step)
    requires Inv(s) && Proper(s, step) && AboutRequest(step.event)
    requires s.mode.Controlled? && Next(s, step).s.mode.Controlled?
    ensures BgDepth(Next(s, step).s)
            <= BgDepth(s) + if StartsBackground(s, step) || RestartsBackground(s, step) then 1 else 0
  {
    var env := step.env;
    hide Inv, Classify, Update, Unqueue, Dispatch, Finish, Issue, Requeue, Complete, BgDepth;
    match step.event
    case Classifies(r, q, io) => QueueingKeepsDepth(s, r, q, io, env);
    case Updates(r, io) => QueueingKeepsDepth(s, r, Hp, io, env);
    case Unqueues(r) => QueueingKeepsDepth(s, r, Hp, Io(Read, 0, 0, false, false), env);
    case Dispatches(r, excluded) => DispatchRaisesDepth(s, r, excluded, env);
    case Issues(r, q, io) => IssueRaisesDepth(s, step);
    case Completes(r, final) => CompletionLowersDepth(s, r, final, env);
    case Finishes(r) => ReleaseLowersDepth(s, r);
    case Requeues(r) => ReleaseLowersDepth(s, r);
  }

  lemma SameRequestsSameDepth(s: State, step: Step)
    requires !AboutRequest(step.event) && s.mode.Controlled? && Next(s, step).s.mode.Controlled?
    ensures BgDepth(Next(s, step).s) == BgDepth(s)
  {
    hide Allowed, SnapshotOf, Count;
  }
}
