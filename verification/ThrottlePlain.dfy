/**
 What the regions do, said on the fields alone: every number, flag and condition is written out, and
 nothing is stated through the functions that compute it.
 */
module ThrottlePlain {
  import opened Options
  import opened ThrottleSpec
  import opened ThrottleRuns
  import opened ThrottleTheorems
  import opened ThrottleCounts
  import opened ThrottleDepth

  // ---- The verdict ----

  /** The device time of a completion, in whole microseconds and at most 2^32 - 1. */
  predicate Took(m: Meta, now: nat, us: nat) {
    && 0 < m.issueTs < now
    && if now - m.issueTs < 0x1_0000_0000 * 1000 then us * 1000 <= now - m.issueTs < us * 1000 + 1000
       else us == 0xFFFF_FFFF
  }

  lemma TookIsLatency(m: Meta, now: nat)
    ensures Latency(m, now).Some? <==> 0 < m.issueTs < now
    ensures Latency(m, now).Some? ==> Took(m, now, Latency(m, now).value)
    ensures forall us: nat :: Took(m, now, us) ==> Latency(m, now) == Some(us)
  {
  }

  /** The device time of the completion counts: it is not excluded and has been measured as `us`. */
  predicate Counts(s: State, r: Request, now: nat, us: nat) {
    r in s.reqs && !s.reqs[r].io.excluded && Took(s.reqs[r], now, us)
  }

  /** The completion is remembered among the last five. */
  ghost function WindowWith(s: State, r: Request, env: Env, us: nat): seq<Sample>
    requires r in s.reqs
  {
    var x := Sample(env.now, us, s.reqs[r].cls == Foreground);
    if !env.enabled || s.reqs[r].sampled || s.reqs[r].issueSession != s.session then s.window
    else if |s.window| < 5 then s.window + [x]
    else s.window[1..] + [x]
  }

  /** Five samples, the first and the last of them in order and at most 10 ms apart. */
  predicate Within10Ms(w: seq<Sample>) {
    |w| == 5 && 0 < w[0].ts <= w[4].ts <= w[0].ts + 10_000_000
  }

  lemma CoherentPlain(w: seq<Sample>)
    ensures Coherent(w) <==> Within10Ms(w)
  {
  }

  lemma SampledPlain(s: State, r: Request, env: Env, us: nat)
    requires Counts(s, r, env.now, us)
    ensures Sampled(s, r, env) == s.(window := WindowWith(s, r, env, us))
  {
    TookIsLatency(s.reqs[r], env.now);
  }

  /** There are grounds for a new inference over the window `w`. */
  predicate Grounds(s: State, env: Env, w: seq<Sample>) {
    env.enabled && !s.dying && (env.config.source == Model || (env.queueMax > 0 && Within10Ms(w)))
  }

  /**
   The completion that feedback waits for. The first four votes are noted and feedback waits for
   another dispatch. With the fifth, five latencies that add up to less than five thresholds end
   control; otherwise the next decision is pending if there are grounds for it.
   */
  lemma VotesByLatencies(s: State, r: Request, env: Env, us: nat)
    requires Inv(s) && env.now > 0 && s.mode.Controlled?
    requires s.mode.feedback == WaitComplete(r) && Counts(s, r, env.now, us)
    ensures var v, next := s.mode.votes, Next(s, Step(Completes(r, true), env)).s;
            && |v| < 5
            && (|v| < 4 ==> next.mode == s.mode.(feedback := WaitDispatch,
                                                 votes := v + [Vote(s.mode.action.decision, us)]))
            && (|v| == 4 ==>
                  var sum := v[0].latency + v[1].latency + v[2].latency + v[3].latency + us;
                  if sum >= 5 * env.threshold && Grounds(s, env, WindowWith(s, r, env, us)) then
                    next.mode.Pending? && next.mode.ids == Ids(s.session, s.control, s.decision + 1)
                  else next.mode == Idle && next.window == [] && next.gate == None)
  {
    TookIsLatency(s.reqs[r], env.now);
    SampledPlain(s, r, env, us);
    CoherentPlain(WindowWith(s, r, env, us));
    hide Took, Latency, Within10Ms, Coherent, WindowWith, Sampled;
    var votes := s.mode.votes + [Vote(s.mode.action.decision, us)];
    if |votes| == 5 {
      FiveVotes(votes);
    }
    hide Mean;
    Verdict(s, r, env);
    hide Inv, Complete;
  }

  /** A completion that nothing waits for casts no vote, and nor does one whose device time does not count. */
  lemma OthersDoNotVote(s: State, r: Request, env: Env)
    requires Inv(s) && env.now > 0 && s.mode.Controlled? && r in s.reqs
    requires s.mode.feedback != WaitComplete(r) || s.reqs[r].io.excluded || s.reqs[r].issueTs >= env.now
    ensures var f := s.mode.feedback;
            Next(s, Step(Completes(r, true), env)).s.mode
            == s.mode.(feedback := if f == WaitIssue(r) || f == WaitComplete(r) then WaitDispatch else f)
  {
    TookIsLatency(s.reqs[r], env.now);
    hide Inv, Complete, Latency;
    NoVote(s, r, env);
  }

  /**
   While nothing is under control or pending, a completion starts an inference exactly when the last
   five completions took the threshold or longer each and came within 10 ms.
   */
  lemma SlowWindowStarts(s: State, r: Request, env: Env, us: nat)
    requires Inv(s) && env.now > 0 && s.mode == Idle && Counts(s, r, env.now, us)
    ensures var w, next := WindowWith(s, r, env, us), Next(s, Step(Completes(r, true), env)).s;
            && next.window == w
            && if env.enabled && !s.reqs[r].sampled && s.reqs[r].issueSession == s.session
                  && Within10Ms(w) && (forall i :: 0 <= i < 5 ==> w[i].latency >= env.threshold)
                  && !s.dying && (env.config.source == Model || env.queueMax > 0)
               then next.mode.Pending? && next.mode.ids == Ids(s.session, s.control + 1, s.decision + 1)
               else next.mode == Idle
  {
    var w := WindowWith(s, r, env, us);
    TookIsLatency(s.reqs[r], env.now);
    SampledPlain(s, r, env, us);
    CoherentPlain(w);
    hide Took, Latency, Within10Ms, Coherent, WindowWith, Sampled;
    Trigger(s, r, env);
    hide Inv, Complete;
  }

  /** A completion whose device time does not count leaves no sample and starts nothing. */
  lemma UncountedLeavesNothing(s: State, r: Request, env: Env)
    requires Inv(s) && env.now > 0 && !s.mode.Controlled? && r in s.reqs
    requires s.reqs[r].io.excluded || s.reqs[r].issueTs >= env.now || s.reqs[r].issueTs == 0
    ensures var next := Next(s, Step(Completes(r, true), env)).s; next.mode == s.mode && next.window == s.window
  {
    TookIsLatency(s.reqs[r], env.now);
    hide Inv, Complete, Latency;
    Trigger(s, r, env);
  }

  // ---- The action ----

  /**
   An action comes into force with the percentage that the configuration of its inference gives for
   its level, for the queue depth at that moment; its target is the least depth that is that share.
   */
  lemma AppliedAction(s: State, step: Step)
    requires Inv(s) && Proper(s, step) && !s.mode.Controlled? && Next(s, step).s.mode.Controlled?
    ensures s.mode.Pending? && step.event.Works? && step.event.choice.Some?
    ensures var next, config, queueMax := Next(s, step).s, s.mode.config, step.env.queueMax;
            var action := next.mode.action;
            && action.choice == step.event.choice.value && action.decision == s.decision
            && action.queueMax == queueMax > 0
            && (action.choice.level == No ==> action.ratio == 0 && action.target == 0)
            && (action.choice.level == Light ==> action.ratio == config.light)
            && (action.choice.level == Medium ==> action.ratio == config.medium)
            && (action.choice.level == Heavy ==> action.ratio == config.heavy)
            && (action.choice.level != No ==>
                  && 0 < action.ratio <= 100 && 0 < action.target <= queueMax
                  && 100 * action.target >= queueMax * action.ratio > 100 * (action.target - 1))
            && next.mode.feedback == WaitDispatch && next.mode.votes == []
            && next.mode.postApply == (step.event.source == Model)
            && next == s.(mode := next.mode, gate := None)
  {
    OnlyPendingIsApplied(s, step);
    WorkerStep(s, step);
    hide Inv, Next;
    var action := Next(s, step).s.mode.action;
    if action.choice.level != No {
      TargetIsShare(action.choice.level, action.ratio, step.env.queueMax);
    }
  }

  /** An answer that is an error, or a level without a usable percentage, gives up control if it is still asked for. */
  lemma FailedAnswer(s: State, step: Step)
    requires step.event.Works? && s.mode.Pending? && !s.mode.timedOut && s.mode.ids == step.event.ids
    ensures var next, config := Next(s, step).s, s.mode.config;
            next == s.(mode := Idle, gate := None, window := []) <==>
              || step.event.choice.None? || step.env.queueMax == 0
              || (!s.dying &&
                  match step.event.choice.value.level
                  case No => false
                  case Light => !(1 <= config.light <= 100)
                  case Medium => !(1 <= config.medium <= 100)
                  case Heavy => !(1 <= config.heavy <= 100))
  {
  }

  /** What the worker has read it may apply: nothing but the choice itself decides whether it comes into force. */
  lemma ReadIsCurrent(s: State, choice: Choice, env: Env)
    requires Inv(s) && env.now > 0 && env.queueMax > 0
    requires s.mode.Pending? && WorkerRead(s) == Some(s.mode)
    requires choice.level == No || 1 <= s.mode.config.heavy <= s.mode.config.medium <= s.mode.config.light <= 100
    ensures Next(s, Step(Works(s.mode.ids, s.mode.config.source, Some(choice)), env)).s.mode.Controlled?
  {
  }

  // ---- The gate ----

  lemma CountIs(reqs: Requests, p: Meta -> bool, chosen: set<Request>)
    requires forall r :: r in chosen <==> r in reqs && p(reqs[r])
    ensures Count(reqs, p) == |chosen|
  {
    assert chosen == set r | r in reqs && p(reqs[r]);
  }

  /** The background requests that the dispatcher or the driver has started. */
  ghost function StartedBg(s: State): nat {
    |set r | r in s.reqs && s.reqs[r].bgReserved|
  }

  lemma StartedBgIsDepth(s: State)
    ensures StartedBg(s) == BgDepth(s)
  {
    CountIs(s.reqs, IsBgReserved, set r | r in s.reqs && s.reqs[r].bgReserved);
  }

  /**
   Who asks is turned away exactly if throttling is on without the demonstration mode and either an
   inference is pending or an action of a level other than No has its target reached. Under a level of
   No nobody is turned away.
   */
  lemma TurnedAway(s: State, demo: bool, dispatching: bool, env: Env)
    ensures var allowed, next := Allowed(s, env.enabled, demo), Next(s, Step(Asks(demo, dispatching), env)).s;
            && (!allowed <==>
                  env.enabled && !demo &&
                  (s.mode.Pending? ||
                   (s.mode.Controlled? && s.mode.action.choice.level != No && StartedBg(s) >= s.mode.action.target)))
            && next == s.(gate := if allowed then s.gate else if s.mode.Pending? then Some(Inference) else Some(Depth))
  {
    StartedBgIsDepth(s);
  }

  // ---- Waiting ----

  /** The requests of a class that wait to be dispatched. */
  ghost function Waiting(s: State, c: Class): nat {
    |set r | r in s.reqs && s.reqs[r].queued && s.reqs[r].cls == c|
  }

  lemma WaitingIsCount(s: State)
    ensures Waiting(s, Foreground) == Count(s.reqs, IsWaitingFg) && Waiting(s, Background) == Count(s.reqs, IsWaitingBg)
  {
    CountIs(s.reqs, IsWaitingFg, set r | r in s.reqs && s.reqs[r].queued && s.reqs[r].cls == Foreground);
    CountIs(s.reqs, IsWaitingBg, set r | r in s.reqs && s.reqs[r].queued && s.reqs[r].cls == Background);
  }

  lemma WaitingMoves(s: State, r: Request, m: Meta)
    ensures forall c :: Waiting(s.(reqs := s.reqs[r := m]), c)
                        + (if r in s.reqs && s.reqs[r].queued && s.reqs[r].cls == c then 1 else 0)
                        == Waiting(s, c) + if m.queued && m.cls == c then 1 else 0
  {
    WaitingIsCount(s);
    WaitingIsCount(s.(reqs := s.reqs[r := m]));
    CountUpdate(s.reqs, r, m, IsWaitingFg);
    CountUpdate(s.reqs, r, m, IsWaitingBg);
    hide Waiting, Count;
    forall c
      ensures Waiting(s.(reqs := s.reqs[r := m]), c)
              + (if r in s.reqs && s.reqs[r].queued && s.reqs[r].cls == c then 1 else 0)
              == Waiting(s, c) + if m.queued && m.cls == c then 1 else 0
    {
      assert c == Foreground || c == Background;
    }
  }

  /** A new request waits from its arrival on, in the foreground exactly if it is of high priority. */
  lemma ArrivalWaits(s: State, r: Request, q: QueueClass, io: Io, env: Env)
    requires r.useSched && r !in s.reqs && |s.reqs| != s.capacity
    ensures var next := Next(s, Step(Classifies(r, q, io), env)).s;
            && next == s.(reqs := s.reqs[r := next.reqs[r]])
            && next.reqs[r] == Meta(if q == Hp then Foreground else Background, q, io, true,
                                    if q != Hp && env.enabled then env.now else 0,
                                    false, false, false, false, 0, 0, 0, false)
            && Waiting(next, Background) == Waiting(s, Background) + (if q == Hp then 0 else 1)
            && Waiting(next, Foreground) == Waiting(s, Foreground) + (if q == Hp then 1 else 0)
  {
    var next := Next(s, Step(Classifies(r, q, io), env)).s;
    WaitingMoves(s, r, next.reqs[r]);
    hide Waiting;
  }

  /** One that has a record waits again from its next arrival on, and its time is kept or, in the background, set. */
  lemma ReturnWaits(s: State, r: Request, q: QueueClass, io: Io, env: Env)
    requires r.useSched && r in s.reqs && !s.reqs[r].queued
    ensures var m, next := s.reqs[r], Next(s, Step(Classifies(r, q, io), env)).s;
            && next == s.(reqs := s.reqs[r := m.(queued := true,
                                                 queuedTs := if m.cls == Background && env.enabled then env.now
                                                             else m.queuedTs)])
            && forall c :: Waiting(next, c) == Waiting(s, c) + if m.cls == c then 1 else 0
  {
    var next := Next(s, Step(Classifies(r, q, io), env)).s;
    WaitingMoves(s, r, next.reqs[r]);
    hide Waiting;
  }

  /** A request that leaves the lists by a merge waits no longer; nothing else changes. */
  lemma MergedWaitsNoLonger(s: State, r: Request, env: Env)
    requires r.useSched && r in s.reqs && s.reqs[r].queued
    ensures var m, next := s.reqs[r], Next(s, Step(Unqueues(r), env)).s;
            && next == s.(reqs := s.reqs[r := m.(queued := false, queuedTs := 0)])
            && forall c :: Waiting(next, c) + (if m.cls == c then 1 else 0) == Waiting(s, c)
  {
    var next := Next(s, Step(Unqueues(r), env)).s;
    WaitingMoves(s, r, next.reqs[r]);
    hide Waiting;
  }

  /** An arrival that meets an exhausted pool is counted and gives up control. */
  lemma MissedArrival(s: State, r: Request, q: QueueClass, io: Io, env: Env)
    requires r !in s.reqs && |s.reqs| == s.capacity
    ensures Next(s, Step(Classifies(r, q, io), env)).s == Next(s, Step(Issues(r, q, io), env)).s
            == s.(mode := Idle, gate := None, window := [], anomalies := s.anomalies + 1)
  {
  }

  /**
   A background arrival while a model inference waits for one: at its next look the dispatcher hands
   the inference to the model thread if that is free, and gives up control if it is not.
   */
  lemma ArrivalMakesModelDue(s: State, r: Request, q: QueueClass, io: Io, env: Env, later: Env, free: bool)
    requires r.useSched && r !in s.reqs && |s.reqs| != s.capacity && q != Hp && later.enabled
    requires s.mode.Pending? && !s.mode.running && s.mode.config.source == Model
    ensures var waiting := Next(s, Step(Classifies(r, q, io), env)).s;
            Next(waiting, Step(ModelDispatches(free), later)).s
            == if free then waiting.(mode := s.mode.(running := true))
               else waiting.(mode := Idle, gate := None, window := [])
  {
    ArrivalWaits(s, r, q, io, env);
    WaitingIsCount(Next(s, Step(Classifies(r, q, io), env)).s);
    hide Count, Waiting;
  }

  /** Without a background request that waits, nothing is handed over, and nor is it twice. */
  lemma NotDueTwice(s: State, free: bool, env: Env)
    requires !s.mode.Pending? || s.mode.running || s.mode.config.source != Model || Waiting(s, Background) == 0
    ensures Next(s, Step(ModelDispatches(free), env)).s == s
  {
    WaitingIsCount(s);
    hide Waiting, Count;
  }
}
