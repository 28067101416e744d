/** What every run of the throttle controller keeps. */
module ThrottleRuns {
  import opened Options
  import opened ThrottleSpec

  // ---- The invariant ----

  ghost predicate MetaOk(m: Meta, decision: nat) {
    && (m.bgReserved <==> m.reserved && m.queueClass != Hp)
    && (m.issued ==> m.reserved)
    && (m.issued <==> m.issueTs > 0)
    && (m.indexed <==> m.issued && ReadOrWrite(m.io.op))
    && !m.sampled
    && (!m.queued ==> m.queuedTs == 0)
    && m.decision <= decision
  }

  ghost predicate RequestsOk(reqs: Requests, decision: nat) {
    forall r :: r in reqs ==> MetaOk(reqs[r], decision)
  }

  /** The request that feedback waits for was dispatched under the action in force. */
  ghost predicate FeedbackOk(feedback: Feedback, reqs: Requests, decision: nat) {
    match feedback
    case NoFeedback => false
    case WaitDispatch => true
    case WaitIssue(r) => r in reqs && reqs[r].reserved && reqs[r].decision == decision
    case WaitComplete(r) => r in reqs && reqs[r].issued && reqs[r].decision == decision
  }

  ghost predicate ModeOk(s: State) {
    match s.mode
    case Idle => true
    case Pending(ids, config, snapshot, _, _) =>
      ids == Ids(s.session, s.control, s.decision) && (config.source == Fixed ==> snapshot.Some?)
    case Controlled(action, feedback, votes, _) =>
      && action.decision == s.decision
      && |votes| < SAMPLES && (forall v <- votes :: v.decision == action.decision)
      && (action.choice.level == No || 1 <= action.target <= action.queueMax)
      && FeedbackOk(feedback, s.reqs, action.decision)
  }

  ghost predicate WindowOk(w: seq<Sample>) {
    |w| <= SAMPLES && forall x <- w :: x.ts > 0 && x.latency <= U32_MAX
  }

  ghost predicate Inv(s: State) {
    |s.reqs| <= s.capacity && RequestsOk(s.reqs, s.decision) && ModeOk(s) && WindowOk(s.window)
  }

  lemma MoreCards(reqs: Requests, r: Request, m: Meta)
    ensures |reqs[r := m]| == if r in reqs then |reqs| else |reqs| + 1
    ensures r in reqs ==> |reqs - {r}| == |reqs| - 1
  {
    assert reqs[r := m].Keys == reqs.Keys + {r};
    assert (reqs - {r}).Keys == reqs.Keys - {r};
    assert |reqs| == |reqs.Keys| && |reqs[r := m]| == |reqs[r := m].Keys| && |reqs - {r}| == |(reqs - {r}).Keys|;
  }

  /** The bookkeeping of one request changes; what feedback needs of it stays. */
  lemma OneChanges(s: State, r: Request, m: Meta)
    requires Inv(s) && MetaOk(m, s.decision)
    requires r in s.reqs || |s.reqs| < s.capacity
    requires Binds(s.mode, r) ==> FeedbackOk(s.mode.feedback, s.reqs[r := m], s.mode.action.decision)
    ensures Inv(s.(reqs := s.reqs[r := m]))
  {
    MoreCards(s.reqs, r, m);
  }

  lemma FallbackKeeps(s: State)
    requires |s.reqs| <= s.capacity && RequestsOk(s.reqs, s.decision)
    ensures Inv(Fallback(s).s)
  {
  }

  lemma ClassifyKeeps(s: State, r: Request, q: QueueClass, io: Io, env: Env)
    requires Inv(s)
    ensures r.useSched ==> Inv(Classify(s, r, q, io, env).s)
  {
    if r.useSched && (r in s.reqs || |s.reqs| < s.capacity) {
      OneChanges(s, r, if r in s.reqs then Enqueued(s.reqs[r], env) else Enqueued(Fresh(q, io).(queueClass := q), env));
    }
  }

  function Noted(s: State, r: Request, excluded: bool, env: Env): Meta
    requires r in s.reqs
  {
    var m := s.reqs[r];
    Dequeued(m.(io := m.io.(excluded := excluded),
                decision := if env.enabled && s.mode.Controlled? then s.mode.action.decision else 0))
  }

  /** A second dispatch of a started request gives up control; a first one changes the request and the feedback. */
  lemma DispatchFrame(s: State, r: Request, excluded: bool, env: Env)
    requires Known(s, r)
    ensures var out, m := Dispatch(s, r, excluded, env), Noted(s, r, excluded, env);
            && m.reserved == s.reqs[r].reserved
            && if m.reserved then out == Outcome(Anomaly(s.(reqs := s.reqs[r := m])).s, true)
               else
                 && out.s == s.(reqs := s.reqs[r := WithDepth(m)], mode := out.s.mode) && !out.wake
                 && (!s.mode.Controlled? ==> out.s.mode == s.mode)
                 && (s.mode.Controlled? ==>
                       out.s.mode == s.mode.(postApply := false,
                                             feedback := if env.enabled && !excluded && s.mode.feedback == WaitDispatch
                                                         then WaitIssue(r) else s.mode.feedback))
  {
  }

  lemma DispatchKeeps(s: State, r: Request, excluded: bool, env: Env)
    requires Inv(s)
    ensures Inv(Dispatch(s, r, excluded, env).s)
  {
    hide Dispatch, Noted, MetaOk, WindowOk, RequestsOk;
    if Known(s, r) {
      DispatchFrame(s, r, excluded, env);
      var m := Noted(s, r, excluded, env);
      NotedOk(s, r, excluded, env);
      BoundIsReserved(s, r);
      MoreCards(s.reqs, r, m);
      if m.reserved {
        FallbackKeeps(s.(anomalies := s.anomalies + 1, reqs := s.reqs[r := m]));
      } else {
        OneChanges(s, r, WithDepth(m));
      }
    } else {
      assert Dispatch(s, r, excluded, env) == Anomaly(s) by {
        UnknownDispatch(s, r, excluded, env);
      }
      FallbackKeeps(s.(anomalies := s.anomalies + 1));
    }
  }

  lemma UnknownDispatch(s: State, r: Request, excluded: bool, env: Env)
    requires !Known(s, r)
    ensures Dispatch(s, r, excluded, env) == Anomaly(s)
  {
  }

  lemma BoundIsReserved(s: State, r: Request)
    requires Inv(s)
    ensures Binds(s.mode, r) ==> r in s.reqs && s.reqs[r].reserved
  {
    assert r in s.reqs ==> MetaOk(s.reqs[r], s.decision);
  }

  lemma NotedOk(s: State, r: Request, excluded: bool, env: Env)
    requires Inv(s) && r in s.reqs
    ensures var m := Noted(s, r, excluded, env);
            && MetaOk(m, s.decision) && m.reserved == s.reqs[r].reserved
               && (!m.reserved ==> MetaOk(WithDepth(m), s.decision))
            && (env.enabled && s.mode.Controlled? ==> m.decision == s.mode.action.decision)
            && RequestsOk(s.reqs[r := m], s.decision)
  {
  }

  /** Releasing touches the request and the gate, and nothing else. */
  lemma ReleaseFrame(s: State, r: Request)
    requires r in s.reqs
    ensures var out := Release(s, r).s;
            out == s.(gate := out.gate, reqs := s.reqs[r := Cleared(s.reqs[r])])
  {
  }

  lemma RequeueKeeps(s: State, r: Request)
    requires Inv(s)
    ensures Inv(Requeue(s, r).s)
  {
    if r in s.reqs {
      var unbound := Unbound(s, r);
      ReleaseFrame(unbound, r);
      var m := Release(unbound, r).s.reqs[r].(issueTs := 0, issueSession := 0, decision := 0, sampled := false);
      OneChanges(unbound, r, m);
      assert Release(unbound, r).s.reqs[r := m] == s.reqs[r := m];
    }
  }

  lemma ForgetKeeps(s: State, r: Request)
    requires r in s.reqs && Inv(s) && !Binds(s.mode, r)
    ensures Inv(Forget(Release(s, r).s, r))
  {
    ReleaseFrame(s, r);
    var out := Release(s, r).s;
    MoreCards(s.reqs, r, s.reqs[r]);
    assert out.reqs - {r} == s.reqs - {r};
  }

  lemma IssueKeeps(s: State, r: Request, q: QueueClass, io: Io, env: Env)
    requires Inv(s) && env.now > 0
    requires r in s.reqs && s.reqs[r].issued ==> io.op == s.reqs[r].io.op
    ensures Inv(Issue(s, r, q, io, env).s)
  {
    var m := if r in s.reqs then s.reqs[r] else Fresh(q, io);
    var session := if env.enabled then s.session else 0;
    if r in s.reqs || |s.reqs| < s.capacity {
      assert MetaOk(m, s.decision);
      assert FeedbackOf(s.mode) == WaitIssue(r) ==> r in s.reqs;
      IssuedOk(m, io, env.now, session, s.decision);
      hide Issued, MetaOk;
      OneChanges(s, r, Issued(m, io, env.now, session));
      hide RequestsOk, WindowOk;
    } else {
      hide RequestsOk, WindowOk;
      FallbackKeeps(s);
    }
  }

  lemma IssuedOk(m: Meta, io: Io, now: nat, session: nat, decision: nat)
    requires MetaOk(m, decision) && now > 0 && (m.issued ==> io.op == m.io.op)
    ensures var issued := Issued(m, io, now, session);
            MetaOk(issued, decision) && issued.issued && issued.reserved && issued.decision == m.decision
  {
  }

  lemma StartedKeeps(s: State, newControl: bool, env: Env)
    requires |s.reqs| <= s.capacity && RequestsOk(s.reqs, s.decision) && WindowOk(s.window)
    ensures Started(s, newControl, env).Some? ==> Inv(Started(s, newControl, env).value)
  {
  }

  lemma SampledKeeps(s: State, r: Request, env: Env)
    requires Inv(s) && r in s.reqs && env.now > 0
    ensures Inv(Sampled(s, r, env))
  {
  }

  /** What a completion does to the mode before the request leaves. */
  lemma JudgedFrame(s: State, r: Request, env: Env)
    requires r in s.reqs
    ensures var out := Judged(s, r, env).s;
            && out == s.(mode := out.mode, window := out.window, gate := out.gate)
            && !Binds(out.mode, r)
            && (out.window == [] || out.window == Sampled(s, r, env).window)
            && (if !s.mode.Controlled? then out.mode == s.mode
                else if !Votes(s, r, env.now) then
                  out.mode == s.mode.(feedback := if Binds(s.mode, r) then WaitDispatch else s.mode.feedback)
                else if |s.mode.votes| + 1 != SAMPLES then
                  out.mode == WithVote(s, r, env.now).mode.(feedback := WaitDispatch)
                else if SlowVerdict(s, r, env) then
                  out.mode == WithVote(s, r, env.now).mode.(feedback := NoFeedback)
                else out.mode == Idle && out.gate == None && out.window == [])
            && (out.mode != Idle || s.mode == Idle ==> out.gate == s.gate && out.window == Sampled(s, r, env).window)
  {
    hide Mean, Eligible, SampleOf, Pushed;
    var sampled := Sampled(s, r, env);
    assert Votes(sampled, r, env.now) <==> Votes(s, r, env.now);
    hide Latency;
    if !Votes(s, r, env.now) {
      hide AfterVote, WithVote, StaysSlow;
    } else {
      hide Votes, Unbound;
    }
  }

  /** After the vote the request is no longer bound; only the slow verdict leaves control open for a moment. */
  lemma JudgedKeeps(s: State, r: Request, env: Env)
    requires Inv(s) && r in s.reqs && env.now > 0
    ensures WindowOk(Judged(s, r, env).s.window)
    ensures Inv(Judged(s, r, env).s) || SlowVerdict(s, r, env)
  {
    SampledKeeps(s, r, env);
    JudgedFrame(s, r, env);
    hide RequestsOk, WindowOk, Judged, SlowVerdict, Sampled, Latency;
  }

  lemma RetiredKeeps(s: State, r: Request, env: Env)
    requires Inv(s) && r in s.reqs && env.now > 0
    ensures var out, judged := Retired(s, r, env).s, Judged(s, r, env).s;
            && out == s.(reqs := s.reqs - {r}, mode := judged.mode, window := judged.window, gate := out.gate)
            && |out.reqs| <= out.capacity && RequestsOk(out.reqs, out.decision) && WindowOk(out.window)
            && (Inv(out) || SlowVerdict(s, r, env))
  {
    JudgedFrame(s, r, env);
    JudgedKeeps(s, r, env);
    var judged := Judged(s, r, env).s;
    hide Judged, SlowVerdict, MetaOk, WindowOk, Binds;
    ReleaseFrame(judged, r);
    var out := Retired(s, r, env).s;
    assert out.reqs == s.reqs - {r};
    MoreCards(s.reqs, r, s.reqs[r]);
    if Inv(judged) {
      ForgetKeeps(judged, r);
    }
  }

  lemma CompleteKeeps(s: State, r: Request, final: bool, env: Env)
    requires Inv(s) && env.now > 0
    ensures Inv(Complete(s, r, final, env).s)
  {
    if r in s.reqs && final {
      RetiredKeeps(s, r, env);
      var rest := Retired(s, r, env).s;
      StartedKeeps(rest, Triggers(s, r, env), env);
      FallbackKeeps(rest);
      hide Inv, Retired, Judged, Triggers, SlowVerdict, Fallback, Started;
    }
  }

  /** The mean of five votes, in whole microseconds. */
  lemma FiveVotes(v: seq<Vote>)
    requires |v| == 5
    ensures 5 * Mean(v) <= v[0].latency + v[1].latency + v[2].latency + v[3].latency + v[4].latency < 5 * Mean(v) + 5
  {
    var v4, v3, v2, v1 := v[..4], v[..3], v[..2], v[..1];
    assert v4[..3] == v3 && v3[..2] == v2 && v2[..1] == v1 && v1[..0] == [];
    assert Total(v1[..0]) == 0;
    assert Total(v1) == v[0].latency && Total(v2) == Total(v1) + v[1].latency;
    assert Total(v3) == Total(v2) + v[2].latency && Total(v4) == Total(v3) + v[3].latency;
    assert Total(v) == Total(v4) + v[4].latency;
  }

  /** An inference can be started over this window. */
  predicate CanStart(s: State, window: seq<Sample>, env: Env) {
    env.enabled && !s.dying && (env.config.source == Model || (env.queueMax > 0 && Coherent(window)))
  }

  lemma StartedWhen(s: State, newControl: bool, env: Env)
    requires !s.mode.Pending?
    ensures Started(s, newControl, env).Some? <==> CanStart(s, s.window, env)
    ensures Started(s, newControl, env).Some? ==>
              var started, control := Started(s, newControl, env).value, s.control + if newControl then 1 else 0;
              && started.mode.Pending?
              && started == s.(control := control, decision := s.decision + 1, mode := started.mode)
              && started.mode == Pending(Ids(s.session, control, s.decision + 1), env.config, started.mode.snapshot,
                                         false, false)
  {
  }

  /**
   The last completion of a request while an action is in force: only the fifth vote ends
   control. A mean below the threshold, or the lack of grounds for a new inference, then ends
   it for good; otherwise the next decision is pending, in the same stretch of control.
   */
  lemma Verdict(s: State, r: Request, env: Env)
    requires Inv(s) && env.now > 0 && r in s.reqs && s.mode.Controlled?
    ensures var next := Complete(s, r, true, env).s;
            && next.session == s.session && next.control == s.control && next.anomalies == s.anomalies
            && next.capacity == s.capacity
            && (!next.mode.Idle? ==> next.window == Sampled(s, r, env).window)
            && if !Votes(s, r, env.now) then
                 && next.mode == s.mode.(feedback := if Binds(s.mode, r) then WaitDispatch else s.mode.feedback)
                 && next.decision == s.decision
               else
                 var votes := s.mode.votes + [Vote(s.mode.action.decision, Latency(s.reqs[r], env.now).value)];
                 && (forall v <- votes :: v.decision == s.mode.action.decision)
                 && if |votes| < SAMPLES then
                      next.mode == s.mode.(feedback := WaitDispatch, votes := votes) && next.decision == s.decision
                    else if Mean(votes) >= env.threshold && CanStart(s, Sampled(s, r, env).window, env) then
                      && |votes| == SAMPLES && next.decision == s.decision + 1
                      && next.mode.Pending? && next.mode.ids == Ids(s.session, s.control, s.decision + 1)
                    else |votes| == SAMPLES && next.mode == Idle && next.window == [] && next.gate == None
                         && next.decision == s.decision
  {
    hide Inv, Complete, Votes, Latency, Mean, CanStart, Sampled;
    if !Votes(s, r, env.now) {
      NoVote(s, r, env);
    } else {
      OneVote(s, r, env);
    }
  }

  lemma NoVote(s: State, r: Request, env: Env)
    requires Inv(s) && env.now > 0 && r in s.reqs && s.mode.Controlled? && !Votes(s, r, env.now)
    ensures var next := Complete(s, r, true, env).s;
            && next.session == s.session && next.control == s.control && next.anomalies == s.anomalies
            && next.capacity == s.capacity
            && next.decision == s.decision
            && next.mode == s.mode.(feedback := if Binds(s.mode, r) then WaitDispatch else s.mode.feedback)
            && next.window == Sampled(s, r, env).window
  {
    JudgedFrame(s, r, env);
    RetiredKeeps(s, r, env);
    hide Inv, Judged, Retired, RequestsOk, WindowOk, Sampled, Latency;
  }

  lemma OneVote(s: State, r: Request, env: Env)
    requires Inv(s) && env.now > 0 && r in s.reqs && s.mode.Controlled? && Votes(s, r, env.now)
    ensures var next := Complete(s, r, true, env).s;
            var votes := s.mode.votes + [Vote(s.mode.action.decision, Latency(s.reqs[r], env.now).value)];
            && next.session == s.session && next.control == s.control && next.anomalies == s.anomalies
            && next.capacity == s.capacity
            && (!next.mode.Idle? ==> next.window == Sampled(s, r, env).window)
            && (forall v <- votes :: v.decision == s.mode.action.decision)
            && if |votes| < SAMPLES then
                 next.mode == s.mode.(feedback := WaitDispatch, votes := votes) && next.decision == s.decision
               else if Mean(votes) >= env.threshold && CanStart(s, Sampled(s, r, env).window, env) then
                 && |votes| == SAMPLES && next.decision == s.decision + 1
                 && next.mode.Pending? && next.mode.ids == Ids(s.session, s.control, s.decision + 1)
               else |votes| == SAMPLES && next.mode == Idle && next.window == [] && next.gate == None
                    && next.decision == s.decision
  {
    VoteIsUnderAction(s, r, env);
    hide Inv, Complete, Votes, Latency, Mean, CanStart, Sampled;
    if |s.mode.votes| + 1 < SAMPLES {
      EarlyVote(s, r, env);
    } else if SlowVerdict(s, r, env) {
      SlowFifthVote(s, r, env);
    } else {
      RecoveredFifthVote(s, r, env);
    }
  }

  /** The vote that is being cast counts for the action in force, as those before it do. */
  lemma VoteIsUnderAction(s: State, r: Request, env: Env)
    requires Inv(s) && r in s.reqs && s.mode.Controlled? && Votes(s, r, env.now)
    ensures |s.mode.votes| < SAMPLES && forall v <- s.mode.votes :: v.decision == s.mode.action.decision
    ensures s.reqs[r].decision == s.mode.action.decision && !Triggers(s, r, env)
    ensures WithVote(s, r, env.now).mode
            == s.mode.(votes := s.mode.votes + [Vote(s.mode.action.decision, Latency(s.reqs[r], env.now).value)])
    ensures !SlowVerdict(s, r, env) <==>
              (|s.mode.votes| + 1 == SAMPLES ==> Mean(WithVote(s, r, env.now).mode.votes) < env.threshold)
  {
    hide Mean, RequestsOk, WindowOk;
  }

  lemma EarlyVote(s: State, r: Request, env: Env)
    requires Inv(s) && env.now > 0 && r in s.reqs && s.mode.Controlled? && Votes(s, r, env.now)
    requires |s.mode.votes| + 1 < SAMPLES && !Triggers(s, r, env) && !SlowVerdict(s, r, env)
    ensures var next := Complete(s, r, true, env).s;
            && next == s.(reqs := next.reqs, gate := next.gate, mode := next.mode, window := Sampled(s, r, env).window)
            && next.mode == WithVote(s, r, env.now).mode.(feedback := WaitDispatch)
  {
    hide Inv, Votes, Triggers, SlowVerdict, Judged, Retired, RequestsOk, WindowOk, Sampled;
    JudgedFrame(s, r, env);
    RetiredKeeps(s, r, env);
  }

  lemma SlowFifthVote(s: State, r: Request, env: Env)
    requires Inv(s) && env.now > 0 && r in s.reqs && s.mode.Controlled? && Votes(s, r, env.now)
    requires |s.mode.votes| + 1 == SAMPLES && !Triggers(s, r, env) && SlowVerdict(s, r, env)
    ensures var next := Complete(s, r, true, env).s;
            && next.session == s.session && next.control == s.control && next.anomalies == s.anomalies
            && next.capacity == s.capacity
            && if CanStart(s, Sampled(s, r, env).window, env) then
                 && next.window == Sampled(s, r, env).window && next.decision == s.decision + 1
                 && next.mode.Pending? && next.mode.ids == Ids(s.session, s.control, s.decision + 1)
               else next.mode == Idle && next.window == [] && next.gate == None && next.decision == s.decision
  {
    hide Inv, Votes, Triggers, SlowVerdict, Judged, Retired, Started, Coherent, RequestsOk, WindowOk, Sampled;
    JudgedFrame(s, r, env);
    RetiredKeeps(s, r, env);
    StartedWhen(Retired(s, r, env).s, false, env);
  }

  lemma RecoveredFifthVote(s: State, r: Request, env: Env)
    requires Inv(s) && env.now > 0 && r in s.reqs && s.mode.Controlled? && Votes(s, r, env.now)
    requires |s.mode.votes| + 1 == SAMPLES && !Triggers(s, r, env) && !SlowVerdict(s, r, env)
    ensures var next := Complete(s, r, true, env).s;
            next == s.(reqs := next.reqs, gate := None, mode := Idle, window := [])
  {
    hide Inv, Votes, Triggers, SlowVerdict, Judged, RequestsOk, WindowOk, Sampled, CanRun;
    JudgedFrame(s, r, env);
    RetiredKeeps(s, r, env);
  }

  /**
   Without control, a completion changes the mode in one case only: it is the fifth sample of a
   slow window, nothing is under way and an inference can start. That opens a new stretch of control.
   */
  lemma Trigger(s: State, r: Request, env: Env)
    requires Inv(s) && env.now > 0 && r in s.reqs && !s.mode.Controlled?
    ensures var next := Complete(s, r, true, env).s;
            && next.session == s.session && next.anomalies == s.anomalies && next.capacity == s.capacity
            && next.window == Sampled(s, r, env).window
            && if Triggers(s, r, env) && CanStart(s, next.window, env) then
                 && next.control == s.control + 1 && next.decision == s.decision + 1
                 && next.mode.Pending? && next.mode.ids == Ids(s.session, s.control + 1, s.decision + 1)
               else next.mode == s.mode && next.control == s.control && next.decision == s.decision
  {
    hide Inv, Judged, Retired, Started, Coherent, Sampled, RequestsOk, WindowOk, Eligible;
    JudgedFrame(s, r, env);
    RetiredKeeps(s, r, env);
    if Triggers(s, r, env) {
      StartedWhen(Retired(s, r, env).s, true, env);
    }
  }

  lemma WorkerKeeps(s: State, ids: Ids, source: Source, choice: Option<Choice>, queueMax: nat)
    requires Inv(s)
    ensures Inv(WorkerApply(s, ids, source, choice, queueMax).s) && Inv(WorkerReads(s).s)
  {
  }

  lemma ResetKeeps(s: State, newSession: bool, now: nat)
    requires Inv(s)
    ensures Inv(Reset(s, newSession, now).s)
  {
    var reqs := Reset(s, newSession, now).s.reqs;
    assert reqs.Keys == s.reqs.Keys;
    assert |reqs| == |reqs.Keys| && |s.reqs| == |s.reqs.Keys|;
  }

  lemma FinishKeeps(s: State, r: Request)
    requires Inv(s)
    ensures Inv(Finish(s, r).s)
  {
    if Known(s, r) {
      ForgetKeeps(Unbound(s, r), r);
    }
  }

  lemma UpdateKeeps(s: State, r: Request, io: Io)
    requires Inv(s)
    ensures Inv(Update(s, r, io).s) && Inv(Unqueue(s, r).s)
  {
    if Known(s, r) {
      OneChanges(s, r, Dequeued(s.reqs[r]));
      if !s.reqs[r].issued {
        OneChanges(s, r, s.reqs[r].(io := io));
      }
    }
  }

  lemma InferenceKeeps(s: State, env: Env, free: bool)
    requires Inv(s)
    ensures Inv(ModelRun(s, env).s) && Inv(DispatchModel(s, env.enabled, free).s) && Inv(ScheduleFail(s).s)
  {
    FallbackKeeps(s);
  }

  lemma TimeKeeps(s: State, enabled: bool, demo: bool)
    requires Inv(s)
    ensures Inv(Timer(s).s) && Inv(TimeoutWork(s).s) && Inv(Exit(s).s) && Inv(GateQuery(s, enabled, demo).s)
  {
    FallbackKeeps(s);
    hide RequestsOk, FeedbackOk, WindowOk, Allowed;
  }

  /** Every locked region keeps the invariant. */
  lemma StepKeeps(s: State, step: Step)
    requires Inv(s) && Proper(s, step)
    ensures Inv(Next(s, step).s)
  {
    var env := step.env;
    hide Inv, Classify, Update, Unqueue, Dispatch, Finish, Issue, Requeue, Complete, WorkerReads, WorkerApply,
         ScheduleFail, ModelRun, DispatchModel, Timer, TimeoutWork, GateQuery, Reset, Exit;
    match step.event
    case Classifies(r, q, io) => ClassifyKeeps(s, r, q, io, env);
    case Updates(r, io) => UpdateKeeps(s, r, io);
    case Unqueues(r) => UpdateKeeps(s, r, Io(Read, 0, 0, false, false));
    case Dispatches(r, excluded) => DispatchKeeps(s, r, excluded, env);
    case Finishes(r) => FinishKeeps(s, r);
    case Issues(r, q, io) => IssueKeeps(s, r, q, io, env);
    case Requeues(r) => RequeueKeeps(s, r);
    case Completes(r, final) => CompleteKeeps(s, r, final, env);
    case Reads => WorkerKeeps(s, Ids(0, 0, 0), Fixed, None, 0);
    case Works(ids, source, choice) => WorkerKeeps(s, ids, source, choice, env.queueMax);
    case ModelDispatches(free) => InferenceKeeps(s, env, free);
    case ScheduleFails => InferenceKeeps(s, env, false);
    case ModelRuns => InferenceKeeps(s, env, false);
    case Asks(demo, _) => TimeKeeps(s, env.enabled, demo);
    case TimerFires => TimeKeeps(s, env.enabled, false);
    case TimesOut => TimeKeeps(s, env.enabled, false);
    case Exits => TimeKeeps(s, env.enabled, false);
    case Resets(newSession) => ResetKeeps(s, newSession, env.now);
  }

  predicate AboutRequest(event: Event) {
    event.Classifies? || event.Updates? || event.Unqueues? || event.Dispatches? || event.Finishes? || event.Issues?
    || event.Requeues? || event.Completes?
  }

  // ---- Anomalies ----

  /**
   The only ways to an anomaly: a request is met for the first time while the pool is exhausted,
   or the dispatcher starts a request that it has no record of or has already started.
   */
  ghost predicate Mishap(s: State, step: Step) {
    match step.event
    case Classifies(r, _, _) => !Known(s, r) && |s.reqs| == s.capacity
    case Issues(r, _, _) => r !in s.reqs && |s.reqs| == s.capacity
    case Dispatches(r, _) => Known(s, r) ==> s.reqs[r].reserved
    case _ => false
  }

  ghost predicate Tallied(s: State, next: State, mishap: bool, newSession: bool) {
    next.capacity == s.capacity && next.anomalies == s.anomalies + (if mishap then 1 else 0)
    && next.session == s.session + (if newSession then 1 else 0)
  }

  lemma CompletionTallies(s: State, r: Request, final: bool, env: Env)
    requires Inv(s) && env.now > 0
    ensures Tallied(s, Complete(s, r, final, env).s, false, false)
  {
    if r in s.reqs && final {
      if s.mode.Controlled? {
        Verdict(s, r, env);
      } else {
        Trigger(s, r, env);
      }
    }
    hide Inv, Complete, Votes, CanStart, Mean, Latency, Sampled, Triggers;
  }

  lemma ReleaseTallies(s: State, r: Request)
    ensures Tallied(s, Requeue(s, r).s, false, false) && Tallied(s, Finish(s, r).s, false, false)
  {
    if r in s.reqs {
      ReleaseFrame(Unbound(s, r), r);
    }
    hide Release;
  }

  lemma InferenceTallies(s: State, ids: Ids, source: Source, choice: Option<Choice>, free: bool, env: Env)
    ensures Tallied(s, WorkerReads(s).s, false, false)
    ensures Tallied(s, WorkerApply(s, ids, source, choice, env.queueMax).s, false, false)
            && Tallied(s, ScheduleFail(s).s, false, false)
    ensures Tallied(s, ModelRun(s, env).s, false, false)
            && Tallied(s, DispatchModel(s, env.enabled, free).s, false, false)
    ensures Tallied(s, Timer(s).s, false, false) && Tallied(s, TimeoutWork(s).s, false, false)
  {
    hide SnapshotOf, Count, Ratio, Target;
  }

  /** The anomaly count rises by one at a mishap and at nothing else; a session opens at a reset and at nothing else. */
  lemma StepTallies(s: State, step: Step)
    requires Inv(s) && Proper(s, step)
    ensures Tallied(s, Next(s, step).s, Mishap(s, step), step.event == Resets(true))
  {
    var env, ids := step.env, Ids(0, 0, 0);
    hide Inv, Finish, Requeue, Complete, WorkerReads, WorkerApply, ScheduleFail, ModelRun, DispatchModel, Timer,
         TimeoutWork, Tallied;
    match step.event
    case Completes(r, final) => CompletionTallies(s, r, final, env);
    case Finishes(r) => ReleaseTallies(s, r);
    case Requeues(r) => ReleaseTallies(s, r);
    case Reads => InferenceTallies(s, ids, Fixed, None, false, env);
    case Works(id, source, choice) => InferenceTallies(s, id, source, choice, false, env);
    case ModelDispatches(free) => InferenceTallies(s, ids, Fixed, None, free, env);
    case ScheduleFails => InferenceTallies(s, ids, Fixed, None, false, env);
    case ModelRuns => InferenceTallies(s, ids, Fixed, None, false, env);
    case TimerFires => InferenceTallies(s, ids, Fixed, None, false, env);
    case TimesOut => InferenceTallies(s, ids, Fixed, None, false, env);
    case _ => OtherTallies(s, step);
  }

  lemma OtherTallies(s: State, step: Step)
    requires step.event.Classifies? || step.event.Updates? || step.event.Unqueues? || step.event.Dispatches?
             || step.event.Issues? || step.event.Asks? || step.event.Resets? || step.event.Exits?
    ensures Tallied(s, Next(s, step).s, Mishap(s, step), step.event == Resets(true))
  {
    hide Known, Issued, Allowed;
  }

  /** In every run, after every step: the invariant. */
  lemma {:induction false} RunKeeps(s: State, steps: seq<Step>)
    requires Inv(s) && IsRun(s, steps)
    ensures Inv(Run(s, steps))
    decreases |steps|
  {
    if steps != [] {
      StepKeeps(s, steps[0]);
      RunKeeps(Next(s, steps[0]).s, steps[1..]);
    }
  }

  ghost function Mishaps(s: State, steps: seq<Step>): nat
    decreases |steps|
  {
    if steps == [] then 0 else (if Mishap(s, steps[0]) then 1 else 0) + Mishaps(Next(s, steps[0]).s, steps[1..])
  }

  lemma {:induction false} AnomaliesAreMishaps(s: State, steps: seq<Step>)
    requires Inv(s) && IsRun(s, steps)
    ensures Run(s, steps).anomalies == s.anomalies + Mishaps(s, steps)
    decreases |steps|
  {
    if steps != [] {
      StepKeeps(s, steps[0]);
      StepTallies(s, steps[0]);
      AnomaliesAreMishaps(Next(s, steps[0]).s, steps[1..]);
      hide Inv, Next, Proper, Mishap;
    }
  }

  lemma InitialOk(capacity: nat)
    ensures Inv(Initial(capacity))
  {
  }
}
