/**
 What the regions write into the records, and what becomes of a request that passes through several
 of them. As in `ThrottlePlain`, everything is said on the fields.
 */
module ThrottleEffects {
  import opened Options
  import opened ThrottleSpec
  import opened ThrottleRuns
  import opened ThrottleTheorems
  import opened ThrottleCounts
  import opened ThrottleDepth
  import opened ThrottlePlain

  // ---- Dispatch and issue ----

  /** The dispatcher starts a request that waits: it is told what it will be judged under. */
  lemma DispatchEffect(s: State, r: Request, excluded: bool, env: Env)
    requires Inv(s) && r.useSched && r in s.reqs && !s.reqs[r].reserved
    ensures var m, out := s.reqs[r], Next(s, Step(Dispatches(r, excluded), env));
            && out.s == s.(reqs := s.reqs[r := out.s.reqs[r]], mode := out.s.mode) && !out.wake
            && out.s.reqs[r] == m.(queued := false, queuedTs := 0, io := m.io.(excluded := excluded),
                                   decision := if env.enabled && s.mode.Controlled? then s.decision else 0,
                                   reserved := true, bgReserved := m.queueClass != Hp)
            && (!s.mode.Controlled? ==> out.s.mode == s.mode)
            && (s.mode.Controlled? ==>
                  out.s.mode == s.mode.(postApply := false,
                                        feedback := if env.enabled && !excluded && s.mode.feedback == WaitDispatch
                                                    then WaitIssue(r) else s.mode.feedback))
            && StartedBg(out.s) == StartedBg(s) + if m.queueClass == Hp then 0 else 1
  {
    assert MetaOk(s.reqs[r], s.decision);
    DispatchFrame(s, r, excluded, env);
    OneChangesDepth(s, r, WithDepth(Noted(s, r, excluded, env)));
    StartedBgIsDepth(s);
    StartedBgIsDepth(Next(s, Step(Dispatches(r, excluded), env)).s);
    hide StartedBg, Dispatch, Count, RequestsOk, WindowOk;
  }

  /** One without a record, or that has been started already, is counted as an anomaly and gives up control. */
  lemma BadDispatch(s: State, r: Request, excluded: bool, env: Env)
    requires r.useSched && (r in s.reqs ==> s.reqs[r].reserved)
    ensures var out := Next(s, Step(Dispatches(r, excluded), env));
            && out.s == s.(mode := Idle, gate := None, window := [], anomalies := s.anomalies + 1, reqs := out.s.reqs)
            && out.s.reqs.Keys == s.reqs.Keys && (r in s.reqs ==> !out.s.reqs[r].queued)
            && (out.wake <==> r in s.reqs || s.gate.Some?)
  {
    if r in s.reqs {
      DispatchFrame(s, r, excluded, env);
      hide Dispatch;
    }
  }

  /** A record as the driver creates it for a request that it meets first. */
  function Unseen(q: QueueClass, io: Io): Meta {
    Meta(if q == Hp then Foreground else Background, Hp, io, false, 0, false, false, false, false, 0, 0, 0, false)
  }

  /**
   The device has the request: its first stamp, session and sectors are kept until it comes back, and
   feedback that waited for this issue waits for the completion.
   */
  lemma IssueEffect(s: State, r: Request, q: QueueClass, io: Io, env: Env)
    requires Inv(s) && (r in s.reqs || |s.reqs| < s.capacity)
    ensures var m, out := if r in s.reqs then s.reqs[r] else Unseen(q, io), Next(s, Step(Issues(r, q, io), env));
            var n := out.s.reqs[r];
            && out.s == s.(reqs := s.reqs[r := n], mode := out.s.mode) && !out.wake
            && n.reserved && n.issued && n.bgReserved == (m.queueClass != Hp)
            && n.indexed == (m.indexed || io.op == Read || io.op == Write)
            && n.io == Io(io.op, if n.indexed && !m.indexed then io.start else m.io.start,
                          if n.indexed && !m.indexed then io.end else m.io.end, io.excluded, m.io.high)
            && n.issueTs == (if m.issueTs > 0 then m.issueTs else env.now)
            && n.issueSession == (if m.issueTs > 0 then m.issueSession else if env.enabled then s.session else 0)
            && n == m.(reserved := true, bgReserved := n.bgReserved, issued := true, indexed := n.indexed, io := n.io,
                       issueTs := n.issueTs, issueSession := n.issueSession)
            && out.s.mode == if s.mode.Controlled? && s.mode.feedback == WaitIssue(r) && !io.excluded
                             then s.mode.(feedback := WaitComplete(r)) else s.mode
  {
    assert r in s.reqs ==> MetaOk(s.reqs[r], s.decision);
  }

  // ---- Coming back ----

  /** After a started request has come back the gate opens if there is room. */
  ghost predicate GateAfter(s: State, r: Request, out: Outcome)
    requires r in s.reqs
  {
    var room := !s.mode.Controlled? || s.mode.action.choice.level == No || StartedBg(out.s) < s.mode.action.target;
    && out.s.gate == (if s.reqs[r].reserved && room then None else s.gate)
    && (out.wake <==> s.gate.Some? && out.s.gate.None?)
  }

  /** Feedback no longer waits for `r`. */
  function ModeWithout(s: State, r: Request): Mode {
    if s.mode.Controlled? && (s.mode.feedback == WaitIssue(r) || s.mode.feedback == WaitComplete(r))
    then s.mode.(feedback := WaitDispatch) else s.mode
  }

  lemma ReleaseEffect(s: State, r: Request, m: Meta)
    requires Inv(s) && r in s.reqs && !m.bgReserved
    ensures var out := Release(Unbound(s, r), r);
            && out.s == s.(mode := ModeWithout(s, r), gate := out.s.gate, reqs := s.reqs[r := Cleared(s.reqs[r])])
            && GateAfter(s, r, Outcome(out.s.(reqs := s.reqs[r := m]), out.wake))
            && GateAfter(s, r, Outcome(out.s.(reqs := s.reqs - {r}), out.wake))
  {
    var out := Release(Unbound(s, r), r);
    ReleaseFrame(Unbound(s, r), r);
    var cleared, changed, gone := s.(reqs := s.reqs[r := Cleared(s.reqs[r])]), s.(reqs := s.reqs[r := m]),
                                  s.(reqs := s.reqs - {r});
    CountUpdate(s.reqs, r, Cleared(s.reqs[r]), IsBgReserved);
    CountUpdate(s.reqs, r, m, IsBgReserved);
    CountRemove(s.reqs, r, IsBgReserved);
    SameStarted(out.s.(reqs := changed.reqs));
    SameStarted(out.s.(reqs := gone.reqs));
    hide Count, Inv, StartedBg;
  }

  lemma SameStarted(s: State)
    ensures StartedBg(s) == Count(s.reqs, IsBgReserved)
  {
    StartedBgIsDepth(s);
  }

  /** The driver hands a request back: it is as if it had never been started, but for what is known of it. */
  lemma RequeueEffect(s: State, r: Request, env: Env)
    requires Inv(s)
    ensures var out := Next(s, Step(Requeues(r), env));
            if r !in s.reqs then out == Outcome(s, false)
            else
              && out.s == s.(mode := ModeWithout(s, r), gate := out.s.gate, reqs := s.reqs[r := out.s.reqs[r]])
              && out.s.reqs[r] == s.reqs[r].(issued := false, indexed := false, reserved := false, bgReserved := false,
                                             issueTs := 0, issueSession := 0, decision := 0, sampled := false)
              && GateAfter(s, r, out)
  {
    if r in s.reqs {
      var m := Cleared(s.reqs[r]).(issueTs := 0, issueSession := 0, decision := 0, sampled := false);
      ReleaseEffect(s, r, m);
      hide Inv, Release, GateAfter;
      assert Next(s, Step(Requeues(r), env)).s.reqs == s.reqs[r := m];
    }
  }

  /** A request with a pointer of its own is done; any other has no record that this region could find. */
  lemma FinishEffect(s: State, r: Request, env: Env)
    requires Inv(s)
    ensures var out := Next(s, Step(Finishes(r), env));
            if r !in s.reqs || !r.useSched then out == Outcome(s, false)
            else out.s == s.(mode := ModeWithout(s, r), gate := out.s.gate, reqs := s.reqs - {r})
                 && GateAfter(s, r, out)
  {
    if r in s.reqs && r.useSched {
      ReleaseEffect(s, r, Cleared(s.reqs[r]));
      hide Inv, Release, GateAfter;
      assert Next(s, Step(Finishes(r), env)).s.reqs == s.reqs - {r};
    }
  }

  /** A completion takes the record away, but a partial one, or one of an unknown request, changes nothing. */
  lemma CompletionEffect(s: State, r: Request, final: bool, env: Env)
    requires Inv(s) && env.now > 0
    ensures var out := Next(s, Step(Completes(r, final), env));
            && (!final || r !in s.reqs ==> out == Outcome(s, false))
            && (final ==> out.s.reqs == s.reqs - {r})
            && out.s.session == s.session && out.s.anomalies == s.anomalies && out.s.dying == s.dying
  {
    if final && r in s.reqs {
      CompletionFrame(s, r, env);
    }
    hide Complete, Inv;
  }

  lemma CompletionFrame(s: State, r: Request, env: Env)
    requires Inv(s) && env.now > 0 && r in s.reqs
    ensures var out := Complete(s, r, true, env).s;
            && out.reqs == s.reqs - {r}
            && out.session == s.session && out.anomalies == s.anomalies && out.dying == s.dying
            && (s.dying ==> out.decision == s.decision)
  {
    hide Inv, Retired, Judged, SlowVerdict, Triggers, Started, RequestsOk, WindowOk, Sampled;
    RetiredKeeps(s, r, env);
    StartedFrame(Retired(s, r, env).s, Triggers(s, r, env), env);
  }

  lemma StartedFrame(s: State, newControl: bool, env: Env)
    ensures var started := Started(s, newControl, env);
            started.Some? ==>
              var t := started.value; !s.dying && t == s.(control := t.control, decision := t.decision, mode := t.mode)
  {
    hide SnapshotOf;
  }

  /** What is known of a request is refreshed only while the device does not work on it. */
  lemma UpdateEffect(s: State, r: Request, io: Io, env: Env)
    ensures Next(s, Step(Updates(r, io), env)).s
            == if r.useSched && r in s.reqs && !s.reqs[r].issued then s.(reqs := s.reqs[r := s.reqs[r].(io := io)])
               else s
  {
  }

  // ---- Passages ----

  /**
   A request that an action waits for a dispatch of: its dispatch, issue and completion make a vote
   with the time from the issue to the completion, under that action.
   */
  lemma PassageIsAVote(s: State, r: Request, q: QueueClass, io: Io, e1: Env, e2: Env, e3: Env, us: nat)
    requires Inv(s) && r.useSched && r in s.reqs && !s.reqs[r].reserved
    requires s.mode.Controlled? && s.mode.feedback == WaitDispatch && |s.mode.votes| < 4
    requires e1.enabled && e1.now > 0 && !io.excluded && 0 < e2.now < e3.now
    requires us * 1000 <= e3.now - e2.now < us * 1000 + 1000 && us < 0x1_0000_0000
    ensures var dispatched := Next(s, Step(Dispatches(r, false), e1)).s;
            var issued := Next(dispatched, Step(Issues(r, q, io), e2)).s;
            Next(issued, Step(Completes(r, true), e3)).s.mode
            == s.mode.(postApply := false, votes := s.mode.votes + [Vote(s.mode.action.decision, us)])
  {
    var dispatched := Next(s, Step(Dispatches(r, false), e1)).s;
    var issued := Next(dispatched, Step(Issues(r, q, io), e2)).s;
    assert MetaOk(s.reqs[r], s.decision);
    DispatchEffect(s, r, false, e1);
    StepKeeps(s, Step(Dispatches(r, false), e1));
    IssueEffect(dispatched, r, q, io, e2);
    StepKeeps(dispatched, Step(Issues(r, q, io), e2));
    hide Next, Inv, StartedBg;
    VotesByLatencies(issued, r, e3, us);
  }

  /** A new request that arrives, is dispatched, issued and completed leaves no trace in the records. */
  lemma PassageLeavesNothing(s: State, r: Request, q: QueueClass, io: Io, excluded: bool, io2: Io,
                             e1: Env, e2: Env, e3: Env, e4: Env)
    requires Inv(s) && r.useSched && r !in s.reqs && |s.reqs| < s.capacity
    requires e1.now > 0 && e2.now > 0 && e3.now > 0 && e4.now > 0
    ensures var arrived := Next(s, Step(Classifies(r, q, io), e1)).s;
            var dispatched := Next(arrived, Step(Dispatches(r, excluded), e2)).s;
            var issued := Next(dispatched, Step(Issues(r, q, io2), e3)).s;
            var done := Next(issued, Step(Completes(r, true), e4)).s;
            && arrived.reqs[r].queued && !dispatched.reqs[r].queued && dispatched.reqs[r].reserved
            && issued.reqs[r].issued && issued.reqs[r].issueTs == e3.now
            && Waiting(dispatched, Foreground) == Waiting(s, Foreground)
            && Waiting(dispatched, Background) == Waiting(s, Background)
            && done.reqs == s.reqs && done.anomalies == s.anomalies
  {
    ArrivedAndDispatched(s, r, q, io, excluded, e1, e2);
    var arrived := Next(s, Step(Classifies(r, q, io), e1)).s;
    var dispatched := Next(arrived, Step(Dispatches(r, excluded), e2)).s;
    var issued := Next(dispatched, Step(Issues(r, q, io2), e3)).s;
    IssueEffect(dispatched, r, q, io2, e3);
    StepKeeps(dispatched, Step(Issues(r, q, io2), e3));
    CompletionEffect(issued, r, true, e4);
    hide Next, Inv;
    assert issued.reqs - {r} == s.reqs;
  }

  lemma ArrivedAndDispatched(s: State, r: Request, q: QueueClass, io: Io, excluded: bool, e1: Env, e2: Env)
    requires Inv(s) && r.useSched && r !in s.reqs && |s.reqs| < s.capacity && e1.now > 0 && e2.now > 0
    ensures var arrived := Next(s, Step(Classifies(r, q, io), e1)).s;
            var dispatched := Next(arrived, Step(Dispatches(r, excluded), e2)).s;
            && r in arrived.reqs && arrived.reqs[r].queued && Inv(dispatched)
            && dispatched == s.(reqs := s.reqs[r := dispatched.reqs[r]], mode := dispatched.mode)
            && !dispatched.reqs[r].queued && dispatched.reqs[r].reserved && dispatched.reqs[r].issueTs == 0
            && forall c :: Waiting(dispatched, c) == Waiting(s, c)
  {
    var arrived := Next(s, Step(Classifies(r, q, io), e1)).s;
    ArrivalWaits(s, r, q, io, e1);
    StepKeeps(s, Step(Classifies(r, q, io), e1));
    var dispatched := Next(arrived, Step(Dispatches(r, excluded), e2)).s;
    DispatchEffect(arrived, r, excluded, e2);
    StepKeeps(arrived, Step(Dispatches(r, excluded), e2));
    hide Next, Inv, StartedBg;
    WaitingMoves(s, r, dispatched.reqs[r]);
    SameWaiting(dispatched, s.(reqs := s.reqs[r := dispatched.reqs[r]]));
  }

  lemma SameWaiting(s: State, t: State)
    requires s.reqs == t.reqs
    ensures forall c :: Waiting(s, c) == Waiting(t, c)
  {
  }

  /** A hand-back undoes a dispatch and an issue: whatever started is counted off again. */
  lemma HandBackUndoes(s: State, r: Request, excluded: bool, q: QueueClass, io: Io, e1: Env, e2: Env, e3: Env)
    requires Inv(s) && r.useSched && r in s.reqs && !s.reqs[r].reserved && e1.now > 0 && e2.now > 0
    ensures var dispatched := Next(s, Step(Dispatches(r, excluded), e1)).s;
            var issued := Next(dispatched, Step(Issues(r, q, io), e2)).s;
            var back := Next(issued, Step(Requeues(r), e3)).s;
            var m := s.reqs[r];
            && StartedBg(back) == StartedBg(s)
            && back == s.(mode := back.mode, gate := back.gate, reqs := s.reqs[r := back.reqs[r]])
            && back.reqs[r] == m.(queued := false, queuedTs := 0, io := back.reqs[r].io, issueSession := 0,
                                      decision := 0)
            && back.mode == if s.mode.Controlled? then s.mode.(postApply := false) else s.mode
  {
    var dispatched := Next(s, Step(Dispatches(r, excluded), e1)).s;
    var issued := Next(dispatched, Step(Issues(r, q, io), e2)).s;
    var back := Next(issued, Step(Requeues(r), e3)).s;
    assert MetaOk(s.reqs[r], s.decision);
    BoundIsReserved(s, r);
    DispatchEffect(s, r, excluded, e1);
    StepKeeps(s, Step(Dispatches(r, excluded), e1));
    IssueEffect(dispatched, r, q, io, e2);
    StepKeeps(dispatched, Step(Issues(r, q, io), e2));
    RequeueEffect(issued, r, e3);
    hide Next, Inv, GateAfter;
    assert back.reqs == s.reqs[r := back.reqs[r]];
    OneChangesDepth(s, r, back.reqs[r]);
    SameStarted(s);
    SameStarted(back);
    hide StartedBg, Count;
  }
}
