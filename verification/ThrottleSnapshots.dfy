/** The snapshots that inferences are founded on, and how inferences begin and end, said on the fields. */
module ThrottleSnapshots {
  import opened Options
  import opened ThrottleSpec
  import opened ThrottleRuns
  import opened ThrottleTheorems
  import opened ThrottleCounts
  import opened ThrottlePlain
  import opened ThrottleEffects
  import opened LatencyRing

  // ---- What a snapshot says ----

  /** A queued read or write begins where an issued one of the same operation ends, or ends where that begins. */
  ghost predicate Touches(reqs: Requests, m: Meta) {
    && m.queued && (m.io.op == Read || m.io.op == Write)
    && exists x :: x in reqs && reqs[x].issued && reqs[x].io.op == m.io.op
                   && (reqs[x].io.end == m.io.start || reqs[x].io.start == m.io.end)
  }

  /** The counts are those of the live requests, each said on the fields of the records. */
  ghost predicate CountsRequests(f: Snapshot, reqs: Requests, now: nat, threshold: nat) {
    && f.deviceQ == |set r | r in reqs && reqs[r].issued|
    && f.reserved == |set r | r in reqs && reqs[r].reserved|
    && f.deviceQFg == |set r | r in reqs && reqs[r].issued && reqs[r].cls == Foreground|
    && f.deviceQSlow
       == |set r | r in reqs && reqs[r].issued && !reqs[r].io.excluded && 0 < reqs[r].issueTs <= now
             && now - reqs[r].issueTs >= threshold * 1000|
    && f.waitingTotal == |set r | r in reqs && reqs[r].queued|
    && f.waiting == |set r | r in reqs && reqs[r].queued && reqs[r].cls == Background|
    && f.waitingFg == |set r | r in reqs && reqs[r].queued && reqs[r].cls == Foreground|
    && f.waitingHigh == |set r | r in reqs && reqs[r].queued && reqs[r].io.high|
    && f.waitingContiguous == |set r | r in reqs && Touches(reqs, reqs[r])|
  }

  /** The measures are those of the five samples: mean and span in whole microseconds, and two counts. */
  ghost predicate MeasuresWindow(f: Snapshot, w: seq<Sample>, threshold: nat)
    requires |w| == 5
  {
    var sum := w[0].latency + w[1].latency + w[2].latency + w[3].latency + w[4].latency;
    && f.windowCount == 5
    && 5 * f.windowMean <= sum < 5 * f.windowMean + 5
    && 1000 * f.windowSpan <= w[4].ts - w[0].ts < 1000 * f.windowSpan + 1000
    && f.windowSlow == |set i: nat | i < 5 && w[i].latency >= threshold|
    && f.windowFg == |set i: nat | i < 5 && w[i].foreground|
  }

  lemma {:induction false} SlowAreCounted(w: seq<Sample>, threshold: nat)
    ensures SlowSamples(w, threshold) == |set i: nat | i < |w| && w[i].latency >= threshold|
  {
    var slow := set i: nat | i < |w| && w[i].latency >= threshold;
    if w == [] {
      assert slow == {};
    } else {
      var n := |w| - 1;
      var v := w[..n];
      SlowAreCounted(v, threshold);
      var before := set i: nat | i < |v| && v[i].latency >= threshold;
      OneMoreMember(before, slow, n, w[n].latency >= threshold);
    }
  }

  lemma OneMoreMember(before: set<nat>, after: set<nat>, n: nat, member: bool)
    requires n !in before && (n in after <==> member) && forall i :: i != n ==> (i in after <==> i in before)
    ensures |after| == |before| + if member then 1 else 0
  {
    assert after == if member then before + {n} else before;
  }

  lemma {:induction false} FgAreCounted(w: seq<Sample>)
    ensures FgSamples(w) == |set i: nat | i < |w| && w[i].foreground|
  {
    var fg := set i: nat | i < |w| && w[i].foreground;
    if w == [] {
      assert fg == {};
    } else {
      var n := |w| - 1;
      var v := w[..n];
      FgAreCounted(v);
      var before := set i: nat | i < |v| && v[i].foreground;
      OneMoreMember(before, fg, n, w[n].foreground);
    }
  }

  /** A snapshot can be taken exactly of a queue that is not of depth zero with a window of five within 10 ms. */
  lemma SnapshotFields(s: State, env: Env)
    ensures SnapshotOf(s, env).Some? <==> env.queueMax > 0 && Within10Ms(s.window)
    ensures SnapshotOf(s, env).Some? ==>
              var f := SnapshotOf(s, env).value;
              && f.decisionTs == env.now && f.queueMax == env.queueMax && f.threshold == env.threshold
              && CountsRequests(f, s.reqs, env.now, env.threshold) && MeasuresWindow(f, s.window, env.threshold)
  {
    CoherentPlain(s.window);
    if SnapshotOf(s, env).Some? {
      RequestsAreCounted(s, env);
      WindowIsMeasured(s, env);
    }
    hide CountsRequests, MeasuresWindow, Count;
  }

  lemma RequestsAreCounted(s: State, env: Env)
    requires SnapshotOf(s, env).Some?
    ensures CountsRequests(SnapshotOf(s, env).value, s.reqs, env.now, env.threshold)
  {
    hide Count, Touches, Contiguous;
    StartedAreCounted(s.reqs, env.now, env.threshold, env);
    WaitingAreCounted(s.reqs);
  }

  lemma StartedAreCounted(reqs: Requests, now: nat, threshold: nat, env: Env)
    requires now == env.now && threshold == env.threshold
    ensures Count(reqs, IsIssued) == |set r | r in reqs && reqs[r].issued|
    ensures Count(reqs, IsReserved) == |set r | r in reqs && reqs[r].reserved|
    ensures Count(reqs, IsIssuedFg) == |set r | r in reqs && reqs[r].issued && reqs[r].cls == Foreground|
    ensures Count(reqs, SlowTest(env))
            == |set r | r in reqs && reqs[r].issued && !reqs[r].io.excluded && 0 < reqs[r].issueTs <= now
                  && now - reqs[r].issueTs >= threshold * 1000|
  {
    hide Count;
    CountIs(reqs, IsIssued, set r | r in reqs && reqs[r].issued);
    CountIs(reqs, IsReserved, set r | r in reqs && reqs[r].reserved);
    CountIs(reqs, IsIssuedFg, set r | r in reqs && reqs[r].issued && reqs[r].cls == Foreground);
    CountIs(reqs, SlowTest(env),
            set r | r in reqs && reqs[r].issued && !reqs[r].io.excluded && 0 < reqs[r].issueTs <= now
              && now - reqs[r].issueTs >= threshold * 1000);
  }

  lemma WaitingAreCounted(reqs: Requests)
    ensures Count(reqs, IsQueued) == |set r | r in reqs && reqs[r].queued|
    ensures Count(reqs, IsWaitingBg) == |set r | r in reqs && reqs[r].queued && reqs[r].cls == Background|
    ensures Count(reqs, IsWaitingFg) == |set r | r in reqs && reqs[r].queued && reqs[r].cls == Foreground|
    ensures Count(reqs, IsWaitingHigh) == |set r | r in reqs && reqs[r].queued && reqs[r].io.high|
    ensures Count(reqs, ContiguousTest(reqs)) == |set r | r in reqs && Touches(reqs, reqs[r])|
  {
    forall m: Meta
      ensures ContiguousTest(reqs)(m) <==> Touches(reqs, m)
    {
    }
    hide Count, Touches, Contiguous;
    CountIs(reqs, IsQueued, set r | r in reqs && reqs[r].queued);
    CountIs(reqs, IsWaitingBg, set r | r in reqs && reqs[r].queued && reqs[r].cls == Background);
    CountIs(reqs, IsWaitingFg, set r | r in reqs && reqs[r].queued && reqs[r].cls == Foreground);
    CountIs(reqs, IsWaitingHigh, set r | r in reqs && reqs[r].queued && reqs[r].io.high);
    CountIs(reqs, ContiguousTest(reqs), set r | r in reqs && Touches(reqs, reqs[r]));
  }

  lemma WindowIsMeasured(s: State, env: Env)
    requires SnapshotOf(s, env).Some?
    ensures |s.window| == 5 && MeasuresWindow(SnapshotOf(s, env).value, s.window, env.threshold)
  {
    FiveOf(s.window, env.threshold);
    SlowAreCounted(s.window, env.threshold);
    FgAreCounted(s.window);
    hide LatencySum, SlowSamples, FgSamples, Count;
  }

  // ---- How inferences begin and end ----

  /**
   An inference that a completion starts has the configuration of that moment and is neither timed out
   nor handed over; a fixed choice comes with a snapshot of what the completion leaves behind.
   */
  lemma StartedInference(s: State, r: Request, env: Env)
    requires Inv(s) && env.now > 0 && r in s.reqs && !s.mode.Pending?
    ensures var next := Next(s, Step(Completes(r, true), env)).s;
            next.mode.Pending? ==>
              && next.mode.config == env.config && !next.mode.timedOut && !next.mode.running
              && next.mode.snapshot == if env.config.source == Model then None else SnapshotOf(next, env)
  {
    RetiredKeeps(s, r, env);
    JudgedFrame(s, r, env);
    var rest := Retired(s, r, env).s;
    hide Inv, Retired, Judged, SlowVerdict, Triggers, SnapshotOf, RequestsOk, WindowOk, Sampled, Votes;
    StartedIs(rest, Triggers(s, r, env), env);
    hide Started;
  }

  lemma StartedIs(s: State, newControl: bool, env: Env)
    ensures var started := Started(s, newControl, env);
            started.Some? ==>
              var t := started.value;
              && !s.mode.Pending? && t.mode.Pending? && t.mode.config == env.config
              && !t.mode.timedOut && !t.mode.running
              && t.mode.snapshot == if env.config.source == Model then None else SnapshotOf(t, env)
  {
    hide Count, Coherent, LatencySum, SlowSamples, FgSamples, SlowTest, ContiguousTest;
  }

  /** The model thread founds the inference that is pending on a snapshot, or gives it up for want of one. */
  lemma ModelThreadFounds(s: State, env: Env)
    ensures var next := Next(s, Step(ModelRuns, env)).s;
            if s.mode.Pending? && !s.mode.timedOut && !s.dying && s.mode.config.source == Model then
              if env.queueMax > 0 && Within10Ms(s.window) then
                next == s.(mode := s.mode.(snapshot := SnapshotOf(s, env))) && next.mode.snapshot.Some?
              else next == s.(mode := Idle, gate := None, window := [])
            else next == if s.mode.Pending? then s.(mode := s.mode.(running := false)) else s
  {
    SnapshotFields(s, env);
    hide CountsRequests, MeasuresWindow, SnapshotOf;
  }

  /**
   The worker's first look: without an inference that is founded, in time and wanted, it marks the
   pending one as not handed over, so that the dispatcher may hand it over again.
   */
  lemma WorkerRests(s: State, env: Env)
    ensures Next(s, Step(Reads, env)).s
            == if s.mode.Pending? && (s.mode.timedOut || s.dying || s.mode.snapshot.None?)
               then s.(mode := s.mode.(running := false)) else s
    ensures WorkerRead(s).Some? <==> s.mode.Pending? && !s.mode.timedOut && !s.dying && s.mode.snapshot.Some?
  {
  }

  /** The timer marks whatever is pending; the work after it, like a failed start, gives up what is pending. */
  lemma TimeRunsOut(s: State, env: Env)
    ensures Next(s, Step(TimerFires, env)).s
            == if s.mode.Pending? && !s.dying then s.(mode := s.mode.(timedOut := true)) else s
    ensures Next(s, Step(TimesOut, env)).s
            == if s.mode.Pending? && s.mode.timedOut then s.(mode := Idle, gate := None, window := []) else s
    ensures Next(s, Step(ScheduleFails, env)).s
            == if s.mode.Pending? then s.(mode := Idle, gate := None, window := []) else s
  {
  }

  /** Switching throttling on or off gives up control, and the waiting times of the background start anew or end. */
  lemma ResetEffect(s: State, newSession: bool, env: Env)
    ensures var out := Next(s, Step(Resets(newSession), env));
            && out.wake && out.s.reqs.Keys == s.reqs.Keys
            && out.s == s.(mode := Idle, gate := None, window := [], reqs := out.s.reqs,
                           session := if newSession then s.session + 1 else s.session)
            && forall r :: r in s.reqs ==>
                 var m := s.reqs[r];
                 out.s.reqs[r] == m.(queuedTs := if newSession && m.queued && m.cls == Background then env.now else 0)
  {
  }

  // ---- After the exit has begun ----

  lemma RequestStepsWhileDying(s: State, step: Step)
    requires Inv(s) && Proper(s, step) && s.dying && AboutRequest(step.event)
    ensures var next := Next(s, step).s; next.dying && next.decision == s.decision
  {
    var env := step.env;
    if step.event.Completes? {
      if step.event.final && step.event.r in s.reqs {
        CompletionFrame(s, step.event.r, env);
      }
      hide Inv, Retired, SlowVerdict, Triggers, Started;
    } else if step.event.Requeues? {
      RequeueEffect(s, step.event.r, env);
      hide Next, GateAfter, Inv;
    } else if step.event.Finishes? {
      FinishEffect(s, step.event.r, env);
      hide Next, GateAfter, Inv;
    } else {
      hide Inv, Release, Complete, Issued, Enqueued, Dequeued;
    }
  }

  lemma OtherStepsWhileDying(s: State, step: Step)
    requires s.dying && !AboutRequest(step.event)
    ensures var next := Next(s, step).s; next.dying && next.decision == s.decision
  {
    hide SnapshotOf, Count, Ratio, Target;
  }

  /** Once the exit has begun no inference starts and no action comes into force, in any run. */
  lemma {:induction false} NothingStartsAfterExit(s: State, steps: seq<Step>)
    requires Inv(s) && IsRun(s, steps) && s.dying
    ensures Applied(s, steps) == [] && Run(s, steps).decision == s.decision && Run(s, steps).dying
    decreases |steps|
  {
    if steps != [] {
      StepKeeps(s, steps[0]);
      OnlyPendingIsApplied(s, steps[0]);
      var next := Next(s, steps[0]).s;
      if AboutRequest(steps[0].event) {
        RequestStepsWhileDying(s, steps[0]);
      } else {
        OtherStepsWhileDying(s, steps[0]);
      }
      hide Inv, Next, Proper;
      NothingStartsAfterExit(next, steps[1..]);
    }
  }

  /** The exit marks the queue and changes nothing else. */
  lemma ExitMarks(s: State, env: Env)
    ensures Next(s, Step(Exits, env)).s == s.(dying := true)
  {
  }
}
