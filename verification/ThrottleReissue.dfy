/**
 A run that goes beyond the target: the driver hands a background request back, the gate lets the
 next one pass, and then the driver issues the first one again on its own.
 */
module ThrottleReissue {
  import opened Options
  import opened ThrottleSpec
  import opened ThrottleRuns
  import opened ThrottleCounts
  import opened ThrottleDepth
  import opened ThrottleLifecycle
  import opened ThrottleScenarios

  const FORMER := Request(1, true)
  const LATTER := Request(2, true)

  // Half of a queue that is two deep.
  const HALF := Action(Choice(Medium, Baseline), 50, 2, 1, 1)

  /** Five slow completions, and the worker's answer. */
  function PrefixRun(): seq<Step> {
    Probes(5, Fixed, 2) + [Step(Works(Ids(0, 1, 1), Fixed, Some(Choice(Medium, Baseline))), At(7 * MS, Fixed, 2))]
  }

  function Now(event: Event): Step {
    Step(event, At(8 * MS, Fixed, 2))
  }

  function ReissueRun(): seq<Step> {
    [Now(Classifies(FORMER, Be, PROBE_IO)), Now(Classifies(LATTER, Be, PROBE_IO)),
     Now(Asks(false, true)), Now(Dispatches(FORMER, false)), Now(Requeues(FORMER)),
     Now(Asks(false, true)), Now(Dispatches(LATTER, false)), Now(Issues(FORMER, Be, PROBE_IO))]
  }

  /** The action is in force; of the requests with a record, `busy` ones count as started background requests. */
  ghost predicate Working(w: World, known: set<Request>, busy: set<Request>) {
    && w.s.mode.Controlled? && w.s.mode.action == HALF && w.s.gate.None? && w.s.capacity == 8
    && w.s.reqs.Keys == known
    && forall r :: r in w.s.reqs ==>
         var m := w.s.reqs[r];
         m.queueClass == Be && !m.issued && m.reserved == m.bgReserved == (r in busy)
  }

  /** The steps lead from `w` to `end` in an orderly run under the action, in the order that the dispatcher keeps. */
  ghost predicate Leads(w: World, steps: seq<Step>, ticket: bool, end: World) {
    && UnderAction(w.s, steps, HALF, ticket) && IsLife(w, steps)
    && Later(w, steps) == end && Run(w.s, steps) == end.s
  }

  lemma LeadsOn(w: World, steps: seq<Step>, ticket: bool, end: World)
    requires steps != [] && w.s.mode.Controlled? && w.s.mode.action == HALF
    requires InOrder(w, steps[0]) && Orderly(w.s, steps[0], ticket)
    requires Leads(After(w, steps[0]), steps[1..], TicketAfter(w.s, steps[0], ticket), end)
    ensures Leads(w, steps, ticket, end)
  {
    assert After(w, steps[0]).s == Next(w.s, steps[0]).s;
    hide Next, After, Orderly, TicketAfter;
  }

  // ---- The steps ----

  lemma Arrives(w: World, known: set<Request>, r: Request)
    requires Working(w, known, {}) && |known| < 8 && r.useSched && r !in known
    ensures Working(After(w, Now(Classifies(r, Be, PROBE_IO))), known + {r}, {})
  {
    assert |w.s.reqs| == |w.s.reqs.Keys|;
  }

  lemma IsLetThrough(w: World, known: set<Request>)
    requires Working(w, known, {})
    ensures Allowed(w.s, true, false) && After(w, Now(Asks(false, true))) == w
  {
    CountNone(w.s.reqs, IsBgReserved);
    hide Count;
  }

  lemma IsDispatched(w: World, known: set<Request>, r: Request)
    requires Working(w, known, {}) && r.useSched && r in known
    ensures Working(After(w, Now(Dispatches(r, false))), known, {r})
  {
    DispatchFrame(w.s, r, false, At(8 * MS, Fixed, 2));
    hide Dispatch;
  }

  lemma IsHandedBack(w: World, known: set<Request>, r: Request)
    requires Working(w, known, {r}) && r in known
    ensures Working(After(w, Now(Requeues(r))), known, {})
  {
    var unbound := Unbound(w.s, r);
    assert Release(unbound, r).s.gate.None?;
    ReleaseFrame(unbound, r);
    hide Release;
  }

  /** The re-issue is one that no gate is asked for; afterwards two requests count, one more than the target. */
  lemma IsReissued(w: World, known: set<Request>)
    requires Working(w, known, {LATTER}) && FORMER in known && LATTER in known
    ensures var step := Now(Issues(FORMER, Be, PROBE_IO));
            && RestartsBackground(w.s, step)
            && After(w, step).s.mode.Controlled? && After(w, step).s.mode.action == HALF
            && BgDepth(After(w, step).s) >= 2
  {
    var after := After(w, Now(Issues(FORMER, Be, PROBE_IO))).s;
    CountTwo(after.reqs, FORMER, LATTER, IsBgReserved);
    hide Count;
  }

  // ---- The run ----

  lemma AnswerApplies(s: State, armed: State)
    requires Armed(s, armed, Fixed) && s.control == s.decision == 0 && s.capacity == 8 && s.reqs == map[]
    ensures var step := Step(Works(Ids(0, 1, 1), Fixed, Some(Choice(Medium, Baseline))), At(7 * MS, Fixed, 2));
            Proper(armed, step) && Working(World(Next(armed, step).s, {}, {}, {}), {}, {})
  {
    assert Target(Medium, 50, 2) == 1;
  }

  lemma ActionIsApplied()
    ensures IsRun(Initial(8), PrefixRun())
    ensures Working(World(Run(Initial(8), PrefixRun()), {}, {}, {}), {}, {})
  {
    hide Run, IsRun, Next, Probes, Working, Armed;
    var s, probes := Initial(8), Probes(5, Fixed, 2);
    var answer := Step(Works(Ids(0, 1, 1), Fixed, Some(Choice(Medium, Baseline))), At(7 * MS, Fixed, 2));
    FiveProbes(s, Fixed, 2);
    AnswerApplies(s, Run(s, probes));
    RunOne(Run(s, probes), answer);
    RunConcat(s, probes, [answer]);
  }

  /** The last step alone, and the end of the run. */
  lemma LastLeads(w: World, known: set<Request>)
    requires Working(w, known, {LATTER}) && FORMER in known && LATTER in known && FORMER !in w.queued
    ensures var step := Now(Issues(FORMER, Be, PROBE_IO)); Leads(w, [step], false, After(w, step))
  {
    var step := Now(Issues(FORMER, Be, PROBE_IO));
    IsReissued(w, known);
    assert [step][1..] == [];
    hide Working, Next, BgDepth;
    assert InOrder(w, step) by {
      IssueIsProper(w, known);
    }
    assert After(w, step).s == Next(w.s, step).s;
    assert Leads(After(w, step), [], false, After(w, step));
    hide After, Leads, InOrder;
    assert Orderly(w.s, step, false);
    assert TicketAfter(w.s, step, false) == false;
    LeadsOnFrom(w, [step], false, After(w, step), known);
  }

  lemma IssueIsProper(w: World, known: set<Request>)
    requires Working(w, known, {LATTER}) && FORMER in known && FORMER !in w.queued
    ensures InOrder(w, Now(Issues(FORMER, Be, PROBE_IO)))
  {
  }

  lemma LeadsOnFrom(w: World, steps: seq<Step>, ticket: bool, end: World, known: set<Request>)
    requires steps != [] && (exists busy :: Working(w, known, busy))
    requires InOrder(w, steps[0]) && Orderly(w.s, steps[0], ticket)
    requires Leads(After(w, steps[0]), steps[1..], TicketAfter(w.s, steps[0], ticket), end)
    ensures Leads(w, steps, ticket, end)
  {
    hide Leads, InOrder, Orderly, TicketAfter, After;
    LeadsOn(w, steps, ticket, end);
  }

  /** Where the requests are, step by step. */
  lemma Whereabouts(w0: World)
    requires Working(w0, {}, {}) && w0.queued == w0.started == w0.missed == {}
    ensures var steps := ReissueRun();
            var w1 := After(w0, steps[0]);
            var w2 := After(w1, steps[1]);
            var w4 := After(w2, steps[3]);
            var w5 := After(w4, steps[4]);
            var w7 := After(w5, steps[6]);
            && Working(w1, {FORMER}, {}) && Working(w2, {FORMER, LATTER}, {}) && After(w2, steps[2]) == w2
            && Working(w4, {FORMER, LATTER}, {FORMER}) && Working(w5, {FORMER, LATTER}, {}) && After(w5, steps[5]) == w5
            && Working(w7, {FORMER, LATTER}, {LATTER})
            && Allowed(w2.s, true, false) && Allowed(w5.s, true, false)
            && w1.queued == {FORMER} && w2.queued == {FORMER, LATTER} && w4.queued == w5.queued == {LATTER}
            && w4.started == {FORMER} && w1.started == w2.started == {} && FORMER !in w7.queued
  {
    hide Working, Allowed, Next;
    var steps := ReissueRun();
    Arrives(w0, {}, FORMER);
    var w1 := After(w0, steps[0]);
    Arrives(w1, {FORMER}, LATTER);
    var w2 := After(w1, steps[1]);
    assert {FORMER} + {LATTER} == {FORMER, LATTER} && {} + {FORMER} == {FORMER};
    IsLetThrough(w2, {FORMER, LATTER});
    IsDispatched(w2, {FORMER, LATTER}, FORMER);
    var w4 := After(w2, steps[3]);
    IsHandedBack(w4, {FORMER, LATTER}, FORMER);
    var w5 := After(w4, steps[4]);
    IsLetThrough(w5, {FORMER, LATTER});
    IsDispatched(w5, {FORMER, LATTER}, LATTER);
  }

  /** The seven steps before the re-issue, each orderly and in order. */
  lemma ReissueLeads(w0: World) returns (w7: World, end: World)
    requires Working(w0, {}, {}) && w0.queued == w0.started == w0.missed == {}
    ensures Working(w7, {FORMER, LATTER}, {LATTER}) && end == After(w7, Now(Issues(FORMER, Be, PROBE_IO)))
    ensures Leads(w0, ReissueRun(), false, end)
  {
    hide Leads, Working, Allowed, Next;
    var t0 := ReissueRun();
    var t1, t2, t3, t4, t5 := t0[1..], t0[2..], t0[3..], t0[4..], t0[5..];
    assert t1[1..] == t2 && t2[1..] == t3 && t3[1..] == t4 && t4[1..] == t5;
    Whereabouts(w0);
    var w1 := After(w0, t0[0]);
    var w2 := After(w1, t1[0]);
    var w4 := After(w2, t3[0]);
    var w5 := After(w4, t4[0]);
    w7, end := SecondHalfLeads(w5, t5);
    hide After;
    LeadsOnFrom(w4, t4, false, end, {FORMER, LATTER});
    LeadsOnFrom(w2, t3, true, end, {FORMER, LATTER});
    LeadsOnFrom(w2, t2, false, end, {FORMER, LATTER});
    LeadsOnFrom(w1, t1, false, end, {FORMER});
    LeadsOnFrom(w0, t0, false, end, {});
  }

  /** After the request has been handed back: the gate lets the other one pass, and then the first is issued. */
  lemma SecondHalfLeads(w5: World, steps: seq<Step>) returns (w7: World, end: World)
    requires Working(w5, {FORMER, LATTER}, {}) && w5.queued == {LATTER}
    requires steps == [Now(Asks(false, true)), Now(Dispatches(LATTER, false)), Now(Issues(FORMER, Be, PROBE_IO))]
    ensures Working(w7, {FORMER, LATTER}, {LATTER}) && end == After(w7, Now(Issues(FORMER, Be, PROBE_IO)))
    ensures Leads(w5, steps, false, end)
  {
    hide Leads, Working, Allowed, Next;
    var rest, last := steps[1..], steps[2..];
    assert rest[1..] == last == [Now(Issues(FORMER, Be, PROBE_IO))];
    IsLetThrough(w5, {FORMER, LATTER});
    IsDispatched(w5, {FORMER, LATTER}, LATTER);
    w7 := After(w5, rest[0]);
    end := After(w7, last[0]);
    LastLeads(w7, {FORMER, LATTER});
    hide After;
    LeadsOnFrom(w5, rest, true, end, {FORMER, LATTER});
    LeadsOnFrom(w5, steps, false, end, {FORMER, LATTER});
  }

  /**
   From the start, in the order that the dispatcher keeps, and with room in front of the gate at every
   dispatch: under an action of target one, two background requests count in the end.
   */
  lemma DepthBeyondTarget()
    ensures IsRun(Initial(8), PrefixRun())
    ensures var applied := Run(Initial(8), PrefixRun());
            && UnderAction(applied, ReissueRun(), HALF, false) && IsLife(World(applied, {}, {}, {}), ReissueRun())
            && BgDepth(applied) == 0 && BgDepth(Run(applied, ReissueRun())) >= 2 && HALF.target == 1
  {
    ActionIsApplied();
    var w0 := World(Run(Initial(8), PrefixRun()), {}, {}, {});
    CountNone(w0.s.reqs, IsBgReserved);
    hide Count, Next, IsRun, PrefixRun, ReissueRun;
    var w7, end := ReissueLeads(w0);
    IsReissued(w7, {FORMER, LATTER});
    hide Working, After;
  }
}
