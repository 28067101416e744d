/** Runs from the start that reach the states in which the throttle does less than one would expect. */
module ThrottleScenarios {
  import opened Options
  import opened ThrottleSpec
  import opened ThrottleRuns
  import opened ThrottleWaking

  const THRESHOLD_US: nat := 600
  const SLOW_NS: nat := 600_000
  const MS: nat := 1_000_000

  // A read that the driver issues on its own account.
  const PROBE := Request(0, false)
  const PROBE_IO := Io(Read, 0, 8, false, false)

  /** Throttling is on, with the ratios and the threshold that the module starts with. */
  function At(now: nat, source: Source, queueMax: nat): Env {
    Env(now, true, Defaults(source), queueMax, THRESHOLD_US)
  }

  function Defaults(source: Source): Config {
    Config(source, Choice(Medium, Baseline), 75, 50, 25)
  }

  lemma {:induction false} RunConcat(s: State, a: seq<Step>, b: seq<Step>)
    requires IsRun(s, a) && IsRun(Run(s, a), b)
    ensures IsRun(s, a + b) && Run(s, a + b) == Run(Run(s, a), b)
    decreases |a|
  {
    if a == [] {
      assert a + b == b;
    } else {
      assert (a + b)[1..] == a[1..] + b;
      hide Next;
      RunConcat(Next(s, a[0]).s, a[1..], b);
    }
  }

  lemma RunOne(s: State, step: Step)
    ensures IsRun(s, [step]) <==> Proper(s, step)
    ensures Run(s, [step]) == Next(s, step).s
  {
    assert [step][1..] == [];
    hide Next;
  }

  lemma RunTwo(s: State, first: Step, second: Step)
    ensures IsRun(s, [first, second]) <==> Proper(s, first) && Proper(Next(s, first).s, second)
    ensures Run(s, [first, second]) == Next(Next(s, first).s, second).s
  {
    assert [first, second][1..] == [second];
    RunOne(Next(s, first).s, second);
    hide Next;
  }

  /** In its `n`-th millisecond the probe is issued, and it completes 0.6 ms later. */
  function Probe(n: nat, source: Source, queueMax: nat): seq<Step> {
    [Step(Issues(PROBE, Be, PROBE_IO), At(n * MS, source, queueMax)),
     Step(Completes(PROBE, true), At(n * MS + SLOW_NS, source, queueMax))]
  }

  function Probes(n: nat, source: Source, queueMax: nat): seq<Step> {
    if n == 0 then [] else Probes(n - 1, source, queueMax) + Probe(n, source, queueMax)
  }

  function SlowSample(n: nat): Sample {
    Sample(n * MS + SLOW_NS, THRESHOLD_US, false)
  }

  function SlowSamplesUpTo(n: nat): (w: seq<Sample>)
    ensures |w| == n && forall i :: 0 <= i < n ==> w[i] == SlowSample(i + 1)
  {
    if n == 0 then [] else SlowSamplesUpTo(n - 1) + [SlowSample(n)]
  }

  /** Nothing is under control yet, and there is a record for the probe. */
  predicate Quiet(s: State) {
    s.mode.Idle? && s.gate.None? && s.session == 0 && !s.dying && PROBE !in s.reqs && |s.reqs| < s.capacity
  }

  function Issuing(s: State, n: nat): State {
    Put(s, PROBE, Issued(Fresh(Be, PROBE_IO), PROBE_IO, n * MS, 0))
  }

  lemma ProbeIssues(s: State, n: nat, source: Source, queueMax: nat)
    requires Quiet(s) && n > 0
    ensures var step := Probe(n, source, queueMax)[0]; Proper(s, step) && Next(s, step).s == Issuing(s, n)
  {
  }

  lemma ProbeIsSlow(s: State, n: nat, source: Source, queueMax: nat)
    requires Quiet(s) && n > 0
    ensures var m, env := Issuing(s, n).reqs[PROBE], At(n * MS + SLOW_NS, source, queueMax);
            && Eligible(Issuing(s, n), m, env) && SampleOf(m, env.now) == SlowSample(n)
            && Sampled(Issuing(s, n), PROBE, env).window == Pushed(s.window, SlowSample(n))
  {
  }

  /** One of the first four slow completions only adds a sample. */
  lemma ProbeAdds(s: State, n: nat, source: Source, queueMax: nat)
    requires Quiet(s) && 0 < n < SAMPLES && s.window == SlowSamplesUpTo(n - 1)
    ensures IsRun(s, Probe(n, source, queueMax))
    ensures Run(s, Probe(n, source, queueMax)) == s.(window := SlowSamplesUpTo(n))
  {
    var steps := Probe(n, source, queueMax);
    hide Run, IsRun, Next, Proper, Complete, Issuing, Quiet, SlowSamplesUpTo;
    ProbeIssues(s, n, source, queueMax);
    RunTwo(s, steps[0], steps[1]);
    CompletionStep(Issuing(s, n), steps[1]);
    ProbeCompletes(s, n, source, queueMax);
  }

  lemma ProbeCompletes(s: State, n: nat, source: Source, queueMax: nat)
    requires Quiet(s) && 0 < n < SAMPLES && s.window == SlowSamplesUpTo(n - 1)
    ensures var env := At(n * MS + SLOW_NS, source, queueMax);
            Complete(Issuing(s, n), PROBE, true, env).s == s.(window := SlowSamplesUpTo(n))
  {
    var issued, env := Issuing(s, n), At(n * MS + SLOW_NS, source, queueMax);
    ProbeIsSlow(s, n, source, queueMax);
    assert s.reqs[PROBE := issued.reqs[PROBE]] - {PROBE} == s.reqs;
    JudgedFrame(issued, PROBE, env);
    ReleaseFrame(Judged(issued, PROBE, env).s, PROBE);
    assert !Triggers(issued, PROBE, env);
    assert Retired(issued, PROBE, env).s == s.(window := SlowSamplesUpTo(n));
  }

  lemma {:induction false} ProbesAdd(s: State, n: nat, source: Source, queueMax: nat)
    requires Quiet(s) && n < SAMPLES && s.window == []
    ensures IsRun(s, Probes(n, source, queueMax))
    ensures Run(s, Probes(n, source, queueMax)) == s.(window := SlowSamplesUpTo(n))
  {
    if n > 0 {
      ProbesAdd(s, n - 1, source, queueMax);
      ProbeAdds(s.(window := SlowSamplesUpTo(n - 1)), n, source, queueMax);
      RunConcat(s, Probes(n - 1, source, queueMax), Probe(n, source, queueMax));
    }
  }

  /** An inference in session 0 is pending; nothing else has changed but the window. */
  ghost predicate Armed(s: State, end: State, source: Source) {
    && end.mode.Pending? && end.mode.ids == Ids(0, s.control + 1, s.decision + 1) && !end.mode.timedOut
    && end.mode.config == Defaults(source)
    && end.gate.None? && end.reqs == s.reqs && end.capacity == s.capacity && !end.dying && end.session == 0
    && end.window == SlowSamplesUpTo(5)
  }

  lemma FiveAreSlow()
    ensures Pushed(SlowSamplesUpTo(4), SlowSample(5)) == SlowSamplesUpTo(5)
            && SlowWindow(SlowSamplesUpTo(5), THRESHOLD_US)
  {
    var w := SlowSamplesUpTo(5);
    assert w[0] == SlowSample(1) && w[4] == SlowSample(5);
  }

  lemma ProbeRetires(s: State, source: Source, queueMax: nat)
    requires Quiet(s) && s.window == SlowSamplesUpTo(4)
    ensures var issued, env := Issuing(s, 5), At(5 * MS + SLOW_NS, source, queueMax);
            Triggers(issued, PROBE, env) && Retired(issued, PROBE, env).s == s.(window := SlowSamplesUpTo(5))
  {
    var issued, env := Issuing(s, 5), At(5 * MS + SLOW_NS, source, queueMax);
    ProbeIsSlow(s, 5, source, queueMax);
    FiveAreSlow();
    assert s.reqs[PROBE := issued.reqs[PROBE]] - {PROBE} == s.reqs;
    hide SlowWindow, Eligible, Pushed;
    JudgedFrame(issued, PROBE, env);
    ReleaseFrame(Judged(issued, PROBE, env).s, PROBE);
    hide Judged, Sampled;
  }

  /** The fifth slow completion starts an inference, in session 0. */
  lemma ProbeTriggers(s: State, source: Source, queueMax: nat)
    requires Quiet(s) && queueMax > 0 && s.window == SlowSamplesUpTo(4)
    ensures IsRun(s, Probe(5, source, queueMax))
    ensures Armed(s, Run(s, Probe(5, source, queueMax)), source)
  {
    hide Run, IsRun, Next, Proper, Armed, Complete, Issuing, Quiet, SlowSamplesUpTo;
    var steps := Probe(5, source, queueMax);
    ProbeIssues(s, 5, source, queueMax);
    RunTwo(s, steps[0], steps[1]);
    CompletionStep(Issuing(s, 5), steps[1]);
    FifthCompletes(s, source, queueMax);
  }

  lemma CompletionStep(s: State, step: Step)
    requires step.event == Completes(PROBE, true) && step.env.now > 0
    ensures Proper(s, step) && Next(s, step) == Complete(s, PROBE, true, step.env)
  {
  }

  lemma FifthCompletes(s: State, source: Source, queueMax: nat)
    requires Quiet(s) && queueMax > 0 && s.window == SlowSamplesUpTo(4)
    ensures Armed(s, Complete(Issuing(s, 5), PROBE, true, At(5 * MS + SLOW_NS, source, queueMax)).s, source)
  {
    hide Started, Triggers, Retired, SlowVerdict, Defaults;
    ProbeRetires(s, source, queueMax);
    FiveAreSlow();
    StartedWhen(s.(window := SlowSamplesUpTo(5)), true, At(5 * MS + SLOW_NS, source, queueMax));
  }

  /** Five slow completions in a quiet state make an inference pending. */
  lemma FiveProbes(s: State, source: Source, queueMax: nat)
    requires Quiet(s) && queueMax > 0 && s.window == []
    ensures IsRun(s, Probes(5, source, queueMax))
    ensures Armed(s, Run(s, Probes(5, source, queueMax)), source)
  {
    ProbesAdd(s, 4, source, queueMax);
    ProbeTriggers(s.(window := SlowSamplesUpTo(4)), source, queueMax);
    RunConcat(s, Probes(4, source, queueMax), Probe(5, source, queueMax));
  }

  // ---- What they lead to ----

  /** Five slow completions, and a background request that is turned away. */
  function RefusalRun(): seq<Step> {
    Probes(5, Fixed, 32) + [Step(Asks(false, true), At(7 * MS, Fixed, 32))]
  }

  /**
   Switching the demonstration mode on is no region and runs no queue. The request that was turned
   away would be let through from then on, and it has not been woken.
   */
  lemma ASilentDemoIsMet(capacity: nat)
    requires capacity > 0
    ensures IsRun(Initial(capacity), RefusalRun())
    ensures var end := Run(Initial(capacity), RefusalRun());
            end.gate.Some? && !Allowed(end, true, false) && Allowed(end, true, true) && !Noticed(end, [])
  {
    hide Run, IsRun, Next, Probes;
    var s, probes, ask := Initial(capacity), Probes(5, Fixed, 32), Step(Asks(false, true), At(7 * MS, Fixed, 32));
    FiveProbes(s, Fixed, 32);
    var armed := Run(s, probes);
    IsRefused(s, armed);
    RunOne(armed, ask);
    RunConcat(s, probes, [ask]);
  }

  lemma IsRefused(s: State, armed: State)
    requires Armed(s, armed, Fixed)
    ensures var ask := Step(Asks(false, true), At(7 * MS, Fixed, 32));
            var refused := Next(armed, ask).s;
            Proper(armed, ask) && refused.gate.Some? && !Allowed(refused, true, false) && Allowed(refused, true, true)
  {
  }

  /** Five slow completions, a background request that is turned away, and the timer. */
  function TimeoutRun(): seq<Step> {
    var env := At(7 * MS, Fixed, 32);
    RefusalRun() + [Step(TimerFires, env)]
  }

  /** In a queue that was created while throttling was on, the timeout then opens the gate and wakes nobody. */
  lemma ASilentTimeoutIsMet(capacity: nat)
    requires capacity > 0
    ensures IsRun(Initial(capacity), TimeoutRun())
    ensures var end, timeout := Run(Initial(capacity), TimeoutRun()), Step(TimesOut, At(8 * MS, Fixed, 32));
            && end.gate == Some(Inference) && end.mode.Pending? && end.mode.timedOut
            && Next(end, timeout).s.gate.None? && !Next(end, timeout).wake
  {
    hide Run, IsRun, Next, Probes;
    var env, s := At(7 * MS, Fixed, 32), Initial(capacity);
    var probes, ask, timer := Probes(5, Fixed, 32), Step(Asks(false, true), env), Step(TimerFires, env);
    FiveProbes(s, Fixed, 32);
    var armed := Run(s, probes);
    TimesOutSilently(s, armed);
    RunOne(armed, ask);
    RunOne(Next(armed, ask).s, timer);
    RunConcat(s, probes, [ask]);
    RunConcat(s, probes + [ask], [timer]);
  }

  lemma TimesOutSilently(s: State, armed: State)
    requires Armed(s, armed, Fixed)
    ensures var env := At(7 * MS, Fixed, 32);
            var ask, timer := Step(Asks(false, true), env), Step(TimerFires, env);
            var timeout := Step(TimesOut, At(8 * MS, Fixed, 32));
            var refused := Next(armed, ask).s;
            var end := Next(refused, timer).s;
            && Proper(armed, ask) && Proper(refused, timer)
            && end.gate == Some(Inference) && end.mode.Pending? && end.mode.timedOut
            && Next(end, timeout).s.gate.None? && !Next(end, timeout).wake
  {
    hide CanRun;
  }

  /** Five slow completions, a background request that is turned away, and one arrival that takes the only record. */
  function ExhaustionRun(): seq<Step> {
    var env := At(7 * MS, Fixed, 32);
    RefusalRun() + [Step(Classifies(Request(1, true), Be, PROBE_IO), env)]
  }

  /** The next arrival finds no record: control is given up, the gate opens, and nobody is woken. */
  lemma ASilentExhaustionIsMet()
    ensures IsRun(Initial(1), ExhaustionRun())
    ensures var end := Run(Initial(1), ExhaustionRun());
            var arrival := Step(Classifies(Request(2, true), Be, PROBE_IO), At(8 * MS, Fixed, 32));
            && end.gate == Some(Inference) && end.mode.Pending? && Proper(end, arrival)
            && Next(end, arrival).s.gate.None? && !Next(end, arrival).wake
  {
    hide Run, IsRun, Next, Probes;
    var env, s := At(7 * MS, Fixed, 32), Initial(1);
    var probes, ask := Probes(5, Fixed, 32), Step(Asks(false, true), env);
    var first := Step(Classifies(Request(1, true), Be, PROBE_IO), env);
    FiveProbes(s, Fixed, 32);
    var armed := Run(s, probes);
    ExhaustsSilently(s, armed);
    RunOne(armed, ask);
    RunOne(Next(armed, ask).s, first);
    RunConcat(s, probes, [ask]);
    RunConcat(s, probes + [ask], [first]);
  }

  lemma ExhaustsSilently(s: State, armed: State)
    requires Armed(s, armed, Fixed) && s.capacity == 1 && s.reqs == map[]
    ensures var env := At(7 * MS, Fixed, 32);
            var ask, first := Step(Asks(false, true), env), Step(Classifies(Request(1, true), Be, PROBE_IO), env);
            var arrival := Step(Classifies(Request(2, true), Be, PROBE_IO), At(8 * MS, Fixed, 32));
            var refused := Next(armed, ask).s;
            var end := Next(refused, first).s;
            && Proper(armed, ask) && Proper(refused, first) && Proper(end, arrival)
            && end.gate == Some(Inference) && end.mode.Pending?
            && Next(end, arrival).s.gate.None? && !Next(end, arrival).wake
  {
    hide CanRun, Enqueued;
  }

  const FIRST := Request(1, false)
  const SECOND := Request(2, false)

  /** Two requests are issued and stay with the device; then come five slow completions. */
  function CrowdedRun(): seq<Step> {
    var env := At(MS, Model, 32);
    [Step(Issues(FIRST, Be, PROBE_IO), env)] + [Step(Issues(SECOND, Be, PROBE_IO), env)] + Probes(5, Model, 32)
  }

  /** An inference is pending while two requests are issued. */
  lemma TwoAreIssued()
    ensures IsRun(Initial(8), CrowdedRun())
    ensures var end := Run(Initial(8), CrowdedRun());
            && end.mode.Pending? && !end.mode.timedOut && end.mode.config.source == Model && Coherent(end.window)
            && end.reqs.Keys == {FIRST, SECOND} && end.reqs[FIRST].issued && end.reqs[SECOND].issued
               && end.capacity == 8
  {
    var env, s := At(MS, Model, 32), Initial(8);
    var first, second := Step(Issues(FIRST, Be, PROBE_IO), env), Step(Issues(SECOND, Be, PROBE_IO), env);
    var one := Next(s, first).s;
    var two := Next(one, second).s;
    RunOne(s, first);
    RunOne(one, second);
    assert one.reqs.Keys == {FIRST} && |one.reqs| == |one.reqs.Keys|;
    assert two.reqs.Keys == {FIRST, SECOND} && |two.reqs| == |two.reqs.Keys|;
    FiveProbes(two, Model, 32);
    FiveAreSlow();
    RunConcat(s, [first], [second]);
    RunConcat(s, [first] + [second], Probes(5, Model, 32));
    hide Run, IsRun, Next, Probes;
  }
}
