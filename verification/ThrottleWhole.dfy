/** What holds at the end of every run that starts with a fresh context. */
module ThrottleWhole {
  import opened ThrottleSpec
  import opened ThrottleRuns
  import opened ThrottleTheorems
  import opened ThrottleWindow
  import opened ThrottleGate

  /**
   The invariant holds and a closed gate has a standing reason; the anomalies are the mishaps; the
   decisions that were applied increase; the window is the last five samples since control was last
   given up; and no stretch of control was opened with fewer than five samples.
   */
  lemma EveryRun(capacity: nat, steps: seq<Step>)
    requires IsRun(Initial(capacity), steps)
    ensures var s := Initial(capacity);
            var end := Run(s, steps);
            && Inv(end) && GateOk(end) && end.capacity == capacity
            && end.anomalies == Mishaps(s, steps)
            && Increasing(Applied(s, steps), 1)
            && end.window == LastFive(History(s, steps, []))
            && (end.control > 0 ==> RecordedIn(s, steps) >= SAMPLES)
  {
    var s := Initial(capacity);
    InitialOk(capacity);
    assert GateOk(s) && s.window == LastFive([]) && NextDecision(s) == 1;
    hide Inv, GateOk, Run, IsRun, Mishaps, Applied, Increasing, History, RecordedIn;
    RunKeeps(s, steps);
    GateHasReason(s, steps);
    AnomaliesAreMishaps(s, steps);
    AppliedIncreases(s, steps);
    WindowIsLastFive(s, steps, []);
    ControlTakesSamples(s, steps);
    CapacityStays(s, steps);
  }

  lemma {:induction false} CapacityStays(s: State, steps: seq<Step>)
    requires Inv(s) && IsRun(s, steps)
    ensures Run(s, steps).capacity == s.capacity
    decreases |steps|
  {
    if steps != [] {
      StepKeeps(s, steps[0]);
      StepTallies(s, steps[0]);
      hide Inv, Next, Proper;
      CapacityStays(Next(s, steps[0]).s, steps[1..]);
    }
  }
}
