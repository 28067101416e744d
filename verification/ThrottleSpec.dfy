/**
 The throttle controller of one queue, as an abstract machine: the live requests, the
 controller's mode and the latency window are values, and every locked region is a function.
 There are no counters here, so nothing can underflow; `ThrottleContext` refines this.
 */
module ThrottleSpec {
  import opened Options

  // The latency window and a verdict both take five samples.
  const SAMPLES: nat := 5
  const SPAN_MAX_US: nat := 10000
  const NS_PER_US: nat := 1000
  const U32_MAX: nat := 0xFFFF_FFFF

  datatype Class = Foreground | Background
  datatype QueueClass = Hp | Rt | Be
  datatype Op = Read | Write | Other(code: nat)

  /** `useSched` tells whether the request carries a pointer to its own bookkeeping. */
  datatype Request = Request(id: nat, useSched: bool)

  /** What the block layer says about a request: operation, sectors, and two attributes. */
  datatype Io = Io(op: Op, start: nat, end: nat, excluded: bool, high: bool)

  datatype Meta = Meta(cls: Class, queueClass: QueueClass, io: Io, queued: bool, queuedTs: nat,
                       reserved: bool, bgReserved: bool, issued: bool, indexed: bool,
                       issueTs: nat, issueSession: nat, decision: nat, sampled: bool)

  type Requests = map<Request, Meta>

  datatype Level = No | Light | Medium | Heavy
  datatype Policy = Baseline | Seq | Small
  datatype Choice = Choice(level: Level, policy: Policy)
  datatype Action = Action(choice: Choice, ratio: nat, queueMax: nat, target: nat, decision: nat)

  datatype Source = Fixed | Model
  datatype Config = Config(source: Source, fixedChoice: Choice, light: nat, medium: nat, heavy: nat)

  datatype Feedback = NoFeedback | WaitDispatch | WaitIssue(r: Request) | WaitComplete(r: Request)
  datatype Vote = Vote(decision: nat, latency: nat)
  datatype Sample = Sample(ts: nat, latency: nat, foreground: bool)
  datatype Gate = Inference | Depth

  datatype Ids = Ids(session: nat, control: nat, decision: nat)

  datatype Mode =
    | Idle
    | Pending(ids: Ids, config: Config, snapshot: Option<Snapshot>, timedOut: bool, running: bool)
    | Controlled(action: Action, feedback: Feedback, votes: seq<Vote>, postApply: bool)

  datatype Snapshot = Snapshot(decisionTs: nat, queueMax: nat, threshold: nat,
                               deviceQ: nat, reserved: nat, deviceQFg: nat, deviceQSlow: nat,
                               windowCount: nat, windowMean: nat, windowSpan: nat, windowSlow: nat, windowFg: nat,
                               waitingTotal: nat, waiting: nat, waitingFg: nat, waitingHigh: nat,
                               waitingContiguous: nat)

  datatype State = State(capacity: nat, reqs: Requests, mode: Mode, gate: Option<Gate>, window: seq<Sample>,
                         session: nat, control: nat, decision: nat, anomalies: nat, dying: bool)

  /** A new state, and whether the hardware queues are run afterwards. */
  datatype Outcome = Outcome(s: State, wake: bool)

  /** What a locked region reads of its surroundings. */
  datatype Env = Env(now: nat, enabled: bool, config: Config, queueMax: nat, threshold: nat)

  // ---- Requests ----

  ghost function Count(reqs: Requests, p: Meta -> bool): nat {
    |set r | r in reqs && p(reqs[r])|
  }

  predicate IsReserved(m: Meta) { m.reserved }
  predicate IsBgReserved(m: Meta) { m.bgReserved }
  predicate IsIssued(m: Meta) { m.issued }
  predicate IsQueued(m: Meta) { m.queued }
  predicate IsWaitingFg(m: Meta) { m.queued && m.cls == Foreground }
  predicate IsWaitingBg(m: Meta) { m.queued && m.cls == Background }
  predicate IsIssuedFg(m: Meta) { m.issued && m.cls == Foreground }
  predicate IsWaitingHigh(m: Meta) { m.queued && m.io.high }

  /** The record of a request is written. */
  function Put(s: State, r: Request, m: Meta): (t: State)
    ensures r in t.reqs && t.reqs[r] == m && t == s.(reqs := t.reqs)
  {
    s.(reqs := s.reqs[r := m])
  }

  /** Only a request with a pointer of its own is found through it. */
  predicate Known(s: State, r: Request) {
    r.useSched && r in s.reqs
  }

  predicate ReadOrWrite(op: Op) {
    op.Read? || op.Write?
  }

  function ClassFor(q: QueueClass): Class {
    if q == Hp then Foreground else Background
  }

  function Fresh(q: QueueClass, io: Io): Meta {
    Meta(ClassFor(q), Hp, io, false, 0, false, false, false, false, 0, 0, 0, false)
  }

  // ---- The controller ----

  function Fallback(s: State): Outcome {
    Outcome(s.(mode := Idle, gate := None, window := []), s.gate.Some?)
  }

  /** Something that must not happen has happened: it is counted and control is given up. */
  function Anomaly(s: State): Outcome {
    Fallback(s.(anomalies := s.anomalies + 1))
  }

  ghost predicate CanRun(s: State) {
    !s.mode.Controlled? || s.mode.action.choice.level == No || Count(s.reqs, IsBgReserved) < s.mode.action.target
  }

  function FeedbackOf(mode: Mode): Feedback {
    if mode.Controlled? then mode.feedback else NoFeedback
  }

  predicate Binds(mode: Mode, r: Request) {
    FeedbackOf(mode) == WaitIssue(r) || FeedbackOf(mode) == WaitComplete(r)
  }

  function Mean(votes: seq<Vote>): nat {
    if votes == [] then 0 else Total(votes) / |votes|
  }

  function Total(votes: seq<Vote>): nat {
    if votes == [] then 0 else Total(votes[..|votes| - 1]) + votes[|votes| - 1].latency
  }

  // ---- The latency window ----

  function Pushed(w: seq<Sample>, x: Sample): seq<Sample> {
    if |w| < SAMPLES then w + [x] else w[1..] + [x]
  }

  predicate Coherent(w: seq<Sample>) {
    |w| == SAMPLES && 0 < w[0].ts <= w[SAMPLES - 1].ts && w[SAMPLES - 1].ts - w[0].ts <= SPAN_MAX_US * NS_PER_US
  }

  function SlowSamples(w: seq<Sample>, threshold: nat): nat {
    if w == [] then 0 else SlowSamples(w[..|w| - 1], threshold) + if w[|w| - 1].latency >= threshold then 1 else 0
  }

  function FgSamples(w: seq<Sample>): nat {
    if w == [] then 0 else FgSamples(w[..|w| - 1]) + if w[|w| - 1].foreground then 1 else 0
  }

  function LatencySum(w: seq<Sample>): nat {
    if w == [] then 0 else LatencySum(w[..|w| - 1]) + w[|w| - 1].latency
  }

  /** Five samples within ten milliseconds, all of them slow. */
  predicate SlowWindow(w: seq<Sample>, threshold: nat) {
    Coherent(w) && forall i :: 0 <= i < |w| ==> w[i].latency >= threshold
  }

  // ---- The snapshot ----

  /** A waiting request continues, or is continued by, one that the device is working on. */
  ghost predicate Contiguous(reqs: Requests, io: Io) {
    ReadOrWrite(io.op) &&
    exists r :: r in reqs && reqs[r].issued && reqs[r].io.op == io.op
        && (reqs[r].io.end == io.start || reqs[r].io.start == io.end)
  }

  predicate IsSlow(m: Meta, env: Env) {
    m.issued && !m.io.excluded && 0 < m.issueTs <= env.now && env.now - m.issueTs >= env.threshold * NS_PER_US
  }

  ghost function SlowTest(env: Env): Meta -> bool {
    (m: Meta) => IsSlow(m, env)
  }

  ghost function ContiguousTest(reqs: Requests): Meta -> bool {
    (m: Meta) => m.queued && Contiguous(reqs, m.io)
  }

  ghost function SnapshotOf(s: State, env: Env): Option<Snapshot> {
    if env.queueMax == 0 || !Coherent(s.window) then None
    else Some(Snapshot(env.now, env.queueMax, env.threshold,
                       Count(s.reqs, IsIssued), Count(s.reqs, IsReserved), Count(s.reqs, IsIssuedFg),
                       Count(s.reqs, SlowTest(env)),
                       SAMPLES, LatencySum(s.window) / SAMPLES, (s.window[SAMPLES - 1].ts - s.window[0].ts) / NS_PER_US,
                       SlowSamples(s.window, env.threshold), FgSamples(s.window),
                       Count(s.reqs, IsQueued), Count(s.reqs, IsWaitingBg), Count(s.reqs, IsWaitingFg),
                       Count(s.reqs, IsWaitingHigh), Count(s.reqs, ContiguousTest(s.reqs))))
  }

  // ---- Requests pass through the scheduler ----

  function Enqueued(m: Meta, env: Env): Meta {
    if m.queued then m
    else m.(queued := true, queuedTs := if m.cls == Background && env.enabled then env.now else m.queuedTs)
  }

  function Dequeued(m: Meta): Meta {
    if m.queued then m.(queued := false, queuedTs := 0) else m
  }

  /** A request arrives at the scheduler. Giving up control when the pool is exhausted wakes nobody here. */
  function Classify(s: State, r: Request, q: QueueClass, io: Io, env: Env): Outcome {
    if Known(s, r) then Outcome(Put(s, r, Enqueued(s.reqs[r], env)), false)
    else if |s.reqs| == s.capacity then Outcome(Anomaly(s).s, false)
    else Outcome(Put(s, r, Enqueued(Fresh(q, io).(queueClass := q), env)), false)
  }

  function Update(s: State, r: Request, io: Io): Outcome {
    Outcome(if Known(s, r) && !s.reqs[r].issued then Put(s, r, s.reqs[r].(io := io)) else s, false)
  }

  function Unqueue(s: State, r: Request): Outcome {
    Outcome(if Known(s, r) then Put(s, r, Dequeued(s.reqs[r])) else s, false)
  }

  function WithDepth(m: Meta): Meta {
    m.(reserved := true, bgReserved := m.queueClass != Hp)
  }

  /** The request no longer waits; what it will be judged under is noted. */
  function Prepared(s: State, r: Request, excluded: bool, env: Env): State
    requires r in s.reqs
  {
    var m := s.reqs[r];
    var noted := m.(io := m.io.(excluded := excluded),
                    decision := if env.enabled && s.mode.Controlled? then s.mode.action.decision else 0);
    Put(s, r, Dequeued(noted)).(mode := if s.mode.Controlled? then s.mode.(postApply := false) else s.mode)
  }

  /**
   A dispatch under an action that waits for one is the next to be judged by, unless its device time does not count.
   */
  function Bound(s: State, r: Request, env: Env): State
    requires r in s.reqs
  {
    if env.enabled && s.mode.Controlled? && !s.reqs[r].io.excluded && s.mode.feedback == WaitDispatch
    then s.(mode := s.mode.(feedback := WaitIssue(r)))
    else s
  }

  /**
   The dispatcher starts a request. One that has started already is an anomaly after which the queues are run anyway.
   */
  function Dispatch(s: State, r: Request, excluded: bool, env: Env): Outcome {
    if !Known(s, r) then Anomaly(s)
    else
      var prepared := Prepared(s, r, excluded, env);
      if prepared.reqs[r].reserved then Outcome(Anomaly(prepared).s, true)
      else Outcome(Bound(Put(prepared, r, WithDepth(prepared.reqs[r])), r, env), false)
  }

  function Unbound(s: State, r: Request): State {
    if Binds(s.mode, r) then s.(mode := s.mode.(feedback := WaitDispatch)) else s
  }

  ghost function GateOpened(s: State): Outcome {
    if s.gate.Some? && CanRun(s) then Outcome(s.(gate := None), true) else Outcome(s, false)
  }

  function Cleared(m: Meta): Meta {
    m.(issued := false, indexed := false, reserved := false, bgReserved := false)
  }

  /** The request is no longer with the device, nor started; that may open the gate. */
  ghost function Release(s: State, r: Request): Outcome
    requires r in s.reqs
  {
    var after := Put(s, r, Cleared(s.reqs[r]));
    if s.reqs[r].reserved then GateOpened(after) else Outcome(after, false)
  }

  function Forget(s: State, r: Request): State {
    s.(reqs := s.reqs - {r})
  }

  ghost function Finish(s: State, r: Request): Outcome {
    if !Known(s, r) then Outcome(s, false)
    else
      var released := Release(Unbound(s, r), r);
      Outcome(Forget(released.s, r), released.wake)
  }

  ghost function Requeue(s: State, r: Request): Outcome {
    if r !in s.reqs then Outcome(s, false)
    else
      var released := Release(Unbound(s, r), r);
      var m := released.s.reqs[r].(issueTs := 0, issueSession := 0, decision := 0, sampled := false);
      Outcome(Put(released.s, r, m), released.wake)
  }

  // ---- Issue and completion ----

  /**
   The device has the request: it counts as started and as issued, and a read or write can be found by its sectors.
   */
  function Placed(m: Meta, io: Io): Meta {
    var joins := !m.indexed && ReadOrWrite(io.op);
    m.(reserved := true,
       bgReserved := if m.reserved then m.bgReserved else m.queueClass != Hp,
       issued := true,
       indexed := m.indexed || joins,
       io := Io(io.op, if joins then io.start else m.io.start, if joins then io.end else m.io.end,
                io.excluded, m.io.high))
  }

  function Stamped(m: Meta, now: nat, session: nat): Meta {
    if m.issueTs == 0 then m.(issueTs := now, sampled := false, issueSession := session) else m
  }

  function Issued(m: Meta, io: Io, now: nat, session: nat): Meta {
    Stamped(Placed(m, io), now, session)
  }

  /** Feedback that waited for this issue now waits for the completion. */
  function FeedbackIssued(s: State, r: Request): State
    requires r in s.reqs
  {
    if s.reqs[r].io.excluded || FeedbackOf(s.mode) != WaitIssue(r) then s
    else s.(mode := s.mode.(feedback := WaitComplete(r)))
  }

  /** The device driver starts a request, perhaps one that the scheduler has never seen. */
  function Issue(s: State, r: Request, q: QueueClass, io: Io, env: Env): Outcome {
    if r !in s.reqs && |s.reqs| == s.capacity then Outcome(Anomaly(s).s, true)
    else
      var m := if r in s.reqs then s.reqs[r] else Fresh(q, io);
      Outcome(FeedbackIssued(Put(s, r, Issued(m, io, env.now, if env.enabled then s.session else 0)), r), false)
  }

  /** The time in the device in microseconds. */
  function Latency(m: Meta, now: nat): Option<nat> {
    if 0 < m.issueTs < now then
      var us := (now - m.issueTs) / NS_PER_US;
      Some(if us <= U32_MAX then us else U32_MAX)
    else None
  }

  /** A completion that enters the window. */
  predicate Eligible(s: State, m: Meta, env: Env) {
    Latency(m, env.now).Some? && !m.sampled && !m.io.excluded && env.enabled && m.issueSession == s.session
  }

  function SampleOf(m: Meta, now: nat): Sample
    requires Latency(m, now).Some?
  {
    Sample(now, Latency(m, now).value, m.cls == Foreground)
  }

  function Sampled(s: State, r: Request, env: Env): State
    requires r in s.reqs
  {
    var m := s.reqs[r];
    if Eligible(s, m, env) then s.(window := Pushed(s.window, SampleOf(m, env.now))) else s
  }

  /** The new sample completes a slow window while nothing is under control. */
  predicate Triggers(s: State, r: Request, env: Env)
    requires r in s.reqs
  {
    Eligible(s, s.reqs[r], env) && s.mode.Idle? && SlowWindow(Sampled(s, r, env).window, env.threshold)
  }

  /** The completion is a vote on the action in force. */
  predicate Votes(s: State, r: Request, now: nat)
    requires r in s.reqs
  {
    Latency(s.reqs[r], now).Some? && !s.reqs[r].io.excluded && FeedbackOf(s.mode) == WaitComplete(r)
  }

  function WithVote(s: State, r: Request, now: nat): State
    requires r in s.reqs && Votes(s, r, now)
  {
    s.(mode := s.mode.(votes := s.mode.votes + [Vote(s.reqs[r].decision, Latency(s.reqs[r], now).value)]))
  }

  /** The fifth vote is in, and the mean is still at or above the threshold. */
  predicate StaysSlow(voted: State, threshold: nat)
    requires voted.mode.Controlled?
  {
    |voted.mode.votes| == SAMPLES && Mean(voted.mode.votes) >= threshold
  }

  function AfterVote(voted: State, threshold: nat): Outcome
    requires voted.mode.Controlled?
  {
    if |voted.mode.votes| != SAMPLES then Outcome(voted.(mode := voted.mode.(feedback := WaitDispatch)), false)
    else if StaysSlow(voted, threshold) then Outcome(voted.(mode := voted.mode.(feedback := NoFeedback)), false)
    else Fallback(voted)
  }

  /** A new inference, unless control is off, or a fixed action cannot be founded on a snapshot. */
  ghost function Started(s: State, newControl: bool, env: Env): Option<State> {
    if !env.enabled || s.dying || s.mode.Pending? then None
    else
      var snapshot := if env.config.source == Model then None else SnapshotOf(s, env);
      if env.config.source != Model && snapshot.None? then None
      else
        var control := if newControl then s.control + 1 else s.control;
        Some(s.(control := control, decision := s.decision + 1,
                mode := Pending(Ids(s.session, control, s.decision + 1), env.config, snapshot, false, false)))
  }

  predicate SlowVerdict(s: State, r: Request, env: Env)
    requires r in s.reqs
  {
    Votes(s, r, env.now) && StaysSlow(WithVote(s, r, env.now), env.threshold)
  }

  /** A vote is counted; the binding of a completion that is none is given up. */
  function Counted(s: State, r: Request, env: Env): Outcome
    requires r in s.reqs
  {
    if Votes(s, r, env.now) then AfterVote(WithVote(s, r, env.now), env.threshold) else Outcome(Unbound(s, r), false)
  }

  /** The completion has been sampled and counted ... */
  function Judged(s: State, r: Request, env: Env): Outcome
    requires r in s.reqs
  {
    Counted(Sampled(s, r, env), r, env)
  }

  /** ... and the request has left. */
  ghost function Retired(s: State, r: Request, env: Env): Outcome
    requires r in s.reqs
  {
    var judged := Judged(s, r, env);
    var released := Release(judged.s, r);
    Outcome(Forget(released.s, r), judged.wake || released.wake)
  }

  /** A request comes back from the device for good. */
  ghost function Complete(s: State, r: Request, final: bool, env: Env): Outcome {
    if r !in s.reqs || !final then Outcome(s, false)
    else
      var rest := Retired(s, r, env);
      if SlowVerdict(s, r, env) || Triggers(s, r, env) then
        var started := Started(rest.s, Triggers(s, r, env), env);
        if started.Some? then Outcome(started.value, rest.wake)
        else if SlowVerdict(s, r, env) then Outcome(Fallback(rest.s).s, rest.wake || Fallback(rest.s).wake)
        else rest
      else rest
  }

  // ---- Inference ----

  predicate Current(s: State, ids: Ids) {
    s.mode.Pending? && !s.mode.timedOut && s.mode.ids == ids
  }

  function Rested(s: State): State {
    if s.mode.Pending? then s.(mode := s.mode.(running := false)) else s
  }

  function Ratio(config: Config, level: Level): nat {
    match level
    case No => 0
    case Light => config.light
    case Medium => config.medium
    case Heavy => config.heavy
  }

  function Target(level: Level, ratio: nat, queueMax: nat): nat {
    if level == No then 0
    else
      var share := (queueMax * ratio + 99) / 100;
      if share < queueMax then share else queueMax
  }

  /** The worker looks at the inference it has been started for; without an answer it does nothing more. */
  function WorkerRead(s: State): Option<Mode> {
    if s.mode.Pending? && !s.mode.timedOut && !s.dying && s.mode.snapshot.Some? then Some(s.mode) else None
  }

  /** The region in which the worker reads: it either has work to do or rests. */
  function WorkerReads(s: State): Outcome {
    Outcome(if WorkerRead(s).Some? then s else Rested(s), false)
  }

  /** The worker comes back with a choice, or with an error, for the inference it had read. */
  function WorkerApply(s: State, ids: Ids, source: Source, choice: Option<Choice>, queueMax: nat): Outcome {
    if choice.None? || queueMax == 0 then
      if Current(s, ids) then Fallback(s) else Outcome(s, false)
    else if !Current(s, ids) || s.dying then Outcome(Rested(s), false)
    else
      var ratio := Ratio(s.mode.config, choice.value.level);
      if choice.value.level != No && !(0 < ratio <= 100) then Fallback(s)
      else
        var action := Action(choice.value, ratio, queueMax, Target(choice.value.level, ratio, queueMax), ids.decision);
        Outcome(s.(mode := Controlled(action, WaitDispatch, [], source == Model), gate := None), true)
  }

  function ScheduleFail(s: State): Outcome {
    if s.mode.Pending? then Fallback(s) else Outcome(s, false)
  }

  /** The model thread takes its snapshot. */
  ghost function ModelRun(s: State, env: Env): Outcome {
    if !s.mode.Pending? || s.mode.timedOut || s.dying || s.mode.config.source != Model then Outcome(Rested(s), false)
    else
      var snapshot := SnapshotOf(s, env);
      if snapshot.None? then Fallback(s) else Outcome(s.(mode := s.mode.(snapshot := snapshot)), false)
  }

  ghost predicate ModelDue(s: State) {
    s.mode.Pending? && !s.mode.running && s.mode.config.source == Model && Count(s.reqs, IsWaitingBg) > 0
  }

  /** The dispatcher hands the inference to the model thread, or gives up because that is busy. */
  ghost function DispatchModel(s: State, enabled: bool, free: bool): Outcome {
    if !enabled || !ModelDue(s) then Outcome(s, false)
    else if free then Outcome(s.(mode := s.mode.(running := true)), false)
    else Fallback(s)
  }

  function Timer(s: State): Outcome {
    Outcome(if s.mode.Pending? && !s.dying then s.(mode := s.mode.(timedOut := true)) else s, false)
  }

  /** Session 0 reads as "nothing happened" here, so its waiters are not woken. */
  function TimeoutWork(s: State): Outcome {
    if s.mode.Pending? && s.mode.timedOut then
      Outcome(Fallback(s).s, Fallback(s).wake && s.mode.ids.session != 0)
    else Outcome(s, false)
  }

  // ---- The gate, and switching on and off ----

  ghost predicate Allowed(s: State, enabled: bool, demo: bool) {
    !enabled || demo || (!s.mode.Pending? && CanRun(s))
  }

  ghost function GateQuery(s: State, enabled: bool, demo: bool): Outcome {
    if Allowed(s, enabled, demo) then Outcome(s, false)
    else Outcome(s.(gate := Some(if s.mode.Pending? then Inference else Depth)), false)
  }

  function Restamped(m: Meta, newSession: bool, now: nat): Meta {
    m.(queuedTs := if newSession && m.queued && m.cls == Background then now else 0)
  }

  function Reset(s: State, newSession: bool, now: nat): Outcome {
    var reqs := map r | r in s.reqs :: Restamped(s.reqs[r], newSession, now);
    Outcome(Fallback(s.(session := if newSession then s.session + 1 else s.session)).s.(reqs := reqs), true)
  }

  function Exit(s: State): Outcome {
    Outcome(s.(dying := true), false)
  }

  // ---- Runs ----

  datatype Event =
    | Classifies(r: Request, q: QueueClass, io: Io)
    | Updates(r: Request, io: Io)
    | Unqueues(r: Request)
    | Dispatches(r: Request, excluded: bool)
    | Finishes(r: Request)
    | Issues(r: Request, q: QueueClass, io: Io)
    | Requeues(r: Request)
    | Completes(r: Request, final: bool)
    | Reads
    | Works(ids: Ids, source: Source, choice: Option<Choice>)
    | ScheduleFails
    | ModelRuns
    | ModelDispatches(free: bool)
    | TimerFires
    | TimesOut
    | Asks(demo: bool, dispatching: bool)
    | Resets(newSession: bool)
    | Exits

  datatype Step = Step(event: Event, env: Env)

  ghost function Next(s: State, step: Step): Outcome {
    var env := step.env;
    match step.event
    case Classifies(r, q, io) => Classify(s, r, q, io, env)
    case Updates(r, io) => Update(s, r, io)
    case Unqueues(r) => Unqueue(s, r)
    case Dispatches(r, excluded) => Dispatch(s, r, excluded, env)
    case Finishes(r) => Finish(s, r)
    case Issues(r, q, io) => Issue(s, r, q, io, env)
    case Requeues(r) => Requeue(s, r)
    case Completes(r, final) => Complete(s, r, final, env)
    case Reads => WorkerReads(s)
    case Works(ids, source, choice) => WorkerApply(s, ids, source, choice, env.queueMax)
    case ScheduleFails => ScheduleFail(s)
    case ModelRuns => ModelRun(s, env)
    case ModelDispatches(free) => DispatchModel(s, env.enabled, free)
    case TimerFires => Timer(s)
    case TimesOut => TimeoutWork(s)
    case Asks(demo, _) => GateQuery(s, env.enabled, demo)
    case Resets(newSession) => Reset(s, newSession, env.now)
    case Exits => Exit(s)
  }

  /**
   What the block layer guarantees: the clock has started, requests that are classified carry a
   pointer, and the operation of a request does not change while the device works on it.
   */
  predicate Proper(s: State, step: Step) {
    && step.env.now > 0
    && (step.event.Classifies? ==> step.event.r.useSched)
    && (step.event.Issues? && step.event.r in s.reqs && s.reqs[step.event.r].issued ==>
          step.event.io.op == s.reqs[step.event.r].io.op)
  }

  ghost predicate IsRun(s: State, steps: seq<Step>)
    decreases |steps|
  {
    steps == [] || (Proper(s, steps[0]) && IsRun(Next(s, steps[0]).s, steps[1..]))
  }

  ghost function Run(s: State, steps: seq<Step>): State
    decreases |steps|
  {
    if steps == [] then s else Run(Next(s, steps[0]).s, steps[1..])
  }

  function Initial(capacity: nat): State {
    State(capacity, map[], Idle, None, [], 0, 0, 0, 0, false)
  }
}
