/**
 The handing over of inferences to the one model thread: a slot for the context that is queued,
 one for the context being run, and in every context a completion that its exit waits for.
 */
module ModelHandoff {
  import opened Options

  type Ctx = nat

  /** Where the model thread is: waiting, working for a context, or past its signal to it. */
  datatype Phase = Waiting | Working(c: Ctx) | Signalled(c: Ctx)

  /** How far the exit of a context has come. */
  datatype Exit = Live | Leaving | Cancelling | Cancelled | Gone

  /** `done` counts the unconsumed signals; `submits` and `signals` are what has happened so far. */
  datatype Context = Context(done: nat, exit: Exit, submits: nat, signals: nat)

  datatype State = State(queued: Option<Ctx>, running: Option<Ctx>, phase: Phase, contexts: map<Ctx, Context>)

  datatype Event =
    | Register(c: Ctx)
    | Submit(c: Ctx)
    | Take
    | Signal
    | Clear
    | Leave(c: Ctx)
    | Cancel(c: Ctx)
    | CancelSignal(c: Ctx)
    | Depart(c: Ctx)

  function Initial(): State {
    State(None, None, Waiting, map[])
  }

  predicate In(s: State, c: Ctx, exit: Exit) {
    c in s.contexts && s.contexts[c].exit == exit
  }

  /**
   What can happen next. A context can be submitted at any time but between its being cancelled and
   the canceller's signal, and after it is gone; its exit cancels, signals if it has cancelled, and
   departs only when there is a signal to consume.
   */
  predicate Can(s: State, e: Event) {
    match e
    case Register(c) => c !in s.contexts
    case Submit(c) => c in s.contexts && s.contexts[c].exit != Cancelling && s.contexts[c].exit != Gone
    case Take => s.phase.Waiting?
    case Signal => s.phase.Working? && s.phase.c in s.contexts
    case Clear => s.phase.Signalled?
    case Leave(c) => In(s, c, Live)
    case Cancel(c) => In(s, c, Leaving)
    case CancelSignal(c) => In(s, c, Cancelling)
    case Depart(c) => In(s, c, Cancelled) && s.contexts[c].done > 0
  }

  function Free(s: State): bool {
    s.queued.None? && s.running.None?
  }

  function Signalling(x: Context): Context {
    x.(done := x.done + 1, signals := x.signals + 1)
  }

  /** A submission changes something only if nobody is queued or running. */
  function Submitted(s: State, c: Ctx): State
    requires c in s.contexts
  {
    var x := s.contexts[c];
    if Free(s) then s.(queued := Some(c), contexts := s.contexts[c := x.(done := 0, submits := x.submits + 1)]) else s
  }

  function Next(s: State, e: Event): State
    requires Can(s, e)
  {
    match e
    case Register(c) => s.(contexts := s.contexts[c := Context(1, Live, 0, 1)])
    case Submit(c) => Submitted(s, c)
    case Take =>
      if s.queued.None? then s.(running := None)
      else s.(queued := None, running := s.queued, phase := Working(s.queued.value))
    case Signal =>
      s.(phase := Signalled(s.phase.c),
         contexts := s.contexts[s.phase.c := Signalling(s.contexts[s.phase.c])])
    case Clear => s.(phase := Waiting, running := if s.running == Some(s.phase.c) then None else s.running)
    case Leave(c) => s.(contexts := s.contexts[c := s.contexts[c].(exit := Leaving)])
    case Cancel(c) =>
      if s.queued == Some(c) then s.(queued := None, contexts := s.contexts[c := s.contexts[c].(exit := Cancelling)])
      else s.(contexts := s.contexts[c := s.contexts[c].(exit := Cancelled)])
    case CancelSignal(c) => s.(contexts := s.contexts[c := Signalling(s.contexts[c]).(exit := Cancelled)])
    case Depart(c) => s.(contexts := s.contexts[c := s.contexts[c].(done := s.contexts[c].done - 1, exit := Gone)])
  }

  /** A submission that has not been signalled yet. */
  predicate Outstanding(s: State, c: Ctx) {
    s.queued == Some(c) || s.phase == Working(c) || In(s, c, Cancelling)
  }

  ghost predicate ContextOk(s: State, c: Ctx)
    requires c in s.contexts
  {
    var x := s.contexts[c];
    && x.done == (if x.exit == Gone || Outstanding(s, c) then 0 else 1)
    && x.signals + (if Outstanding(s, c) then 1 else 0) == x.submits + 1
    && (x.exit == Cancelling ==> s.queued != Some(c) && s.phase != Working(c))
    && (s.queued == Some(c) || s.phase == Working(c) ==> x.exit != Gone)
  }

  ghost predicate Inv(s: State) {
    && (s.queued.Some? ==> s.queued.value in s.contexts && s.running.None?)
    && (match s.phase
        case Waiting => s.running.None?
        case Working(c) => s.running == Some(c) && c in s.contexts
        case Signalled(c) => s.running == Some(c))
    && forall c :: c in s.contexts ==> ContextOk(s, c)
  }

  lemma StepKeeps(s: State, e: Event)
    requires Inv(s) && Can(s, e)
    ensures Inv(Next(s, e))
  {
    var next := Next(s, e);
    forall c | c in next.contexts
      ensures ContextOk(next, c)
    {
      assert c in s.contexts ==> ContextOk(s, c);
    }
  }

  ghost predicate IsRun(s: State, events: seq<Event>)
    decreases |events|
  {
    events == [] || (Can(s, events[0]) && IsRun(Next(s, events[0]), events[1..]))
  }

  ghost function Run(s: State, events: seq<Event>): State
    requires IsRun(s, events)
    decreases |events|
  {
    if events == [] then s else Run(Next(s, events[0]), events[1..])
  }

  lemma {:induction false} RunKeeps(s: State, events: seq<Event>)
    requires Inv(s) && IsRun(s, events)
    ensures Inv(Run(s, events))
    decreases |events|
  {
    if events != [] {
      StepKeeps(s, events[0]);
      RunKeeps(Next(s, events[0]), events[1..]);
    }
  }

  /**
   In every run: at most one context is queued or being run; every submission has had exactly one
   signal unless it is still outstanding; and no signal is waiting exactly then, until the exit
   has consumed the last one.
   */
  lemma EverySubmissionIsSignalledOnce(events: seq<Event>, c: Ctx)
    requires IsRun(Initial(), events) && c in Run(Initial(), events).contexts
    ensures var s := Run(Initial(), events);
            && !(s.queued.Some? && s.running.Some?)
            && s.contexts[c].signals == s.contexts[c].submits + (if Outstanding(s, c) then 0 else 1)
            && (s.contexts[c].done == 0 <==> Outstanding(s, c) || s.contexts[c].exit == Gone) && s.contexts[c].done <= 1
  {
    RunKeeps(Initial(), events);
    assert ContextOk(Run(Initial(), events), c);
  }

  /** What the thread touches in a step: the context it takes, and the one it has worked for and signals. */
  function Touched(s: State, e: Event): Option<Ctx> {
    match e
    case Take => s.queued
    case Signal => if s.phase.Working? then Some(s.phase.c) else None
    case _ => None
  }

  /** The thread never touches a context that is gone, and between its signal and the next take it touches none. */
  lemma ThreadTouchesNoneThatIsGone(events: seq<Event>, e: Event)
    requires IsRun(Initial(), events) && Can(Run(Initial(), events), e)
    ensures var s := Run(Initial(), events);
            && (Touched(s, e).Some? ==>
                  Touched(s, e).value in s.contexts && s.contexts[Touched(s, e).value].exit != Gone)
            && (s.phase.Signalled? ==> Touched(s, e).None?)
  {
    RunKeeps(Initial(), events);
    var s := Run(Initial(), events);
    assert forall c :: c in s.contexts ==> ContextOk(s, c);
  }

  /** The thread's steps until it has signalled whoever is queued or being run. */
  function ThreadSteps(s: State): seq<Event> {
    if s.phase.Working? then [Signal] else [Take, Signal]
  }

  /** An exit that has cancelled can go on at once, or after the thread's next steps, which nothing holds up. */
  lemma ExitWaitsForThreadOnly(events: seq<Event>, c: Ctx)
    requires IsRun(Initial(), events) && In(Run(Initial(), events), c, Cancelled)
    ensures var s := Run(Initial(), events);
            Can(s, Depart(c)) || (IsRun(s, ThreadSteps(s)) && Can(Run(s, ThreadSteps(s)), Depart(c)))
  {
    RunKeeps(Initial(), events);
    var s := Run(Initial(), events);
    assert ContextOk(s, c);
    if s.contexts[c].done == 0 {
      if s.phase.Working? {
        assert IsRun(s, [Signal]) && Run(s, [Signal]) == Next(s, Signal);
      } else {
        assert s.queued == Some(c) && s.phase.Waiting?;
        var taken := Next(s, Take);
        assert [Take, Signal][1..] == [Signal];
        assert IsRun(taken, [Signal]) && Run(taken, [Signal]) == Next(taken, Signal);
      }
    }
  }

  /**
   What the one submission that is excluded would break: of a context that has been taken out of
   the queue and not been signalled yet, it makes the canceller's signal count for a submission that
   is still queued. The exit departs on it, and the thread then takes a context that is gone.
   */
  lemma SubmittedWhileCancelling(s: State, c: Ctx)
    requires Inv(s) && In(s, c, Cancelling) && Free(s)
    ensures var s1 := Submitted(s, c);
            && Can(s1, CancelSignal(c))
            && var s2 := Next(s1, CancelSignal(c));
            && Can(s2, Depart(c))
            && var s3 := Next(s2, Depart(c));
            && In(s3, c, Gone) && (Can(s3, Take) ==> Touched(s3, Take) == Some(c))
            && (s.phase.Waiting? ==> Can(s3, Take))
  {
  }

  /** It can be met: a context leaves while it is queued. */
  lemma CancellingIsMet(c: Ctx)
    ensures var events := [Register(c), Submit(c), Leave(c), Cancel(c)];
            IsRun(Initial(), events) && In(Run(Initial(), events), c, Cancelling) && Free(Run(Initial(), events))
  {
    var events := [Register(c), Submit(c), Leave(c), Cancel(c)];
    assert events[1..] == [Submit(c), Leave(c), Cancel(c)] && events[1..][1..] == [Leave(c), Cancel(c)];
    assert events[1..][1..][1..] == [Cancel(c)] && events[1..][1..][1..][1..] == [];
    var s1 := Next(Initial(), Register(c));
    var s2 := Next(s1, Submit(c));
    var s3 := Next(s2, Leave(c));
    var s4 := Next(s3, Cancel(c));
    assert Run(s3, [Cancel(c)]) == s4 && IsRun(s3, [Cancel(c)]);
    assert Run(s2, [Leave(c), Cancel(c)]) == s4 && IsRun(s2, [Leave(c), Cancel(c)]);
    assert Run(s1, [Submit(c), Leave(c), Cancel(c)]) == s4;
  }

  /** The slots and the completions, changed in place under the lock. */
  class Handoff {
    var queued: Option<Ctx>
    var running: Option<Ctx>
    var done: map<Ctx, nat>
    ghost var phase: Phase
    ghost var contexts: map<Ctx, Context>

    ghost predicate Valid()
      reads this
    {
      Inv(Abs()) && done.Keys == contexts.Keys && forall c :: c in done ==> done[c] == contexts[c].done
    }

    ghost function Abs(): State
      reads this
    {
      State(queued, running, phase, contexts)
    }

    constructor ()
      ensures Valid() && Abs() == Initial()
    {
      queued, running, done, phase, contexts := None, None, map[], Waiting, map[];
    }

    method Complete(c: Ctx)
      requires c in done
      modifies `done
      ensures done == old(done)[c := old(done)[c] + 1]
    {
      done := done[c := done[c] + 1];
    }

    /** Queues the context if nobody is queued or running. */
    method TrySubmit(c: Ctx) returns (submitted: bool)
      requires Valid() && Can(Abs(), Submit(c))
      modifies this
      ensures Valid() && submitted == Free(old(Abs())) && Abs() == Next(old(Abs()), Submit(c))
      ensures submitted <==> old(queued).None? && old(running).None?
      ensures if submitted then queued == Some(c) && running.None? && done == old(done)[c := 0]
              else queued == old(queued) && running == old(running) && done == old(done)
    {
      StepKeeps(Abs(), Submit(c));
      ghost var next := Next(Abs(), Submit(c));
      submitted := queued.None? && running.None?;
      if submitted {
        done := done[c := 0];
        queued := Some(c);
      }
      contexts := next.contexts;
    }

    /** The thread takes the queued context. */
    method TakeQueued() returns (c: Option<Ctx>)
      requires Valid() && Can(Abs(), Take)
      modifies this
      ensures Valid() && c == old(queued) && Abs() == Next(old(Abs()), Take)
      ensures queued.None? && running == c && done == old(done)
    {
      StepKeeps(Abs(), Take);
      ghost var next := Next(Abs(), Take);
      c := queued;
      queued := None;
      running := c;
      phase := next.phase;
    }

    /** The thread has done its work for the context. */
    method SignalDone(c: Ctx)
      requires Valid() && phase == Working(c)
      modifies this
      ensures Valid() && Abs() == Next(old(Abs()), Signal)
      ensures done.Keys == old(done).Keys && c in done && done == old(done)[c := 1]
      ensures queued == old(queued) && running == old(running)
    {
      StepKeeps(Abs(), Signal);
      ghost var next := Next(Abs(), Signal);
      Complete(c);
      phase, contexts := next.phase, next.contexts;
    }

    method ClearRunning(c: Ctx)
      requires Valid() && phase == Signalled(c)
      modifies this
      ensures Valid() && Abs() == Next(old(Abs()), Clear)
      ensures running.None? && queued == old(queued) && done == old(done)
    {
      StepKeeps(Abs(), Clear);
      if running == Some(c) {
        running := None;
      }
      phase := Waiting;
    }

    /** Takes the context out of the queue; whoever does so signals it later. */
    method CancelQueued(c: Ctx) returns (cancelled: bool)
      requires Valid() && Can(Abs(), Cancel(c))
      modifies this
      ensures Valid() && cancelled == (old(queued) == Some(c)) && Abs() == Next(old(Abs()), Cancel(c))
      ensures queued == (if cancelled then None else old(queued)) && running == old(running) && done == old(done)
    {
      StepKeeps(Abs(), Cancel(c));
      ghost var next := Next(Abs(), Cancel(c));
      cancelled := queued == Some(c);
      if cancelled {
        queued := None;
      }
      contexts := next.contexts;
    }

    method SignalCancelled(c: Ctx)
      requires Valid() && Can(Abs(), CancelSignal(c))
      modifies this
      ensures Valid() && Abs() == Next(old(Abs()), CancelSignal(c))
      ensures c in done && done == old(done)[c := 1] && queued == old(queued) && running == old(running)
    {
      StepKeeps(Abs(), CancelSignal(c));
      ghost var next := Next(Abs(), CancelSignal(c));
      Complete(c);
      contexts := next.contexts;
    }
  }
}
