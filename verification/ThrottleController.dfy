/** The controller's own fields: the three modes, the action in force, and the feedback on it. */
module ThrottleController {
  import opened Options
  import opened ThrottleSpec
  import opened ThrottleRuns

  datatype FeedbackState = FbNone | FbWaitDispatch | FbWaitIssue | FbWaitComplete

  function BaselineAction(): Action {
    Action(Choice(No, Baseline), 0, 0, 0, 0)
  }

  function NoSnapshot(): Snapshot {
    Snapshot(0, 0, 0, 0, 0, 0, 0, 0, 0, 0, 0, 0, 0, 0, 0, 0, 0)
  }

  function FeedbackFor(state: FeedbackState, r: Request): Feedback {
    match state
    case FbNone => NoFeedback
    case FbWaitDispatch => WaitDispatch
    case FbWaitIssue => WaitIssue(r)
    case FbWaitComplete => WaitComplete(r)
  }

  lemma {:induction false} TotalBounded(votes: seq<Vote>)
    requires forall v <- votes :: v.latency <= U32_MAX
    ensures Total(votes) <= |votes| * U32_MAX
  {
    if votes != [] {
      TotalBounded(votes[..|votes| - 1]);
    }
  }

  lemma MeanBounded(votes: seq<Vote>)
    requires forall v <- votes :: v.latency <= U32_MAX
    ensures Mean(votes) <= U32_MAX
  {
    TotalBounded(votes);
  }

  /** The votes are kept as their number and their sum. */
  ghost predicate VotesOk(votes: seq<Vote>, count: nat, total: nat) {
    count == |votes| && total == Total(votes) && forall v <- votes :: v.latency <= U32_MAX
  }

  lemma NoVotes()
    ensures VotesOk([], 0, 0)
  {
  }

  lemma OneMoreVote(votes: seq<Vote>, count: nat, total: nat, v: Vote)
    requires VotesOk(votes, count, total) && v.latency <= U32_MAX
    ensures VotesOk(votes + [v], count + 1, total + v.latency)
  {
    assert (votes + [v])[..|votes|] == votes;
  }

  class Controller {
    var throttleActive: bool
    var inferencePending: bool
    var actionValid: bool
    var timedOut: bool
    var running: bool
    var pendingStateValid: bool
    var postApply: bool
    var pendingIds: Ids
    var pendingConfig: Config
    var pendingState: Snapshot
    var action: Action
    var feedbackState: FeedbackState
    var feedbackMeta: Option<nat>
    var feedbackIssueTs: nat
    var voteCount: nat
    var totalLatency: nat
    ghost var votes: seq<Vote>
    // The request whose record feedback waits for.
    ghost var waiting: Request
    ghost var mode: Mode

    ghost predicate Valid()
      reads this
    {
      && throttleActive == (inferencePending || actionValid)
      && !(inferencePending && actionValid)
      && (!inferencePending ==> !timedOut && !running)
      && (!actionValid ==> feedbackState == FbNone && !postApply && votes == [])
      && (feedbackMeta.Some? <==> feedbackState == FbWaitIssue || feedbackState == FbWaitComplete)
      && (feedbackState == FbWaitComplete ==> feedbackIssueTs > 0)
      && VotesOk(votes, voteCount, totalLatency)
      && (inferencePending ==>
            mode == Pending(pendingIds, pendingConfig, if pendingStateValid then Some(pendingState) else None,
                            timedOut, running))
      && (actionValid ==> mode == Controlled(action, FeedbackFor(feedbackState, waiting), votes, postApply))
      && (!inferencePending && !actionValid ==> mode == Idle)
    }

    constructor ()
      ensures Valid() && mode == Idle
    {
      throttleActive, inferencePending, actionValid := false, false, false;
      timedOut, running, pendingStateValid, postApply := false, false, false, false;
      pendingIds, pendingConfig := Ids(0, 0, 0), Config(Fixed, Choice(No, Baseline), 0, 0, 0);
      pendingState, action := NoSnapshot(), BaselineAction();
      feedbackState, feedbackMeta, feedbackIssueTs := FbNone, None, 0;
      voteCount, totalLatency, votes, mode := 0, 0, [], Idle;
      waiting := Request(0, false);
    }

    method ClearBinding()
      requires Valid()
      modifies `feedbackMeta, `feedbackIssueTs, `feedbackState, `mode
      ensures Valid() && feedbackState == FbNone && feedbackMeta.None?
      ensures mode == if old(mode).Controlled? then old(mode).(feedback := NoFeedback) else old(mode)
    {
      hide VotesOk;
      feedbackMeta, feedbackIssueTs, feedbackState := None, 0, FbNone;
      mode := if mode.Controlled? then mode.(feedback := NoFeedback) else mode;
    }

    /** Forgets what feedback waits for and the votes so far. */
    method ResetFeedback()
      requires Valid()
      modifies `feedbackState, `feedbackMeta, `feedbackIssueTs, `voteCount, `totalLatency, `votes, `mode
      ensures Valid() && feedbackState == FbNone && feedbackMeta.None? && votes == []
      ensures mode == if old(mode).Controlled? then old(mode).(feedback := NoFeedback, votes := []) else old(mode)
    {
      hide VotesOk;
      NoVotes();
      ClearBinding();
      voteCount, totalLatency, votes := 0, 0, [];
      mode := if mode.Controlled? then mode.(votes := []) else mode;
    }

    /** Gives up control: nothing is pending, nothing in force, no vote remembered. */
    method Drop()
      requires Valid()
      modifies this
      ensures Valid() && mode == Idle && feedbackMeta.None?
    {
      hide VotesOk, BaselineAction;
      ResetFeedback();
      throttleActive, inferencePending, actionValid := false, false, false;
      timedOut, running, pendingStateValid, postApply := false, false, false, false;
      action := BaselineAction();
      mode := Idle;
    }

    method AwaitDispatch()
      requires Valid() && mode.Controlled? && feedbackMeta.None?
      modifies this
      ensures Valid() && feedbackMeta.None? && mode == old(mode).(feedback := WaitDispatch)
    {
      hide VotesOk;
      feedbackState := FbWaitDispatch;
      mode := mode.(feedback := WaitDispatch);
    }

    /** The request in slot `i` has been chosen to be judged by. */
    method Bind(i: nat, ghost r: Request)
      requires Valid() && mode.Controlled?
      modifies this
      ensures Valid() && feedbackMeta == Some(i) && waiting == r && mode == old(mode).(feedback := WaitIssue(r))
    {
      hide VotesOk;
      feedbackMeta, feedbackIssueTs, feedbackState := Some(i), 0, FbWaitIssue;
      waiting := r;
      mode := mode.(feedback := WaitIssue(r));
    }

    method MarkIssued(ts: nat)
      requires Valid() && mode.Controlled? && feedbackState == FbWaitIssue && ts > 0
      modifies this
      ensures Valid() && feedbackMeta == old(feedbackMeta) && waiting == old(waiting)
      ensures mode == old(mode).(feedback := WaitComplete(waiting))
    {
      hide VotesOk;
      feedbackIssueTs, feedbackState := ts, FbWaitComplete;
      mode := mode.(feedback := WaitComplete(waiting));
    }

    method AddVote(ghost decision: nat, latency: nat)
      requires Valid() && mode.Controlled? && latency <= U32_MAX
      modifies this
      ensures Valid() && feedbackMeta == old(feedbackMeta) && waiting == old(waiting)
      ensures mode == old(mode).(votes := old(mode).votes + [Vote(decision, latency)])
    {
      OneMoreVote(votes, voteCount, totalLatency, Vote(decision, latency));
      ghost var more := votes + [Vote(decision, latency)];
      voteCount, totalLatency, votes := voteCount + 1, totalLatency + latency, more;
      mode := mode.(votes := more);
    }

    method FeedbackMean() returns (mean: nat)
      requires Valid() && mode.Controlled?
      ensures mean == Mean(mode.votes)
      ensures |mode.votes| == 5 ==>
                var v := mode.votes;
                5 * mean <= v[0].latency + v[1].latency + v[2].latency + v[3].latency + v[4].latency < 5 * mean + 5
    {
      if |votes| == 5 {
        FiveVotes(votes);
      }
      MeanBounded(votes);
      if voteCount == 0 {
        return 0;
      }
      mean := totalLatency / voteCount;
      if mean > U32_MAX {
        mean := U32_MAX;
      }
    }

    method ClearPostApply()
      requires Valid()
      modifies this
      ensures Valid() && mode == if old(mode).Controlled? then old(mode).(postApply := false) else old(mode)
      ensures feedbackMeta == old(feedbackMeta) && waiting == old(waiting) && feedbackState == old(feedbackState)
      ensures actionValid == old(actionValid) && inferencePending == old(inferencePending) && action == old(action)
      ensures throttleActive == old(throttleActive) && voteCount == old(voteCount)
    {
      hide VotesOk;
      if postApply && actionValid && !inferencePending {
        postApply := false;
        mode := mode.(postApply := false);
      }
    }

    /** The action, if one is in force, is no longer. */
    method EndAction()
      requires Valid() && !mode.Pending? && feedbackState == FbNone && votes == []
      modifies `throttleActive, `actionValid, `postApply, `mode
      ensures Valid() && mode == Idle
    {
      hide VotesOk;
      throttleActive, actionValid, postApply := false, false, false;
      mode := Idle;
    }

    /** An inference is pending from now on; a fixed choice comes with its snapshot. */
    method Start(ids: Ids, config: Config, snapshot: Option<Snapshot>)
      requires Valid() && !mode.Pending?
      modifies this
      ensures Valid() && feedbackMeta.None? && mode == Pending(ids, config, snapshot, false, false)
    {
      hide VotesOk;
      ResetFeedback();
      EndAction();
      SetPending(ids, config);
      if snapshot.Some? {
        SetSnapshot(snapshot.value);
      }
    }

    method SetPending(ids: Ids, config: Config)
      requires Valid() && mode.Idle?
      modifies this
      ensures Valid() && feedbackMeta.None? && mode == Pending(ids, config, None, false, false)
    {
      hide VotesOk;
      throttleActive, inferencePending := true, true;
      timedOut, running, pendingStateValid := false, false, false;
      pendingIds, pendingConfig := ids, config;
      mode := Pending(ids, config, None, false, false);
    }

    method Apply(applied: Action, byModel: bool)
      requires Valid() && mode.Pending?
      modifies this
      ensures Valid() && feedbackMeta.None? && mode == Controlled(applied, WaitDispatch, [], byModel)
    {
      hide VotesOk;
      action, actionValid, inferencePending := applied, true, false;
      timedOut, running := false, false;
      feedbackState := FbWaitDispatch;
      if byModel {
        postApply := true;
      }
      mode := Controlled(applied, WaitDispatch, [], byModel);
    }

    method SetSnapshot(snapshot: Snapshot)
      requires Valid() && mode.Pending?
      modifies this
      ensures Valid() && feedbackMeta == old(feedbackMeta) && mode == old(mode).(snapshot := Some(snapshot))
    {
      hide VotesOk;
      pendingState, pendingStateValid := snapshot, true;
      mode := mode.(snapshot := Some(snapshot));
    }

    method SetTimedOut()
      requires Valid() && mode.Pending?
      modifies this
      ensures Valid() && feedbackMeta == old(feedbackMeta) && mode == old(mode).(timedOut := true)
    {
      hide VotesOk;
      timedOut := true;
      mode := mode.(timedOut := true);
    }

    /** Without a pending inference the flag is false already. */
    method SetRunning(value: bool)
      requires Valid() && (value ==> mode.Pending?)
      modifies this
      ensures Valid() && feedbackMeta == old(feedbackMeta)
      ensures mode == if old(mode).Pending? then old(mode).(running := value) else old(mode)
      ensures waiting == old(waiting)
    {
      hide VotesOk;
      running := value;
      mode := if mode.Pending? then mode.(running := value) else mode;
    }
  }
}
