# Verification of the smart I/O scheduler

Dafny models, with machine-checked proofs, of six parts of the scheduler module: the feedback
throttle of a request queue, the preparation of its model input, the dirty-rate token bucket, the
priority FIFO dispatcher, the latency histogram with the hot-inode cache, and the fixed-point
power. `dafny verify dfyconfig.toml` checks everything.

## How the project is laid out

| modules | part |
|---|---|
| `ThrottleSpec` | the throttle of one queue as an abstract machine on values: one function per locked region, no counters |
| `ThrottleRuns` | the invariant of all runs, the verdict on an action, the slow-window trigger, anomalies |
| `ThrottleTheorems`, `ThrottleWindow`, `ThrottleDepth`, `ThrottleWaking`, `ThrottleGate` | inference, latency window, background depth, waking and gate over whole runs |
| `ThrottlePlain`, `ThrottleEffects`, `ThrottleSnapshots` | what the regions do, said on the fields alone: verdict, action, gate and waiting; records, and requests that pass through several regions; snapshots, how inferences begin and end |
| `ThrottleLifecycle` | the throttle together with the dispatcher's handling of requests |
| `ThrottleWhole`, `ThrottleScenarios`, `ThrottleReissue` | what holds of every run from a fresh context; runs that reach the surprising states |
| `MetaPool`, `LatencyRing`, `ThrottleController`, `ThrottleCounts`, `ThrottleTally`, `ThrottleContext` | the throttle as it is written: record pool with hash chains, ring, counters and flags changed in place; every region refines its function in `ThrottleSpec` |
| `ModelHandoff` | the one model thread, its two slots and the completions |
| `ModelInput`, `RatioBits`, `Binary32` | snapshot checks and the ratio-to-binary32 encoder |
| `DirtyRate`, `TokenBucket` | the limiter, and its bucket over whole runs |
| `Dispatcher` | lists, trees, merging, dispatch |
| `LatencyHistogram`, `HotInodeCache`, `FixedPower` | approximate structures and the rounded power |
| `Options`, `Powers` | shared basics |

The throttle has two layers. The abstract machine has a map of live requests, a mode (idle,
pending or controlled) and the window; nothing in it can underflow or get out of step. The class
`Context` keeps the counters, flags, ring, pool and indexes of the program. Its predicate `Sound`
says that each counter is the number of records with its flag, that free and used records make up
the pool, and that every table lists exactly the records it should. Each of its methods ends in
the state that the abstract function gives, so the branches for a counter at zero or at 2^32 - 1
and for an inconsistent snapshot are shown to be dead, and everything proved about runs of the
abstract machine holds of the class. A record that the driver creates at issue keeps the high
priority queue class whatever its class is, so background depth is stated by queue class.

## What the proofs assume of the surroundings

- The clock has started and its value is given to each region; a locked region is atomic.
- A classified request carries its pointer to a record; a request is only prepared anew when it has
  no record; its operation does not change while the device works on it.
- The depth bound assumes that throttling is on and the demonstration mode off. It counts the issues
  that start a background request without a dispatch; `ThrottleLifecycle.RestartsAreNotStarted` says
  exactly which these are.
- The results of `ThrottleLifecycle` assume the order of events in `ThrottleLifecycle.InOrder`: only
  what is queued is dispatched or merged away, a request arrives only while it is neither queued nor
  started, only started requests are handed back or completed, and none is issued or finished while
  it is queued. The `queued` requests there are those in the lists of `Dispatcher.Scheduler`.
- A timer may fire, and a work item run, at any moment and for whatever is pending then. The code
  ties the timer to no decision, so a late one can time out a newer inference.
- A queued request keeps its priority and direction. For a request with a record this is the code's
  own doing; for one without, smart_deadline.c:220-221 works the priority out again from the request
  and the running task, and the model takes the answer to be the same.
- Merges stay within one list. The block layer merges only requests of the same operation and the
  same I/O priority, and it finds them in a tree or in its hash, neither of which holds a request
  inserted at the head. Equal I/O priorities mean the same list: a high-priority request is given
  the hint in its I/O priority when it arrives (smart_deadline.c:1053-1055), the others never carry
  it, and the class of the I/O priority tells those two lists apart. `Dispatcher.OfferedMergesStay` shows that such a merge moves nothing to
  another list, and `Dispatcher.Scheduler.MergedRequests` that this is exactly what is needed.
- The latency histograms of all processors are merged in one step, although each is drained under
  its own lock; a sample added meanwhile falls into this window or the next.

## Behaviour that differs from what one would expect

- The gate can open without the queues being run, in exactly two regions
  (`ThrottleWaking.OpeningWakes`). One is a timeout of an inference of session 0, which is every
  inference of a queue that was created while throttling was already on
  (`ThrottleWaking.WithoutSessionTimeoutsAreSilent`); `ThrottleScenarios.ASilentTimeoutIsMet` is a
  run that ends there. The other is giving up control because an arriving request finds no record;
  `ThrottleScenarios.ASilentExhaustionIsMet` is a run for it.
- Switching the demonstration mode on (smart_io_throttle.c:1781-1785) lets everybody through and runs
  no queue, so a request that was turned away before is not woken
  (`ThrottleScenarios.ASilentDemoIsMet`). `ThrottleGate.RefusedAreNoticed` says exactly when a
  request that has not been woken would be let through.
- The background depth can exceed the target. A request that the driver has handed back no longer
  counts, and may be issued again without a new dispatch (smart_io_throttle.c:2136-2140); no gate is
  asked then. `ThrottleReissue.DepthBeyondTarget` is a run that has two such requests under a target
  of one although there was room at every dispatch, and `ThrottleDepth.DepthIsBounded` bounds the
  excess by the number of such issues.
- A refill at a rate of more than 10^9 bytes per second can lose credit to rounding
  (`TokenBucket.RoundingCanCost`); `TokenBucket.RefillKeepsCredit` says exactly when.
- The time that a number of bytes takes is rounded down and then increased by one whenever the
  bytes are no multiple of the rate, even if the nanoseconds come out even. So a refill that falls
  short of the computed time can still fill the bucket (`DirtyRate.FullBeforeItsTime`).
- A snapshot can show more requests with the device than the queue is deep; the predictor then
  refuses it. Of its checks this is the only one that a reachable state can fail
  (`ModelInput.SnapshotsAreAccepted`); `ModelInput.ARefusedSnapshotIsMet` is a run that ends there.
- The hot-inode cache reads the clock before it takes its lock. A lookup whose time is earlier than
  that of a region before it can miss an inode that is current at its own time
  (`HotInodeCache.LateReaderMisses`). It never reports a stale one, and it misses none that is
  current at the latest time of any region so far unless 64 others were marked since
  (`HotInodeCache.HotInodes.Lookup`).

## Model

| member | source | states |
|---|---|---|
| ThrottleRuns.StepKeeps | smart_io_throttle.c:1512-2452 | every locked region, under any interleaving, keeps the bookkeeping consistent (issued implies started, a sector index entry for exactly the issued reads and writes), fewer than five votes outstanding, all under the action in force, and feedback waiting only for a request that was dispatched under it |
| ThrottleContext.Context.FieldsAgree | smart_io_throttle.c:394-457 | on the program's own fields: the flags are in one of three combinations, feedback is awaited exactly while an action is in force, the record it waits for carries that action's decision, fewer than five votes are in, and free and used records make up the pool |
| ThrottleWhole.EveryRun | smart_io_throttle.c:1403-2452 | every run from a fresh context: the invariant, the anomaly count, increasing decisions, the window as the last five samples, and five samples before the first stretch of control |
| ThrottleRuns.RunKeeps | smart_io_throttle.c:394-457 | the invariant that every region keeps holds in every state of every run |
| ThrottleRuns.AnomaliesAreMishaps | smart_io_throttle.c:649-831 | over every run the anomaly count is the number of mishaps: a first meeting with a request while the pool is exhausted, a dispatch without a record, a second dispatch of a started request |
| ThrottleRuns.StepTallies | smart_io_throttle.c:649-831 | one step raises the anomaly count exactly at a mishap, and opens a session exactly when throttling is switched on |
| ThrottleRuns.Verdict | smart_io_throttle.c:2330-2391 | a completion ends control only as the fifth vote, all five votes having been dispatched under the action; a mean below the threshold, or no ground for a new inference, leads to idle, otherwise the next decision is pending in the same stretch of control |
| ThrottleRuns.Trigger | smart_io_throttle.c:2310-2328 | without control, a completion starts an inference exactly when it completes a full window that is slow throughout and spans at most 10 ms, nothing is under way, and an inference can start; that opens a new stretch of control |
| ThrottlePlain.VotesByLatencies | smart_io_throttle.c:2330-2391 | with the latencies written out: the first four votes under an action are noted one by one; of five, a sum below five thresholds ends control, and any other sum makes the next decision pending exactly if an inference can start |
| ThrottlePlain.OthersDoNotVote | smart_io_throttle.c:2330-2349 | a completion that nothing waits for, or whose device time does not count, casts no vote; feedback that was bound to it waits for another dispatch |
| ThrottlePlain.SlowWindowStarts | smart_io_throttle.c:2310-2328 | while idle, a completion starts an inference exactly when the last five, of this session and not excluded, took the threshold or longer each and lie within 10,000,000 ns |
| ThrottlePlain.UncountedLeavesNothing | smart_io_throttle.c:2310-2324 | a completion that is excluded or has no time in the device leaves no sample and starts nothing |
| ThrottlePlain.AppliedAction | smart_io_throttle.c:1049-1095 | the action in force has the light, medium or heavy percentage of its inference's configuration by its level, the queue depth of that moment, and as target the least depth that is that share; at level NO both are 0 |
| ThrottlePlain.FailedAnswer | smart_io_throttle.c:1039-1063 | an answer for the pending inference gives up control exactly if it is an error, the queue depth is zero, or its level has no percentage in 1..100 |
| ThrottlePlain.ReadIsCurrent | smart_io_throttle.c:974-995 | an inference that the worker has just read can be applied |
| ThrottlePlain.TurnedAway | smart_io_throttle.c:1837-1874 | a request is refused exactly if throttling is on, the demonstration mode off, and an inference is pending or an action other than NO has its target reached; under NO nobody is refused for depth |
| ThrottlePlain.ArrivalWaits | smart_io_throttle.c:1512-1534 | a new Rt or Be request raises the number of background waiters by one and an Hp one that of the foreground; its record is written out |
| ThrottlePlain.ReturnWaits | smart_io_throttle.c:328-345 | a request that has a record and arrives again waits again, and is counted in its class |
| ThrottlePlain.MergedWaitsNoLonger | smart_io_throttle.c:1560-1573 | a request that is merged away is counted off in its class, and nothing else changes |
| ThrottlePlain.MissedArrival | smart_io_throttle.c:649-663 | a first meeting with a request while the pool is exhausted is counted and gives up control |
| ThrottlePlain.ArrivalMakesModelDue | smart_io_throttle.c:1271-1323 | after a background arrival a pending model inference is handed to the thread at the next look, or given up if that is busy |
| ThrottlePlain.NotDueTwice | smart_io_throttle.c:1249-1255 | without a background waiter, or once handed over, nothing is handed over |
| ThrottleEffects.DispatchEffect | smart_io_throttle.c:1575-1705 | the first dispatch takes a request off the waiting ones, notes the decision in force, starts it, and binds the feedback that waited for a dispatch unless the request is excluded |
| ThrottleEffects.BadDispatch | smart_io_throttle.c:1601-1611 | a dispatch without a record, or a second one, is counted and gives up control; when the queues are run |
| ThrottleEffects.IssueEffect | smart_io_throttle.c:2111-2183 | an issue keeps the first stamp, session and sectors, and turns feedback that waits for it to the completion |
| ThrottleEffects.RequeueEffect | smart_io_throttle.c:2185-2250 | a request handed back loses all marks of its start, feedback lets go of it, and the gate opens exactly if there is room then |
| ThrottleEffects.FinishEffect | smart_io_throttle.c:1723-1774 | a request with its own pointer loses its record, with the same effect on feedback and gate |
| ThrottleEffects.CompletionEffect | smart_io_throttle.c:2252-2308 | a final completion takes away exactly the one record; a partial one changes nothing |
| ThrottleEffects.UpdateEffect | smart_io_throttle.c:1536-1558 | what is known of a request is refreshed only while it is not issued |
| ThrottleEffects.PassageIsAVote | smart_io_throttle.c:1670-1682 | dispatch, issue and completion of a request under an action that waits for a dispatch make exactly one vote, with the time from issue to completion |
| ThrottleEffects.PassageLeavesNothing | smart_io_throttle.c:688-716 | a request that arrives, is dispatched, issued and completed leaves the records as they were |
| ThrottleEffects.HandBackUndoes | smart_io_throttle.c:2185-2250 | handing back undoes dispatch and issue: depth and feedback are as before |
| ThrottleSnapshots.SnapshotFields | smart_io_throttle.c:2048-2099 | when a snapshot can be taken, and each of its fields as the number of requests with the named flags, or as a measure of the five samples |
| ThrottleSnapshots.StartedInference | smart_io_throttle.c:846-887 | a started inference has the configuration of that moment, and a fixed choice a snapshot of what the completion leaves behind |
| ThrottleSnapshots.ModelThreadFounds | smart_io_throttle.c:1200-1247 | the model thread founds the pending inference exactly if it is in time, wanted and a snapshot can be taken; gives it up for want of a snapshot; and rests otherwise |
| ThrottleSnapshots.WorkerRests | smart_io_throttle.c:974-995 | an inference that is not founded, late or unwanted is marked as not handed over |
| ThrottleSnapshots.TimeRunsOut | smart_io_throttle.c:1325-1373 | timer, timeout and failed start on the fields |
| ThrottleSnapshots.ResetEffect | smart_io_throttle.c:2427-2452 | switching on or off gives up control and renews or clears the waiting times |
| ThrottleSnapshots.NothingStartsAfterExit | smart_io_throttle.c:1467-1477 | in every run after the exit has begun no inference starts and no action comes into force |
| ThrottleLifecycle.LifeKeeps | smart_deadline.c:827-846 | with events in the order the dispatcher keeps, a queued request has an unreserved record unless its arrival met an exhausted pool, and a started one is reserved |
| ThrottleLifecycle.QueuedHaveRecords | smart_deadline.c:1039-1086 | the same of queued requests in every life from the start |
| ThrottleLifecycle.QueuedAreWaiting | smart_io_throttle.c:328-361 | in every life from the start a request with its own pointer and a record counts as waiting exactly while it is in the lists, and as many wait as are in the lists and were not missed |
| ThrottleLifecycle.DispatchFindsRecord | smart_io_throttle.c:1601-1611 | a dispatch is an anomaly exactly for a request whose arrival was missed; there is no second dispatch |
| ThrottleLifecycle.AnomaliesFromTheStart | smart_io_throttle.c:649-663 | the anomalies of a life from the start are at most twice its meetings with an exhausted pool; without one there are none |
| ThrottleLifecycle.RestartsAreNotStarted | smart_io_throttle.c:2131-2147 | an issue starts a background request without the gate exactly if the request has a background record and has not been started since it was handed back or merged away |
| ThrottleTheorems.OnlyPendingIsApplied | smart_io_throttle.c:1039-1095 | an action comes into force exactly when the worker answers for the inference that is still pending, not timed out and not exiting, with a usable ratio; it carries the worker's choice and that inference's decision |
| ThrottleTheorems.AppliedIncreases | smart_io_throttle.c:846-1121 | the decisions applied in a run are strictly increasing, so each is applied at most once |
| ThrottleTheorems.TimedOutIsNeverApplied | smart_io_throttle.c:1325-1373 | once a pending inference is marked timed out it stays so, and its decision is never applied in any continuation |
| ThrottleTheorems.VerdictFallsOnFive | smart_io_throttle.c:2330-2375 | over every run under an action from its application on, a completion ends control exactly when it is the fifth vote cast |
| ThrottleTheorems.ModeMoves | smart_io_throttle.c:846-1121 | from step to step decisions never decrease, an action in force is never replaced by another, only the worker's answer takes control, and only a vote adds to the votes |
| ThrottleWindow.WindowIsLastFive | smart_io_throttle.c:2310-2328 | in every run the window is the last five eligible completions since control was last given up, oldest first |
| ThrottleWindow.ControlTakesSamples | smart_io_throttle.c:2310-2381 | a new stretch of control takes at least as many new samples as the window lacks |
| ThrottleWindow.FiveAfterGivingUp | smart_io_throttle.c:423-457 | between any step that gives up control and the next stretch of control at least five new samples are recorded |
| ThrottleDepth.TargetIsShare | smart_io_throttle.c:1049-1067 | the target depth is the least number that is at least the asked percentage of the queue depth, between 1 and the queue depth |
| ThrottleDepth.HeavierIsTighter | smart_io_throttle.c:2510-2525 | with ratios that the configuration accepts, a heavier level never has a larger target |
| ThrottleDepth.DepthIsBounded | smart_io_throttle.c:1837-1874 | while one action other than NO is in force, the background depth never exceeds the larger of its target and its initial value, the latter plus one if a dispatch had already passed the gate, by more than the number of issues that start a background request without a dispatch |
| ThrottleDepth.IssueRaisesDepth | smart_io_throttle.c:2131-2147 | an issue raises the background depth exactly if the request has a background record that does not count as started |
| ThrottleReissue.DepthBeyondTarget | smart_io_throttle.c:2136-2140 | a run under a target of one that ends with two started background requests, although the gate had room at every dispatch |
| ThrottleWaking.OpeningWakes | smart_io_throttle.c:440-466 | whenever the gate opens the queues are run, except in exactly two regions |
| ThrottleWaking.QueuesAreRun | smart_io_throttle.c:1075-1095 | the queues are run exactly if the gate opens outside those two, an action comes into force, a session opens or ends, or at two of the anomalies |
| ThrottleWaking.OpenGateWasNoticed | smart_io_throttle.c:718-752 | over every run, a gate that was closed and is open later has had its queues run in between, but for those two |
| ThrottleGate.GateHasReason | smart_io_throttle.c:718-752 | in every run a closed gate has a reason that still stands: an inference is pending, or it was closed for depth and the action in force still leaves no room |
| ThrottleGate.RefusedAreNoticed | smart_io_throttle.c:1837-1874 | over every run after a refusal in which nobody is woken and neither silent region opens the gate, a request would be let through exactly if throttling is off or the demonstration mode is on |
| ThrottleScenarios.ASilentDemoIsMet | smart_io_throttle.c:1781-1785 | a run after which the demonstration mode would let through a request that was turned away and has not been woken |
| ThrottleWaking.WithoutSessionTimeoutsAreSilent | smart_io_throttle.c:1325-1353 | in a queue that never entered a session, every timeout opens the gate without running the queues |
| ThrottleScenarios.ASilentTimeoutIsMet | smart_io_throttle.c:1325-1353 | a run of five slow completions, a refusal and the timer that ends in such a timeout |
| ThrottleScenarios.ASilentExhaustionIsMet | smart_io_throttle.c:1512-1534 | a run in which an arrival that finds no record opens the gate and wakes nobody |
| ThrottleContext.Context.constructor | smart_io_throttle.c:1403-1465 | a fresh context is idle, with all records free, and shares no storage with any other |
| ThrottleContext.Context.GiveUp | smart_io_throttle.c:440-457 | giving up control clears mode, gate and window together, and reports whether the gate was closed |
| ThrottleContext.Context.DepthCanRun | smart_io_throttle.c:459-466 | the counter test is the test on the number of started background requests |
| ThrottleContext.Context.PendingInc | smart_io_throttle.c:328-345 | a request that does not wait yet waits from now on and is counted once; the counter cannot be full |
| ThrottleContext.Context.PendingDec | smart_io_throttle.c:347-361 | a waiting request is counted off once; the counter cannot be zero |
| ThrottleContext.Context.Alloc | smart_io_throttle.c:649-686 | a record is found exactly when fewer requests are live than the pool has records; otherwise an anomaly is counted and control given up |
| ThrottleContext.Context.Free | smart_io_throttle.c:688-716 | the request and its record disappear from all tables and counters |
| ThrottleContext.Context.ReleaseDepth | smart_io_throttle.c:718-752 | a started request is counted off, which opens a closed gate exactly when a background request may run again; the counters cannot be zero |
| ThrottleContext.Context.StartDepth | smart_io_throttle.c:754-778 | a request is counted as started, as background by its queue class; the counters cannot be full |
| ThrottleContext.Context.IssueDepth | smart_io_throttle.c:780-798 | a request is counted as issued; the counter cannot be full |
| ThrottleContext.Context.ReleaseIssued | smart_io_throttle.c:800-816 | an issued request is counted off and leaves the sector tables; the counter cannot be zero |
| ThrottleContext.Context.TakeSnapshot | smart_io_throttle.c:2048-2099 | the walk over the table yields the counts of the live requests by class, state and contiguity, and the self-check against the counters cannot fail |
| ThrottleContext.Context.StartInference | smart_io_throttle.c:846-887 | starts, or refuses, an inference as the abstract machine does |
| ThrottleContext.Context.Classify | smart_io_throttle.c:1512-1534 | refines the abstract region: with a record, known or new, the request waits from now on; without one control is given up |
| ThrottleContext.Context.Update | smart_io_throttle.c:1536-1558 | refreshes what is known of a request that is not issued |
| ThrottleContext.Context.Unqueue | smart_io_throttle.c:1560-1573 | a merged request no longer waits |
| ThrottleContext.Context.AccountDispatch | smart_io_throttle.c:1575-1705 | refines the abstract dispatch; the queues are run after a second dispatch in any case, and after one without a record if the gate was closed |
| ThrottleContext.Context.Unbind | smart_io_throttle.c:1707-1721 | feedback stops waiting for this request, and for no other |
| ThrottleContext.Context.FinishRequest | smart_io_throttle.c:1723-1774 | refines the abstract finish, with its wake-up |
| ThrottleContext.Context.RecordIssue | smart_io_throttle.c:2111-2183 | refines the abstract issue, for known and unknown requests and repeated issues |
| ThrottleContext.Context.RecordRequeue | smart_io_throttle.c:2185-2250 | refines the abstract requeue |
| ThrottleContext.Context.SampleCompletion | smart_io_throttle.c:2310-2328 | the ring takes exactly the eligible completions, and reports a trigger exactly for a slow window while idle |
| ThrottleContext.Context.CountVote | smart_io_throttle.c:2330-2375 | counts exactly the votes, and reaches on the fifth the verdict that `ThrottlePlain.VotesByLatencies` states |
| ThrottleContext.Context.RecordComplete | smart_io_throttle.c:2252-2425 | refines the abstract completion: sample, vote, release, and perhaps a new inference |
| ThrottleContext.Context.WorkerStart | smart_io_throttle.c:976-995 | the worker takes exactly the inference that is pending and founded, and rests otherwise |
| ThrottleContext.Context.WorkerEnd | smart_io_throttle.c:1039-1121 | refines the abstract answer of the worker, whose ratio and target `ThrottlePlain.AppliedAction` states; a target of zero cannot arise |
| ThrottleContext.Context.ScheduleFailed | smart_io_throttle.c:889-907 | an inference that cannot be queued is given up |
| ThrottleContext.Context.ModelThreadRun | smart_io_throttle.c:1200-1247 | founds a pending model inference on a snapshot or gives it up |
| ThrottleContext.Context.DispatchModelIfNeeded | smart_io_throttle.c:1271-1323 | submits exactly when a model inference is due and the thread is free; a busy thread means giving up |
| ThrottleContext.Context.RunTimeout | smart_io_throttle.c:1325-1353 | refines the abstract timeout |
| ThrottleContext.Context.InferenceTimer | smart_io_throttle.c:1355-1373 | marks whatever is pending as timed out |
| ThrottleContext.Context.NonHpAllowed | smart_io_throttle.c:1837-1874 | lets a background request through exactly when nothing is pending and the depth allows it, or control is bypassed |
| ThrottleContext.Context.ResetContext | smart_io_throttle.c:2427-2452 | a new session or none; all queueing times restart |
| ThrottleContext.Context.BeginExit | smart_io_throttle.c:1467-1477 | marks the queue as exiting and changes nothing else |
| MetaPool.Pool.Find | smart_io_throttle.c:632-647 | finds the record of every live request and of no other; the scan budget never cuts the search short |
| MetaPool.Pool.Alloc | smart_io_throttle.c:649-686 | free and used records make up the pool; fails exactly when all are in use |
| MetaPool.Pool.Free | smart_io_throttle.c:688-716 | the record returns to the free list and leaves all tables and the request's pointer |
| MetaPool.Pool.Index | smart_io_throttle.c:377-392 | the record is found by both its sectors from now on |
| MetaPool.Pool.Unindex | smart_io_throttle.c:368-375 | the record is found by neither |
| MetaPool.Pool.IsContiguous | smart_io_throttle.c:1972-2007 | true exactly when, comparing all records, some issued request of the same direction ends where this one starts or starts where it ends |
| MetaPool.Pool.ScanChain | smart_io_throttle.c:1984-2004 | the budget of one look per record allows for the whole chain |
| MetaPool.ChainFits | smart_io_throttle.c:632-647 | no chain is longer than the pool |
| LatencyRing.Ring.Push | smart_io_throttle.c:2315-2324 | the ring becomes the last five samples |
| LatencyRing.Ring.Measure | smart_io_throttle.c:2009-2046 | succeeds exactly on five samples in order within 10 ms, and measures them wherever the head stands |
| LatencyRing.Ring.IsSlow | smart_io_throttle.c:2101-2109 | true exactly when the window is coherent and all five are at the threshold or above |
| ThrottleController.Controller.Drop | smart_io_throttle.c:440-457 | idle, whatever the mode was |
| ThrottleController.Controller.AddVote | smart_io_throttle.c:2336-2346 | number and sum of the votes follow the votes |
| ThrottleController.Controller.FeedbackMean | smart_io_throttle.c:414-421 | the mean of the votes, for five of them the whole part of a fifth of their sum; the cap at 2^32 - 1 is never reached |
| ThrottleTally.CountRecords | smart_io_throttle.c:2064-2087 | the walk meets every live record exactly once |
| ThrottleTally.WaitersAdd | smart_io_throttle.c:2092-2094 | foreground and background waiters are all the waiters |
| ModelHandoff.EverySubmissionIsSignalledOnce | smart_io_throttle.c:1123-1184 | in every run at most one context is queued or running; each submission has exactly one signal unless it is outstanding; no signal waits exactly while one is outstanding or the exit has consumed it |
| ModelHandoff.ThreadTouchesNoneThatIsGone | smart_io_throttle.c:1138-1146 | the thread never touches a context whose exit has finished, and none at all between its signal and the next take |
| ModelHandoff.ExitWaitsForThreadOnly | smart_io_throttle.c:1479-1483 | after cancelling, an exit can go on at once, or after the next steps of the thread, which nothing holds up |
| ModelHandoff.SubmittedWhileCancelling | smart_io_throttle.c:1294-1303 | besides that of a context that is gone, the one submission that must not happen, between a cancel and its signal: it lets the exit depart and the thread take a context that is gone |
| ModelHandoff.CancellingIsMet | smart_io_throttle.c:1171-1184 | a run that ends between a cancel and its signal |
| ModelHandoff.StepKeeps | smart_io_throttle.c:1123-1184 | every step of thread, submitters and exits keeps the invariant |
| ModelHandoff.Handoff.TrySubmit | smart_io_throttle.c:1294-1303 | submits exactly when both slots are empty |
| ModelHandoff.Handoff.TakeQueued | smart_io_throttle.c:1133-1137 | moves the queued context to the running slot |
| ModelHandoff.Handoff.SignalDone | smart_io_throttle.c:1141-1142 | one signal for the context just run |
| ModelHandoff.Handoff.ClearRunning | smart_io_throttle.c:1143-1146 | empties the running slot |
| ModelHandoff.Handoff.CancelQueued | smart_io_throttle.c:1171-1182 | takes exactly the queued context out |
| ModelHandoff.Handoff.SignalCancelled | smart_io_throttle.c:1182-1184 | the canceller signals in the thread's stead |
| ModelInput.Prepare | smart_io_model_fp32.c:97-141 | refuses exactly the snapshots that fail a check, is out of range exactly for a mean of 2^24 thresholds or more, and otherwise yields eleven correctly rounded ratios, ten of them at most 1.0 |
| ModelInput.InputsByField | smart_io_model_fp32.c:119-141 | each of the eleven inputs by its index and its two fields |
| ModelInput.SnapshotsAreAccepted | smart_io_throttle.c:2048-2099 | a snapshot of any reachable state passes all checks of the predictor exactly when no more requests are issued than the queue is deep |
| ModelInput.ARefusedSnapshotIsMet | smart_io_throttle.c:2089-2091 | a run whose snapshot fails that check |
| RatioBits.Encode | smart_io_model_fp32.c:26-71 | succeeds exactly on the encodable ratios and then yields the binary32 pattern nearest to n/d, ties to even (IEEE 754-2019, sections 3.4 and 4.3.1) |
| RatioBits.EncodableBelow2To24 | smart_io_model_fp32.c:34-48 | for d in 1..2^40-1 the encodable ratios are exactly those below 2^24 |
| RatioBits.GuessGivesBinade | smart_io_model_fp32.c:34-41 | the difference of the bit lengths, corrected once, is the exponent of n/d |
| RatioBits.ShiftDecides | smart_io_model_fp32.c:42-48 | the shift guard refuses exactly the ratios that do not fit |
| RatioBits.DivideRounding | smart_io_model_fp32.c:49-57 | the quotient rounds to nearest, ties to even |
| RatioBits.Assemble | smart_io_model_fp32.c:58-71 | a carry moves to the exponent; the range test cannot fail |
| Binary32.OrderPreserved | smart_io_model_fp32.c:42-71 | a smaller ratio never gets a larger pattern |
| Binary32.CommonFactorIgnored | smart_io_model_fp32.c:42-71 | a common factor does not change the pattern |
| Binary32.AtMostOne | smart_io_model_fp32.c:42-71 | a ratio of at most one gets a pattern of at most 0x3f800000 |
| TokenBucket.RateLimit | smart_io_dirtyrate.c:83-124 | over every run of writes from a reset bucket without a configuration change, 10^9 times the bytes charged is at most 10^9 bursts plus the rate times the time and the number of partial refills |
| TokenBucket.ClosedRateLimit | smart_io_dirtyrate.c:83-124 | without the count: 10^9 times the bytes charged is at most 10^9 bursts plus twice the rate times the time |
| TokenBucket.RefillBounds | smart_io_dirtyrate.c:83-124 | a refill never overfills, never adds more than is missing, and never moves the refill time past the present |
| TokenBucket.RefillEarns | smart_io_dirtyrate.c:83-124 | the tokens after a refill are those before and the whole bytes of the elapsed time, up to the burst; and how far the refill time moves |
| TokenBucket.TokensAreSpent | smart_io_dirtyrate.c:194-199 | n writes are all admitted if the bucket holds n pages, and they take n pages from it at most |
| TokenBucket.NothingIsLost | smart_io_dirtyrate.c:83-124 | over a run in which no refill overflows or pays for rounding, 10^9 times the bytes charged and left are at least those at the start and the rate times the time credited |
| TokenBucket.SlowRatesAreLossless | smart_io_dirtyrate.c:120-124 | at rates up to 10^9 every run in which no refill fills the bucket is of that kind |
| TokenBucket.RefillKeepsCredit | smart_io_dirtyrate.c:107-124 | a refill fills the bucket or keeps all credit, except exactly when the whole bytes it has earned do not fill it and are worth less than a nanosecond, which never happens at rates up to 10^9; a refill that fills the bucket drops exactly what overflows |
| TokenBucket.RoundingCanCost | smart_io_dirtyrate.c:120-124 | an input on which a refill at a higher rate loses credit |
| TokenBucket.WaitSuffices | smart_io_dirtyrate.c:203-204 | whoever sleeps the uncapped computed time is admitted by the next refill |
| TokenBucket.SecondShrinksDeficit | smart_io_dirtyrate.c:205-214 | each wait of a second shrinks the deficit by at least the rate, or the writer is admitted |
| TokenBucket.LoneWriterAdmitted | smart_io_dirtyrate.c:160-221 | a lone writer is admitted after as many waits as its deficit divided by the rate, however long it is delayed in between |
| TokenBucket.TimeForIsTight | smart_io_dirtyrate.c:54-72 | the computed time is exact for whole seconds and otherwise more than the time needed, by a nanosecond at most |
| DirtyRate.Limiter.BurstIsAnEighth | smart_io_dirtyrate.c:74-81 | the burst is an eighth of a second's bytes, rounded down, and a page at least |
| DirtyRate.NsForBytesExact | smart_io_dirtyrate.c:54-72 | for the amounts in use the time for bytes never saturates; rounded down it is the exact floor, rounded up at least the exact time |
| DirtyRate.FullBeforeItsTime | smart_io_dirtyrate.c:96-115 | an input on which less than the computed time fills the bucket |
| DirtyRate.Limiter.Refill | smart_io_dirtyrate.c:83-124 | the 64-bit refill is the exact one; nothing saturates |
| DirtyRate.Limiter.Attempt | smart_io_dirtyrate.c:152-214 | who is let through; whoever is admitted takes a page of the refilled bucket and is charged it; the others take nothing and wait a second, or the time the missing bytes take and a nanosecond more at most |
| DirtyRate.Limiter.SetEnabled | smart_io_dirtyrate.c:250-262 | switching leaves an empty, inactive bucket |
| DirtyRate.Limiter.SetActive | smart_io_dirtyrate.c:269-287 | activating refills at the configured rate; repeating it changes nothing |
| DirtyRate.Limiter.SetWkbps | smart_io_dirtyrate.c:289-306 | refuses exactly the rates that overflow; an active bucket restarts |
| Dispatcher.Scheduler.Insert | smart_deadline.c:1039-1086 | an arrival goes to the end of the arrival list of its priority and direction and into its tree by sector, or at the head to the front of the head list, or is merged away; everything else stays and stays in order |
| Dispatcher.Scheduler.Remove | smart_deadline.c:177-192 | takes a request off its list and tree, and nothing else |
| Dispatcher.Scheduler.MergedRequests | smart_deadline.c:215-244 | an earlier absorbed request hands on its place and time; order, placement and conservation survive exactly when that moves no request to another list |
| Dispatcher.OfferedMergesStay | smart_deadline.c:1058-1074 | two requests of one priority and direction that wait in arrival lists are merged without a move to another list |
| Dispatcher.MergeOutcome | smart_deadline.c:215-244 | after a merge within one list the absorbed request is on no list, the absorbing one is still queued, and no other is gained or lost; a merge across two lists breaks order or placement |
| Dispatcher.MergeTakesPlace | smart_deadline.c:215-244 | a request that absorbs an earlier one of its list stands exactly where that one stood, and all others stay |
| Dispatcher.MergeLeavesPlace | smart_deadline.c:215-244 | otherwise the absorbed request is cut out of its list, and nothing else changes |
| Dispatcher.EarlierLeavesFirst | smart_deadline.c:794-825 | first come, first served: when the later of two arrivals of one list is dispatched from it, the earlier has been dispatched or merged away |
| Dispatcher.Scheduler.RequestMerged | smart_deadline.c:194-210 | a front merge repositions the request in its tree only |
| Dispatcher.Scheduler.Choose | smart_deadline.c:794-818 | the head list first; else the oldest arrival of the priority, of two as old the write |
| Dispatcher.Scheduler.DispatchFifo | smart_deadline.c:794-825 | dispatches that request and removes it, the first of the head list or of its arrival list, and changes nothing else; or finds the priority idle |
| Dispatcher.Scheduler.DispatchRequest | smart_deadline.c:827-846 | a request is found exactly when some priority that may run is not idle; lower priorities run only when higher ones are idle or held back |
| Dispatcher.Scheduler.HasWorkForPrio | smart_deadline.c:269-274 | work is announced exactly for a priority that is not idle |
| Dispatcher.Scheduler.HasWork | smart_deadline.c:1143-1164 | unless a model submission is due, work is announced exactly when a pass would dispatch |
| LatencyHistogram.BucketIndex | tool.c:113-125 | the bucket is the one whose power-of-two range holds the latency |
| LatencyHistogram.BucketUnique | tool.c:113-125 | no other bucket's range holds it |
| LatencyHistogram.Histogram.Add | io_semantics.c:1116-1123 | one more sample |
| LatencyHistogram.Histogram.Percentile | io_semantics.c:1125-1140 | the answer is a power of two that the nearest-rank percentile lies above by less than a factor of two; the search never falls through |
| LatencyHistogram.RankIsLeast | io_semantics.c:1125-1140 | the rank is the least number that is at least the asked percentage of the samples |
| LatencyHistogram.BucketSplits | io_semantics.c:1125-1140 | by counting: less than the asked percentage of the samples is below the answer, and at least that percentage is below twice the answer |
| LatencyHistogram.Merge | io_semantics.c:1421-1452 | the merged histogram holds the samples of all processors and empties theirs |
| LatencyHistogram.Publish | io_semantics.c:1453-1471 | both percentiles, with p50 at most p99, the average, cut to 32 bits, and p50 in percent of p99, at most 100 |
| LatencyHistogram.PercentilesOrdered | io_semantics.c:1125-1140 | a lower percentage never has a larger answer |
| HotInodeCache.HotInodes.Mark | io_semantics.c:437-480 | at any time and in any order: no inode has two slots; the mark is kept, in the inode's own slot, the first expired one or the first of the oldest; and only an inode with 64 rivals is forgotten before its time |
| HotInodeCache.HotInodes.FindSlot | io_semantics.c:454-474 | that choice of the slot |
| HotInodeCache.HotInodes.Lookup | io_semantics.c:482-507 | at any time: never reports an inode that was not marked within the last 500 ms, and reports the latest extension of every one that is current at the latest time of any region so far, unless 64 others were marked since |
| HotInodeCache.LateReaderMisses | io_semantics.c:492-493 | an input on which a lookup with an earlier time than the region before it misses an inode that is current at its time |
| FixedPower.FixedPowerInt | tp_psi.c:35-59 | the result is at most one, and off from the exact power by at most half a unit per factor, although every step rounds; nothing wraps |
| FixedPower.RoundedMul | tp_psi.c:46-48 | one 64-bit multiplication stays at most one and is off from the product by at most half a unit |

## Left out

- deadline escape: no live code selects it, so its flag, its counter and `release_deadline` are never active; smart_deadline.c:332-792 is disabled as a whole.
- completion_sampled: the flag is set only on a record that is freed in the same locked region; the store is left out, the test of the flag is kept.
- feedback_bound, rq_id, tag_depth_max, the maximum of the votes, statistics counters and time stamps that only tracing reads.
- the demonstration mode's own requeue test; the gate's bypass by that mode is modelled.
- reading the enabled switch several times within one region: the model reads it once.
- wrapping of 64-bit clocks, sessions, decision numbers, histogram counters and statistics, and of jiffies in the dispatcher: they are unbounded numbers here. The 32-bit counters of the throttle are shown not to wrap.
- FixedPower.FixedPowerInt: does not model scales above 2^31, for which the product of two factors no longer fits the word; the program uses 2^11.
- DirtyRate.Limiter.Attempt: leaves out the statistics, the signal test and the early wake-up of a sleeper; a sleep is its computed length.
- HotInodeCache.HotInodes.Lookup: completeness for a lookup whose time is earlier than that of a region before it is promised only for inodes current at the latest such time. Beyond that it depends on which expired slots have been reused, which no caller can know.
- the page size is any number from 1024 up to 2^32.
- ModelHandoff: a context is not submitted between a cancel and its signal, nor once it is gone, because its queue is frozen by then; thread creation and module exit are left out.
- two-phase work of the inference worker between its two locked regions: the prediction itself, the assembler kernel and the weight tables; the answer is any choice or an error.
- timers and work queues themselves.
- statistics of the dispatcher per priority; the conservation of requests is stated on the requests themselves.
- procfs, tracing, logging, hook registration, remapping, page-cache budgets, the policy counter of the system context, and unit conversions.
- memory ordering, read-copy-update and the internals of kernel lists, trees and hash functions; the hash function is any function.
