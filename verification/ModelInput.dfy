/** The predictor's checks of a snapshot, and the eleven ratios it turns into binary32. */
module ModelInput {
  import opened ThrottleSpec
  import opened ThrottleRuns
  import opened ThrottleCounts
  import opened ThrottleScenarios
  import opened LatencyRing
  import opened Binary32
  import opened RatioBits

  const INPUTS: nat := 11
  const MEAN_INPUT: nat := 3

  datatype Preparation = Invalid | OutOfRange | Inputs(bits: seq<nat>)

  /** Every field but the time stamp is a 32-bit number. */
  predicate FitsU32(s: Snapshot) {
    && s.queueMax <= U32_MAX && s.threshold <= U32_MAX
    && s.deviceQ <= U32_MAX && s.deviceQFg <= U32_MAX && s.deviceQSlow <= U32_MAX
    && s.windowCount <= U32_MAX && s.windowMean <= U32_MAX && s.windowSpan <= U32_MAX && s.windowSlow <= U32_MAX
    && s.windowFg <= U32_MAX
    && s.waitingTotal <= U32_MAX && s.waiting <= U32_MAX && s.waitingFg <= U32_MAX && s.waitingHigh <= U32_MAX
    && s.waitingContiguous <= U32_MAX
  }

  predicate Accepts(s: Snapshot) {
    && s.queueMax != 0 && s.threshold != 0
    && s.windowCount == SAMPLES && s.windowSpan <= SPAN_MAX_US
    && s.deviceQ <= s.queueMax && s.deviceQFg <= s.deviceQ && s.deviceQSlow <= s.deviceQ
    && s.windowSlow <= s.windowCount && s.windowFg <= s.windowCount
    && s.waiting <= s.waitingTotal && s.waitingFg <= s.waitingTotal
    && s.waitingHigh <= s.waitingTotal && s.waitingContiguous <= s.waitingTotal
  }

  function Smaller(a: nat, b: nat): nat {
    if a < b then a else b
  }

  function Larger(a: nat, b: nat): nat {
    if a < b then b else a
  }

  /** What the inputs stand for. */
  function Ratios(s: Snapshot): seq<(nat, nat)> {
    [(s.deviceQ, s.queueMax),
     (s.deviceQFg, Larger(1, s.deviceQ)),
     (s.deviceQSlow, Larger(1, s.deviceQ)),
     (s.windowMean, s.threshold),
     (s.windowSpan, SPAN_MAX_US),
     (s.windowSlow, s.windowCount),
     (s.windowFg, s.windowCount),
     (Smaller(s.waiting, s.queueMax), s.queueMax),
     (Smaller(s.waitingFg, s.queueMax), s.queueMax),
     (s.waitingHigh, Larger(1, s.waitingTotal)),
     (s.waitingContiguous, Larger(1, s.waitingTotal))]
  }

  /** A share always encodes, to at most 1.0. */
  ghost predicate IsShare(n: nat, d: nat, bits: nat) {
    NearestEven(n, d, bits) && bits <= ONE_BITS
  }

  method EncodeShare(n: nat, d: nat) returns (ok: bool, bits: nat)
    requires 0 < d <= U32_MAX && n <= d
    ensures ok && IsShare(n, d, bits)
  {
    EncodableBelow2To24(n, d);
    assert n < d * (2 * HIDDEN);
    hide Encodable, NearestEven;
    ok, bits := Encode(n, d);
    AtMostOne(n, d, bits);
  }

  /** The bits are those of the ratios, correctly rounded. */
  ghost predicate Stands(s: Snapshot, bits: seq<nat>) {
    && |bits| == INPUTS
    && NearestEven(s.windowMean, s.threshold, bits[MEAN_INPUT])
    && forall i :: 0 <= i < INPUTS && i != MEAN_INPUT ==> IsShare(Ratios(s)[i].0, Ratios(s)[i].1, bits[i])
  }

  /**
   Checks a snapshot and encodes its ratios. A snapshot that passes the checks is refused for one
   reason only, a mean of at least 2^24 times the threshold; ten of the inputs are at most 1.0.
   */
  method Prepare(s: Snapshot) returns (r: Preparation)
    requires FitsU32(s)
    ensures r.Invalid? <==>
              || s.queueMax == 0 || s.threshold == 0 || s.windowCount != 5 || s.windowSpan > 10_000
              || s.deviceQ > s.queueMax || s.deviceQFg > s.deviceQ || s.deviceQSlow > s.deviceQ
              || s.windowSlow > s.windowCount || s.windowFg > s.windowCount
              || s.waiting > s.waitingTotal || s.waitingFg > s.waitingTotal
              || s.waitingHigh > s.waitingTotal || s.waitingContiguous > s.waitingTotal
    ensures r.Invalid? <==> !Accepts(s)
    ensures r.OutOfRange? <==> Accepts(s) && s.windowMean >= s.threshold * 0x100_0000
    ensures r.Inputs? ==> Stands(s, r.bits)
  {
    if s.queueMax == 0 || s.threshold == 0 || s.windowCount != SAMPLES || s.windowSpan > SPAN_MAX_US
       || s.deviceQ > s.queueMax || s.deviceQFg > s.deviceQ || s.deviceQSlow > s.deviceQ
       || s.windowSlow > s.windowCount || s.windowFg > s.windowCount
       || s.waiting > s.waitingTotal || s.waitingFg > s.waitingTotal
       || s.waitingHigh > s.waitingTotal || s.waitingContiguous > s.waitingTotal {
      return Invalid;
    }
    hide Encodable, NearestEven, IsShare;
    EncodableBelow2To24(s.windowMean, s.threshold);
    var ok0, b0 := EncodeShare(s.deviceQ, s.queueMax);
    var ok1, b1 := EncodeShare(s.deviceQFg, Larger(1, s.deviceQ));
    var ok2, b2 := EncodeShare(s.deviceQSlow, Larger(1, s.deviceQ));
    var ok3, b3 := Encode(s.windowMean, s.threshold);
    var ok4, b4 := EncodeShare(s.windowSpan, SPAN_MAX_US);
    var ok5, b5 := EncodeShare(s.windowSlow, s.windowCount);
    var ok6, b6 := EncodeShare(s.windowFg, s.windowCount);
    var ok7, b7 := EncodeShare(Smaller(s.waiting, s.queueMax), s.queueMax);
    var ok8, b8 := EncodeShare(Smaller(s.waitingFg, s.queueMax), s.queueMax);
    var ok9, b9 := EncodeShare(s.waitingHigh, Larger(1, s.waitingTotal));
    var ok10, b10 := EncodeShare(s.waitingContiguous, Larger(1, s.waitingTotal));
    if !ok0 || !ok1 || !ok2 || !ok3 || !ok4 || !ok5 || !ok6 || !ok7 || !ok8 || !ok9 || !ok10 {
      return OutOfRange;
    }
    r := Inputs([b0, b1, b2, b3, b4, b5, b6, b7, b8, b9, b10]);
  }

  /** The inputs in the order in which the model takes them, each said by its fields. */
  lemma InputsByField(s: Snapshot, bits: seq<nat>)
    requires Accepts(s) && Stands(s, bits)
    ensures |bits| == 11 && forall i :: 0 <= i < 11 && i != 3 ==> bits[i] <= 0x3f80_0000
    ensures NearestEven(s.deviceQ, s.queueMax, bits[0])
    ensures NearestEven(s.deviceQFg, if s.deviceQ == 0 then 1 else s.deviceQ, bits[1])
    ensures NearestEven(s.deviceQSlow, if s.deviceQ == 0 then 1 else s.deviceQ, bits[2])
    ensures NearestEven(s.windowMean, s.threshold, bits[3])
    ensures NearestEven(s.windowSpan, 10_000, bits[4])
    ensures NearestEven(s.windowSlow, 5, bits[5])
    ensures NearestEven(s.windowFg, 5, bits[6])
    ensures NearestEven(if s.waiting <= s.queueMax then s.waiting else s.queueMax, s.queueMax, bits[7])
    ensures NearestEven(if s.waitingFg <= s.queueMax then s.waitingFg else s.queueMax, s.queueMax, bits[8])
    ensures NearestEven(s.waitingHigh, if s.waitingTotal == 0 then 1 else s.waitingTotal, bits[9])
    ensures NearestEven(s.waitingContiguous, if s.waitingTotal == 0 then 1 else s.waitingTotal, bits[10])
  {
    hide NearestEven;
    assert forall i :: 0 <= i < INPUTS && i != MEAN_INPUT ==> IsShare(Ratios(s)[i].0, Ratios(s)[i].1, bits[i]);
    assert IsShare(Ratios(s)[0].0, Ratios(s)[0].1, bits[0]) && IsShare(Ratios(s)[1].0, Ratios(s)[1].1, bits[1]);
    assert IsShare(Ratios(s)[2].0, Ratios(s)[2].1, bits[2]) && IsShare(Ratios(s)[4].0, Ratios(s)[4].1, bits[4]);
    assert IsShare(Ratios(s)[5].0, Ratios(s)[5].1, bits[5]) && IsShare(Ratios(s)[6].0, Ratios(s)[6].1, bits[6]);
    assert IsShare(Ratios(s)[7].0, Ratios(s)[7].1, bits[7]) && IsShare(Ratios(s)[8].0, Ratios(s)[8].1, bits[8]);
    assert IsShare(Ratios(s)[9].0, Ratios(s)[9].1, bits[9]) && IsShare(Ratios(s)[10].0, Ratios(s)[10].1, bits[10]);
  }

  // ---- Snapshots of the throttle ----

  lemma WindowMeasures(w: seq<Sample>, threshold: nat)
    requires WindowOk(w) && Coherent(w)
    ensures LatencySum(w) / SAMPLES <= U32_MAX
    ensures SlowSamples(w, threshold) <= SAMPLES && FgSamples(w) <= SAMPLES
    ensures (w[SAMPLES - 1].ts - w[0].ts) / NS_PER_US <= SPAN_MAX_US
  {
    FiveOf(w, threshold);
    assert forall i :: 0 <= i < SAMPLES ==> w[i] in w && w[i].latency <= U32_MAX;
    hide LatencySum, SlowSamples, FgSamples;
  }

  lemma CountsNest(reqs: Requests, env: Env)
    ensures Count(reqs, IsIssuedFg) <= Count(reqs, IsIssued) <= |reqs|
    ensures Count(reqs, SlowTest(env)) <= Count(reqs, IsIssued)
    ensures Count(reqs, IsWaitingBg) <= Count(reqs, IsQueued) <= |reqs|
    ensures Count(reqs, IsWaitingFg) <= Count(reqs, IsQueued)
    ensures Count(reqs, IsWaitingHigh) <= Count(reqs, IsQueued)
    ensures Count(reqs, ContiguousTest(reqs)) <= Count(reqs, IsQueued)
  {
    CountWithin(reqs, IsIssued);
    CountWithin(reqs, IsQueued);
    CountImplies(reqs, IsIssuedFg, IsIssued);
    CountImplies(reqs, SlowTest(env), IsIssued);
    CountImplies(reqs, IsWaitingBg, IsQueued);
    CountImplies(reqs, IsWaitingFg, IsQueued);
    CountImplies(reqs, IsWaitingHigh, IsQueued);
    CountImplies(reqs, ContiguousTest(reqs), IsQueued);
    hide Count, Contiguous;
  }

  /**
   In every reachable state a snapshot fits and passes every check of the predictor but one: more
   requests may be with the device than its queue is deep.
   */
  lemma SnapshotsAreAccepted(s: State, env: Env)
    requires Inv(s) && s.capacity <= U32_MAX && env.queueMax <= U32_MAX && 0 < env.threshold <= U32_MAX
    requires SnapshotOf(s, env).Some?
    ensures FitsU32(SnapshotOf(s, env).value)
    ensures Accepts(SnapshotOf(s, env).value) <==> Count(s.reqs, IsIssued) <= env.queueMax
  {
    WindowMeasures(s.window, env.threshold);
    CountsNest(s.reqs, env);
    hide Count, RequestsOk, ModeOk, WindowOk, LatencySum, SlowSamples, FgSamples;
  }

  /** That is met: the device has lowered its depth to one while it works on two requests. */
  lemma ARefusedSnapshotIsMet()
    ensures IsRun(Initial(8), CrowdedRun())
    ensures var end, env := Run(Initial(8), CrowdedRun()), At(7 * MS, Model, 1);
            SnapshotOf(end, env).Some? && !Accepts(SnapshotOf(end, env).value)
  {
    TwoAreIssued();
    hide Run, IsRun, CrowdedRun;
    var reqs := Run(Initial(8), CrowdedRun()).reqs;
    CountTwo(reqs, FIRST, SECOND, IsIssued);
  }
}
