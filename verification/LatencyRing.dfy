/** The ring of the last five completion samples. */
module LatencyRing {
  import opened ThrottleSpec

  function Slow(x: Sample, threshold: nat): nat {
    if x.latency >= threshold then 1 else 0
  }

  function Fg(x: Sample): nat {
    if x.foreground then 1 else 0
  }

  lemma LastOf(w: seq<Sample>, threshold: nat)
    requires w != []
    ensures var n := |w| - 1;
            && LatencySum(w) == LatencySum(w[..n]) + w[n].latency
            && SlowSamples(w, threshold) == SlowSamples(w[..n], threshold) + Slow(w[n], threshold)
            && FgSamples(w) == FgSamples(w[..n]) + Fg(w[n])
  {
  }

  lemma FiveOf(w: seq<Sample>, threshold: nat)
    requires |w| == SAMPLES
    ensures LatencySum(w) == w[0].latency + w[1].latency + w[2].latency + w[3].latency + w[4].latency
    ensures SlowSamples(w, threshold)
            == Slow(w[0], threshold) + Slow(w[1], threshold) + Slow(w[2], threshold)
               + Slow(w[3], threshold) + Slow(w[4], threshold)
    ensures FgSamples(w) == Fg(w[0]) + Fg(w[1]) + Fg(w[2]) + Fg(w[3]) + Fg(w[4])
  {
    var w4, w3, w2, w1 := w[..4], w[..3], w[..2], w[..1];
    assert w4[..3] == w3 && w3[..2] == w2 && w2[..1] == w1 && w1[..0] == [];
    assert LatencySum(w1[..0]) == SlowSamples(w1[..0], threshold) == FgSamples(w1[..0]) == 0;
    hide LatencySum, SlowSamples, FgSamples, Slow, Fg;
    LastOf(w, threshold);
    LastOf(w4, threshold);
    LastOf(w3, threshold);
    LastOf(w2, threshold);
    LastOf(w1, threshold);
  }

  /** The five samples of a full ring, oldest first, are a rotation of its cells. */
  lemma RotationSums(c: seq<Sample>, head: nat, w: seq<Sample>, threshold: nat)
    requires |c| == SAMPLES && head < SAMPLES && w == c[head..] + c[..head]
    ensures LatencySum(c) == LatencySum(w) && SlowSamples(c, threshold) == SlowSamples(w, threshold)
            && FgSamples(c) == FgSamples(w)
  {
    FiveOf(c, threshold);
    FiveOf(w, threshold);
    hide LatencySum, SlowSamples, FgSamples, Slow, Fg;
    if head == 0 {
      assert w == c;
    } else if head == 1 {
      assert w == [c[1], c[2], c[3], c[4], c[0]];
    } else if head == 2 {
      assert w == [c[2], c[3], c[4], c[0], c[1]];
    } else if head == 3 {
      assert w == [c[3], c[4], c[0], c[1], c[2]];
    } else {
      assert w == [c[4], c[0], c[1], c[2], c[3]];
    }
  }

  /** All five are slow exactly when five are counted. */
  lemma AllSlow(w: seq<Sample>, threshold: nat)
    requires |w| == SAMPLES
    ensures SlowSamples(w, threshold) <= SAMPLES
    ensures SlowSamples(w, threshold) == SAMPLES <==> forall i :: 0 <= i < |w| ==> w[i].latency >= threshold
  {
    FiveOf(w, threshold);
  }

  class Ring {
    const cells: array<Sample>
    var head: nat
    var count: nat
    ghost var window: seq<Sample>

    ghost predicate Valid()
      reads this, cells
    {
      && cells.Length == SAMPLES && head < SAMPLES && count <= SAMPLES
      && |window| == count
      && (count < SAMPLES ==> head == count && window == cells[..count])
      && (count == SAMPLES ==> window == cells[head..] + cells[..head])
    }

    constructor ()
      ensures Valid() && fresh(cells) && window == []
    {
      cells := new Sample[SAMPLES](_ => Sample(0, 0, false));
      head, count, window := 0, 0, [];
    }

    method Reset()
      requires Valid()
      modifies this, cells
      ensures Valid() && window == []
    {
      var i := 0;
      while i < SAMPLES
        invariant i <= SAMPLES
      {
        cells[i] := Sample(0, 0, false);
        i := i + 1;
      }
      head, count, window := 0, 0, [];
    }

    method Push(x: Sample)
      requires Valid()
      modifies this, cells
      ensures Valid() && window == Pushed(old(window), x)
    {
      ghost var was := cells[..];
      cells[head] := x;
      assert cells[..] == was[head := x];
      window := Pushed(window, x);
      head := (head + 1) % SAMPLES;
      if count < SAMPLES {
        count := count + 1;
      }
    }

    /** Sums the five samples up if they are recent enough together. */
    method Measure(threshold: nat) returns (ok: bool, mean: nat, span: nat, slow: nat, fg: nat)
      requires Valid()
      ensures ok <==> Coherent(window)
      ensures ok ==> mean == LatencySum(window) / SAMPLES && span == (window[SAMPLES - 1].ts - window[0].ts) / NS_PER_US
                     && slow == SlowSamples(window, threshold) && fg == FgSamples(window)
    {
      mean, span, slow, fg := 0, 0, 0, 0;
      if count != SAMPLES {
        return false, 0, 0, 0, 0;
      }
      var oldest, newest := cells[head], cells[(head + SAMPLES - 1) % SAMPLES];
      assert oldest == window[0] && newest == window[SAMPLES - 1];
      if oldest.ts == 0 || newest.ts < oldest.ts || newest.ts - oldest.ts > SPAN_MAX_US * NS_PER_US {
        return false, 0, 0, 0, 0;
      }
      span := (newest.ts - oldest.ts) / NS_PER_US;
      var sum, i := 0, 0;
      while i < SAMPLES
        invariant i <= SAMPLES
        invariant sum == LatencySum(cells[..i]) && slow == SlowSamples(cells[..i], threshold)
                  && fg == FgSamples(cells[..i])
      {
        assert cells[..i + 1][..i] == cells[..i];
        sum := sum + cells[i].latency;
        if cells[i].latency >= threshold {
          slow := slow + 1;
        }
        if cells[i].foreground {
          fg := fg + 1;
        }
        i := i + 1;
      }
      assert cells[..SAMPLES] == cells[..];
      RotationSums(cells[..], head, window, threshold);
      ok, mean := true, sum / SAMPLES;
    }

    /** Whether the window is full, recent and slow throughout. */
    method IsSlow(threshold: nat) returns (slow: bool)
      requires Valid()
      ensures slow <==> SlowWindow(window, threshold)
    {
      var ok, _, _, many, _ := Measure(threshold);
      if ok {
        AllSlow(window, threshold);
      }
      slow := ok && many == SAMPLES;
    }
  }
}
