/** Which pull round-trip samples are evidence (bulk_rate_controller.hpp, BulkRttEstimator): Karn's rule,
    bunched pulls, the minimum of the last four valid samples, and the hold on a lone spike. */
module RttEstimator {
  import opened Common

  const RECENT: nat := 4

  datatype Sample = Sample(rttUs: nat, sinceLastPullUs: nat, chunkSendUs: nat, resent: bool, duplicate: bool)

  /** `recent`: the last valid samples, at most four, oldest first. Zero means "none" for both others. */
  datatype Estimate = Estimate(recent: seq<nat>, srttUs: nat, heldSpikeUs: nat)

  const NOTHING := Estimate([], 0, 0)

  predicate Evidence(x: Sample) {
    && !x.resent && !x.duplicate && x.rttUs != 0
    && (x.sinceLastPullUs == 0 || x.sinceLastPullUs >= Max(1000, x.chunkSendUs / 4))
  }

  predicate Spike(srttUs: nat, rttUs: nat) {
    srttUs != 0 && rttUs > Max(srttUs * 2, srttUs + 100000)
  }

  function LastOf(s: seq<nat>): seq<nat> {
    if |s| > RECENT then s[|s| - RECENT..] else s
  }

  function Smooth(srttUs: nat, rttUs: nat): nat {
    if srttUs != 0 then (srttUs * 7 + rttUs) / 8 else rttUs
  }

  /** A spike behind a held one that is only the lost pull's follower on the head-only channel. */
  predicate Follower(srttUs: nat, heldSpikeUs: nat, x: Sample) {
    x.sinceLastPullUs != 0 && x.sinceLastPullUs < srttUs * 3 / 2 && x.rttUs < heldSpikeUs
  }

  /** What a valid sample makes of the smoothed round trip and the held spike, and whether it is taken in. */
  function Filtered(srttUs: nat, heldSpikeUs: nat, x: Sample): (nat, nat, bool) {
    if !Spike(srttUs, x.rttUs) then (Smooth(srttUs, x.rttUs), 0, true)
    else if heldSpikeUs == 0 then (srttUs, x.rttUs, false)
    else if Follower(srttUs, heldSpikeUs, x) then (srttUs, 0, false)
    else (Smooth((srttUs * 7 + heldSpikeUs) / 8, x.rttUs), 0, true)
  }

  function Sampled(e: Estimate, x: Sample): (Estimate, bool) {
    if !Evidence(x) then (e, false)
    else
      var (srttUs, heldSpikeUs, taken) := Filtered(e.srttUs, e.heldSpikeUs, x);
      (Estimate(LastOf(e.recent + [x.rttUs]), srttUs, heldSpikeUs), taken)
  }

  function Run(e: Estimate, xs: seq<Sample>): Estimate
    decreases |xs|
  {
    if xs == [] then e else Sampled(Run(e, xs[..|xs| - 1]), xs[|xs| - 1]).0
  }

  /** The valid samples of a run, oldest first. */
  function Kept(xs: seq<Sample>): seq<nat>
    decreases |xs|
  {
    if xs == [] then []
    else
      var last := xs[|xs| - 1];
      Kept(xs[..|xs| - 1]) + (if Evidence(last) then [last.rttUs] else [])
  }

  lemma AverageStaysWithin(a: nat, b: nat, lo: nat, hi: nat)
    requires lo <= a <= hi && lo <= b <= hi
    ensures lo <= (a * 7 + b) / 8 <= hi
  {
  }

  lemma FilteredStaysWithin(srttUs: nat, heldSpikeUs: nat, x: Sample, lo: nat, hi: nat)
    requires srttUs != 0 ==> lo <= srttUs <= hi
    requires heldSpikeUs != 0 ==> lo <= heldSpikeUs <= hi
    requires lo <= x.rttUs <= hi
    ensures var (smoothed, held, _) := Filtered(srttUs, heldSpikeUs, x);
            && (smoothed != 0 ==> lo <= smoothed <= hi)
            && (held != 0 ==> lo <= held <= hi)
  {
    if srttUs != 0 {
      AverageStaysWithin(srttUs, x.rttUs, lo, hi);
      if heldSpikeUs != 0 {
        AverageStaysWithin(srttUs, heldSpikeUs, lo, hi);
        AverageStaysWithin((srttUs * 7 + heldSpikeUs) / 8, x.rttUs, lo, hi);
      }
    }
  }

  lemma LastOfLast(s: seq<nat>, x: nat)
    ensures LastOf(LastOf(s) + [x]) == LastOf(s + [x])
  {
  }

  /** After any run the retained samples are exactly the newest four valid ones (spikes included), and both
      the smoothed round trip and a held spike lie within the range of the valid samples. */
  lemma {:induction false} EstimateFollowsSamples(xs: seq<Sample>, lo: nat, hi: nat)
    requires forall i | 0 <= i < |xs| && Evidence(xs[i]) :: lo <= xs[i].rttUs <= hi
    ensures var e := Run(NOTHING, xs);
            && e.recent == LastOf(Kept(xs))
            && (e.srttUs != 0 ==> lo <= e.srttUs <= hi)
            && (e.heldSpikeUs != 0 ==> lo <= e.heldSpikeUs <= hi)
            && (forall i | 0 <= i < |e.recent| :: e.recent[i] != 0)
    decreases |xs|
  {
    if xs != [] {
      EstimateFollowsSamples(xs[..|xs| - 1], lo, hi);
      var e := Run(NOTHING, xs[..|xs| - 1]);
      var last := xs[|xs| - 1];
      if Evidence(last) {
        FilteredStaysWithin(e.srttUs, e.heldSpikeUs, last, lo, hi);
        LastOfLast(Kept(xs[..|xs| - 1]), last.rttUs);
      }
    }
  }

  /** A spike that stands alone leaves the smoothed round trip as if it had never been sampled. */
  lemma LoneSpikeLeavesNoTrace(e: Estimate, spike: Sample, next: Sample)
    requires e.heldSpikeUs == 0
    requires Evidence(spike) && Spike(e.srttUs, spike.rttUs)
    requires Evidence(next) && !Spike(e.srttUs, next.rttUs)
    ensures var with := Sampled(Sampled(e, spike).0, next);
            var without := Sampled(e, next);
            && !Sampled(e, spike).1 && with.1 == without.1
            && with.0.srttUs == without.0.srttUs && with.0.heldSpikeUs == without.0.heldSpikeUs == 0
  {
  }

  // ------------------------------------------------------------------ the ring

  /** The ring read from its oldest entry. */
  function Unrolled(ring: seq<nat>, next: nat, count: nat): seq<nat>
    requires |ring| == RECENT && next < RECENT && count <= RECENT
  {
    if count < RECENT then ring[..count] else ring[next..] + ring[..next]
  }

  lemma GrowingRing(ring: seq<nat>, count: nat, x: nat)
    requires |ring| == RECENT && count < RECENT
    ensures ring[count := x][..count + 1] == ring[..count] + [x]
  {
  }

  lemma FullRing(ring: seq<nat>, next: nat, x: nat)
    requires |ring| == RECENT && next < RECENT
    ensures ring[next := x][next + 1..] + ring[next := x][..next + 1] == (ring[next..] + ring[..next] + [x])[1..]
  {
    var after := ring[next := x];
    assert after[..next + 1] == ring[..next] + [x];
    assert ring[next..] == [ring[next]] + ring[next + 1..];
  }

  function Turned(next: nat): (turned: nat)
    requires next < RECENT
    ensures turned == if next + 1 < RECENT then next + 1 else 0
  {
    (next + 1) % RECENT
  }

  /** Writing at the next place and moving on appends, and drops the oldest once the ring is full. */
  lemma PushedIsLast(ring: seq<nat>, next: nat, count: nat, x: nat)
    requires |ring| == RECENT && next < RECENT && count <= RECENT && (count < RECENT ==> next == count)
    ensures Unrolled(ring[next := x], Turned(next), Min(count + 1, RECENT))
            == LastOf(Unrolled(ring, next, count) + [x])
  {
    var after := ring[next := x];
    if count < RECENT {
      GrowingRing(ring, count, x);
    } else {
      FullRing(ring, next, x);
    }
    if next + 1 == RECENT {
      assert after[next + 1..] + after[..next + 1] == after[0..] + after[..0] == after;
    }
  }

  lemma UnrolledIsRing(ring: seq<nat>, next: nat, count: nat, v: nat)
    requires |ring| == RECENT && next < RECENT && count <= RECENT
    ensures v in Unrolled(ring, next, count) <==> v in ring[..count]
  {
    if count == RECENT {
      assert ring[..count] == ring[..next] + ring[next..];
    }
  }

  class BulkRttEstimator {
    const ring: array<nat>
    var next: nat
    var count: nat
    var srttUs: nat
    var heldSpikeUs: nat

    ghost predicate Valid()
      reads this, ring
    {
      && ring.Length == RECENT && next < RECENT && count <= RECENT && (count < RECENT ==> next == count)
      && (forall i | 0 <= i < count :: ring[i] != 0)
    }

    ghost function Recent(): seq<nat>
      reads this, ring
      requires Valid()
    {
      Unrolled(ring[..], next, count)
    }

    ghost function Value(): Estimate
      reads this, ring
      requires Valid()
    {
      Estimate(Recent(), srttUs, heldSpikeUs)
    }

    constructor ()
      ensures Valid() && fresh(ring) && Value() == NOTHING
    {
      ring := new nat[RECENT](_ => 0);
      next, count, srttUs, heldSpikeUs := 0, 0, 0, 0;
    }

    method OnSample(x: Sample) returns (accepted: bool)
      requires Valid()
      modifies this, ring
      ensures Valid()
      ensures (Value(), accepted) == Sampled(old(Value()), x)
    {
      if x.resent || x.duplicate || x.rttUs == 0 {
        return false;
      }
      var bunched := Max(1000, x.chunkSendUs / 4);
      if x.sinceLastPullUs != 0 && x.sinceLastPullUs < bunched {
        return false;
      }
      Remember(x.rttUs);
      accepted := Filter(x);
    }

    /** A lone spike is held back; the sample after it says whether it was one. */
    method Filter(x: Sample) returns (accepted: bool)
      modifies this`srttUs, this`heldSpikeUs
      ensures (srttUs, heldSpikeUs, accepted) == Filtered(old(srttUs), old(heldSpikeUs), x)
    {
      if srttUs != 0 && x.rttUs > Max(srttUs * 2, srttUs + 100000) {
        if heldSpikeUs == 0 {
          heldSpikeUs := x.rttUs;
          return false;
        }
        var held := heldSpikeUs;
        heldSpikeUs := 0;
        if x.sinceLastPullUs != 0 && x.sinceLastPullUs < srttUs * 3 / 2 && x.rttUs < held {
          return false;
        }
        srttUs := (srttUs * 7 + held) / 8;
      } else {
        heldSpikeUs := 0;
      }
      srttUs := if srttUs != 0 then (srttUs * 7 + x.rttUs) / 8 else x.rttUs;
      return true;
    }

    method Remember(rttUs: nat)
      requires Valid() && rttUs != 0
      modifies this`next, this`count, ring
      ensures Valid()
      ensures Recent() == LastOf(old(Recent()) + [rttUs])
    {
      ghost var was := ring[..];
      PushedIsLast(was, next, count, rttUs);
      ring[next] := rttUs;
      assert ring[..] == was[next := rttUs];
      next := Turned(next);
      if count < RECENT {
        count := count + 1;
      }
    }

    /** The current delay: the least of the last (at most four) valid samples, 0 before the first. */
    method CurrentUs() returns (m: nat)
      requires Valid()
      ensures m == 0 <==> Recent() == []
      ensures Recent() != [] ==> m in Recent()
      ensures forall i | 0 <= i < |Recent()| :: m <= Recent()[i]
    {
      m := 0;
      for i := 0 to count
        invariant i == 0 <==> m == 0
        invariant i > 0 ==> m in ring[..i]
        invariant forall j | 0 <= j < i :: m <= ring[j]
      {
        m := if m != 0 then Min(m, ring[i]) else ring[i];
      }
      UnrolledIsRing(ring[..], next, count, m);
      assert ring[..count] == ring[..][..count];
      forall i | 0 <= i < |Recent()| ensures m <= Recent()[i] {
        UnrolledIsRing(ring[..], next, count, Recent()[i]);
      }
    }
  }
}
