/**
 The retransmission-timeout estimator (src/stream.rs:569-591), which follows section 2
 of RFC 6298 with integer durations.
 */
module Rto {
  import opened Constants

  datatype Rtt = Rtt(srtt: nat, rttvar: nat, rto: nat)

  const FRESH := Rtt(0, 0, ONE_SECOND)

  /** One round-trip sample. A zero `srtt` means "no sample yet", as in the source. */
  function Sample(t: Rtt, r: nat): Rtt {
    var first := t.srtt == 0;
    var delta := if r < t.srtt then t.srtt - r else r - t.srtt;
    var rttvar := if first then r / 2 else (3 * t.rttvar + delta) / 4;
    var srtt := if first then r else (7 * t.srtt + r) / 8;
    Rtt(srtt, rttvar, Max(ONE_SECOND, srtt + Max(UDX_CLOCK_GRANULARITY, 4 * rttvar)))
  }

  /** Samples folded in order of arrival. */
  function Absorb(t: Rtt, samples: seq<nat>): Rtt {
    if samples == [] then t
    else Sample(Absorb(t, samples[..|samples| - 1]), samples[|samples| - 1])
  }

  lemma {:induction false} AbsorbConcat(t: Rtt, a: seq<nat>, b: seq<nat>)
    ensures Absorb(t, a + b) == Absorb(Absorb(t, a), b)
  {
    if b == [] {
      assert a + b == a;
    } else {
      var last := b[|b| - 1];
      AbsorbConcat(t, a, b[..|b| - 1]);
      calc {
        Absorb(t, a + b);
        { assert (a + b)[..|a + b| - 1] == a + b[..|b| - 1]; }
        Sample(Absorb(t, a + b[..|b| - 1]), last);
        Sample(Absorb(Absorb(t, a), b[..|b| - 1]), last);
        Absorb(Absorb(t, a), b);
      }
    }
  }

  function Distance(a: nat, b: nat): nat {
    if a < b then b - a else a - b
  }

  /**
   The weights of section 2.3 of RFC 6298, as laws on two consecutive estimates: an eighth of the way
   to the sample for the smoothed time, a quarter for the variance, both rounded down. The smoothed
   time does not overshoot the sample and closes in on it.
   */
  lemma SampleWeights(t: Rtt, r: nat)
    requires t.srtt != 0
    ensures var t', d := Sample(t, r), Distance(t.srtt, r);
      && 8 * t'.srtt <= 7 * t.srtt + r < 8 * t'.srtt + 8
      && 4 * t'.rttvar <= 3 * t.rttvar + d < 4 * t'.rttvar + 4
      && 8 * Distance(t'.srtt, r) <= 7 * d + 7
      && 8 * Distance(t'.srtt, t.srtt) <= d + 7
  {
  }

  /** Section 2.2 of RFC 6298: the first sample is taken as it is, with half of it as the variance. */
  lemma FirstSample(t: Rtt, r: nat)
    requires t.srtt == 0
    ensures var t' := Sample(t, r); t'.srtt == r && 2 * t'.rttvar <= r < 2 * t'.rttvar + 2
  {
  }

  /** The timeout is the least that covers a second, the clock's granularity and four variances. */
  ghost predicate Covers(t: Rtt) {
    && t.rto >= ONE_SECOND && t.rto >= t.srtt + UDX_CLOCK_GRANULARITY && t.rto >= t.srtt + 4 * t.rttvar
    && (t.rto == ONE_SECOND || t.rto == t.srtt + UDX_CLOCK_GRANULARITY || t.rto == t.srtt + 4 * t.rttvar)
  }

  lemma SampleCovers(t: Rtt, r: nat)
    ensures Covers(Sample(t, r))
  {
  }

  /** The spread the variance estimate can reach when samples lie in `[lo, hi]`. */
  function Spread(lo: nat, hi: nat): nat
    requires lo <= hi
  {
    Max(hi / 2, hi - lo)
  }

  ghost predicate Bounded(t: Rtt, lo: nat, hi: nat)
    requires lo <= hi
  {
    && lo <= t.srtt <= hi
    && t.rttvar <= Spread(lo, hi)
    && ONE_SECOND <= t.rto <= Max(ONE_SECOND, hi + Max(UDX_CLOCK_GRANULARITY, 4 * Spread(lo, hi)))
    && t.srtt <= t.rto
  }

  lemma SampleBounded(t: Rtt, r: nat, lo: nat, hi: nat)
    requires lo <= r <= hi
    requires t.srtt == 0 || Bounded(t, lo, hi)
    ensures Bounded(Sample(t, r), lo, hi)
  {
    if t.srtt != 0 {
      var delta := if r < t.srtt then t.srtt - r else r - t.srtt;
      assert delta <= hi - lo <= Spread(lo, hi);
      assert 3 * t.rttvar + delta <= 4 * Spread(lo, hi);
    }
  }

  /**
   Whatever the samples, as long as they stay in `[lo, hi]` the smoothed time stays there too,
   and the timeout is at least a second and at most what the extreme samples would give.
   */
  lemma {:induction false} EstimatesStayBounded(samples: seq<nat>, lo: nat, hi: nat)
    requires samples != [] && lo <= hi
    requires forall i :: 0 <= i < |samples| ==> lo <= samples[i] <= hi
    ensures Bounded(Absorb(FRESH, samples), lo, hi)
  {
    var init := samples[..|samples| - 1];
    if init != [] {
      EstimatesStayBounded(init, lo, hi);
    }
    SampleBounded(Absorb(FRESH, init), samples[|samples| - 1], lo, hi);
  }

  /** A link with one constant round-trip time is estimated exactly. */
  lemma ConstantLink(samples: seq<nat>, r: nat)
    requires samples != [] && forall i :: 0 <= i < |samples| ==> samples[i] == r
    ensures Absorb(FRESH, samples).srtt == r
    ensures Absorb(FRESH, samples).rto <= Max(ONE_SECOND, r + Max(UDX_CLOCK_GRANULARITY, 4 * (r / 2)))
  {
    EstimatesStayBounded(samples, r, r);
  }
}
