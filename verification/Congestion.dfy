/** Congestion-window growth (src/stream.rs:697-703), after section 3.1 of RFC 5681. */
module Congestion {
  import opened Constants
  import opened Arithmetic

  /** A window is never empty: growth divides by it. */
  type Window = w: int | 0 < w witness 1

  /** The window after one acknowledgement that advances the stream. */
  function Grow(cwnd: Window): (c: Window)
    ensures c > cwnd
  {
    if cwnd < SSTHRESH then cwnd + UDX_MTU
    else cwnd + Max(UDX_MTU * UDX_MTU / cwnd, 1)
  }

  function GrowN(cwnd: Window, n: nat): (c: Window)
    ensures c >= cwnd + n
  {
    if n == 0 then cwnd else Grow(GrowN(cwnd, n - 1))
  }

  /** In slow start every acknowledgement that advances the stream adds a full segment. */
  lemma {:induction false} SlowStart(cwnd: Window, n: nat)
    requires n > 0 ==> cwnd + (n - 1) * UDX_MTU < SSTHRESH
    ensures GrowN(cwnd, n) == cwnd + n * UDX_MTU
  {
    if n > 0 {
      SlowStart(cwnd, n - 1);
    }
  }

  /**
   In congestion avoidance the window grows with each acknowledgement by the whole part of a segment
   squared over the window, and by one byte when that is nothing.
   */
  lemma AvoidanceRate(cwnd: Window)
    requires cwnd >= SSTHRESH
    ensures var d := Grow(cwnd) - cwnd;
      if cwnd <= UDX_MTU * UDX_MTU then cwnd * d <= UDX_MTU * UDX_MTU < cwnd * (d + 1) else d == 1
  {
    var q := UDX_MTU * UDX_MTU / cwnd;
    if cwnd <= UDX_MTU * UDX_MTU {
      BelowQuotient(UDX_MTU * UDX_MTU, cwnd, 1);
      assert UDX_MTU * UDX_MTU == cwnd * q + UDX_MTU * UDX_MTU % cwnd;
      assert cwnd * (q + 1) == cwnd * q + cwnd;
    }
  }

  lemma QuotientAntitone(x: nat, a: nat, b: nat)
    requires 0 < a <= b
    ensures x / b <= x / a
  {
    MulMonotone(a, b, x / b);
    BelowQuotient(x, a, x / b);
  }

  lemma ProductBound(c: nat, q: nat, w: nat, n: nat, m: nat)
    requires n <= w && w * m <= c && c * q <= m * m && m > 0
    ensures n * q <= m
  {
    MulMonotone(n, w, q);
    MulMonotone(w * m, c, q);
    assert (w * m) * q == m * (w * q);
    assert m * (w * q) <= m * m;
    assert m * (w * q - m) <= 0;
  }

  lemma {:induction false} LinearCap(c: nat, n: nat)
    requires SSTHRESH <= c <= UDX_MTU * UDX_MTU
    ensures GrowN(c, n) <= c + n * (UDX_MTU * UDX_MTU / c)
  {
    var q := UDX_MTU * UDX_MTU / c;
    if n > 0 {
      LinearCap(c, n - 1);
      var now := GrowN(c, n - 1);
      QuotientAntitone(UDX_MTU * UDX_MTU, c, now);
      QuotientAntitone(UDX_MTU * UDX_MTU, c, UDX_MTU * UDX_MTU);
      assert Grow(now) <= now + q;
      assert n * q == (n - 1) * q + q;
    }
  }

  /**
   In congestion avoidance one window's worth of acknowledgements grows the window by at
   least a byte each and by at most one full-sized segment altogether.
   */
  lemma OneWindowGrowsOneSegment(c: nat, n: nat)
    requires SSTHRESH <= c <= UDX_MTU * UDX_MTU
    requires n <= c / UDX_MTU
    ensures c + n <= GrowN(c, n) <= c + UDX_MTU
  {
    LinearCap(c, n);
    ProductBound(c, UDX_MTU * UDX_MTU / c, c / UDX_MTU, n, UDX_MTU);
  }

  /** It also grows as fast as the window at the end of it allows: nearly one segment for a full window. */
  lemma {:induction false} OneWindowGrowsEnough(c: nat, n: nat)
    requires SSTHRESH <= c <= UDX_MTU * UDX_MTU
    requires n <= c / UDX_MTU
    ensures GrowN(c, n) >= c + n * (UDX_MTU * UDX_MTU / (c + UDX_MTU))
  {
    if n > 0 {
      OneWindowGrowsEnough(c, n - 1);
      OneWindowGrowsOneSegment(c, n - 1);
      var now, q := GrowN(c, n - 1), UDX_MTU * UDX_MTU / (c + UDX_MTU);
      QuotientAntitone(UDX_MTU * UDX_MTU, now, c + UDX_MTU);
      assert Grow(now) >= now + q;
      assert n * q == (n - 1) * q + q;
    }
  }
}
