/**
 Outstanding packets and the sums kept over them. `inflight` and the two `stats` counters
 of a stream are sums over the `outgoing` map that depend on each packet's flags; here the
 sums are taken over ranges of sequence numbers, the order in which every loop of
 src/stream.rs visits the packets.
 */
module Ledger {
  import opened Constants
  import opened Wire

  /**
   A data packet (src/packet.rs:189-197) as a value. `queued` is history: how often the packet
   has been put on the send queue.
   */
  datatype OutPacket = OutPacket(
    header: Header, body: seq<Byte>, waiting: bool, transmits: nat, sentAt: Option<nat>, queued: nat)
  {
    function Len(): nat {
      UDX_HEADER_SIZE + |body|
    }

    function ToFrame(): Frame {
      Frame(header, body)
    }
  }

  /** A packet as the peer sees it. */
  datatype Frame = Frame(header: Header, body: seq<Byte>)

  type Packets = map<nat, OutPacket>

  datatype Measure = InFlight | Waiting | Body | Count

  function Weigh(m: Measure, p: OutPacket): nat {
    match m
    case InFlight => if p.waiting then 0 else p.Len()
    case Waiting => if p.waiting then p.Len() else 0
    case Body => |p.body|
    case Count => 1
  }

  function WeightAt(m: Measure, out: Packets, k: nat): nat {
    if k in out then Weigh(m, out[k]) else 0
  }

  /** The sum over the packets numbered `lo` up to but excluding `hi`. */
  function Total(m: Measure, out: Packets, lo: nat, hi: nat): nat {
    if lo >= hi then 0 else Total(m, out, lo, hi - 1) + WeightAt(m, out, hi - 1)
  }

  lemma {:induction false} TotalSplit(m: Measure, out: Packets, lo: nat, mid: nat, hi: nat)
    requires lo <= mid <= hi
    ensures Total(m, out, lo, hi) == Total(m, out, lo, mid) + Total(m, out, mid, hi)
  {
    if mid < hi {
      TotalSplit(m, out, lo, mid, hi - 1);
    }
  }

  lemma {:induction false} TotalAgree(m: Measure, a: Packets, b: Packets, lo: nat, hi: nat)
    requires forall k :: lo <= k < hi ==> WeightAt(m, a, k) == WeightAt(m, b, k)
    ensures Total(m, a, lo, hi) == Total(m, b, lo, hi)
  {
    if lo < hi {
      TotalAgree(m, a, b, lo, hi - 1);
      assert WeightAt(m, a, hi - 1) == WeightAt(m, b, hi - 1);
    }
  }

  lemma {:induction false} TotalZero(m: Measure, out: Packets, lo: nat, hi: nat)
    requires forall k :: lo <= k < hi ==> WeightAt(m, out, k) == 0
    ensures Total(m, out, lo, hi) == 0
  {
    if lo < hi {
      TotalZero(m, out, lo, hi - 1);
      assert WeightAt(m, out, hi - 1) == 0;
    }
  }

  /** Beyond the last packet there is nothing to sum. */
  lemma {:induction false} TotalTrim(m: Measure, out: Packets, lo: nat, hi: nat, n: nat)
    requires forall k :: k in out ==> k < n
    ensures Total(m, out, lo, hi) == Total(m, out, lo, Min(hi, n))
  {
    if lo < hi && n < hi {
      TotalTrim(m, out, lo, hi - 1, n);
    }
  }

  /** Two maps that differ only inside `[lo, hi)` have sums that differ only there. */
  lemma TotalSetAside(m: Measure, a: Packets, b: Packets, lo: nat, hi: nat, n: nat)
    requires lo <= hi <= n
    requires forall k: nat :: k < n && !(lo <= k < hi) ==> WeightAt(m, a, k) == WeightAt(m, b, k)
    ensures Total(m, a, 0, n) - Total(m, a, lo, hi) == Total(m, b, 0, n) - Total(m, b, lo, hi)
  {
    TotalSplit(m, a, 0, lo, n);
    TotalSplit(m, a, lo, hi, n);
    TotalSplit(m, b, 0, lo, n);
    TotalSplit(m, b, lo, hi, n);
    TotalAgree(m, a, b, 0, lo);
    TotalAgree(m, a, b, hi, n);
  }

  /** What stays when the packets numbered `[lo, hi)` are taken out. */
  function Without(out: Packets, lo: nat, hi: nat): (r: Packets)
    ensures forall k :: k in r <==> k in out && !(lo <= k < hi)
    ensures forall k :: k in r ==> r[k] == out[k]
  {
    map k | k in out && !(lo <= k < hi) :: out[k]
  }

  lemma TotalWithout(m: Measure, out: Packets, lo: nat, hi: nat, n: nat)
    requires forall k :: k in out ==> k < n
    ensures Total(m, Without(out, lo, hi), 0, n) == Total(m, out, 0, n) - Total(m, out, lo, hi)
  {
    var rest, h := Without(out, lo, hi), Min(hi, n);
    TotalTrim(m, out, lo, hi, n);
    if lo >= h {
      assert Total(m, out, lo, h) == 0;
      TotalAgree(m, out, rest, 0, n);
    } else {
      TotalSetAside(m, out, rest, lo, h, n);
      TotalZero(m, rest, lo, h);
    }
  }

  lemma TotalWithin(m: Measure, out: Packets, lo: nat, hi: nat, n: nat)
    requires hi <= n
    ensures Total(m, out, lo, hi) <= Total(m, out, 0, n)
  {
    if lo < hi {
      TotalSplit(m, out, 0, lo, n);
      TotalSplit(m, out, lo, hi, n);
    }
  }

  lemma {:induction false} CountIsSize(out: Packets, n: nat)
    requires forall k :: k in out ==> k < n
    ensures Total(Count, out, 0, n) == |out|
  {
    if n == 0 {
      assert out.Keys == {};
    } else if n - 1 in out {
      var rest := out - {n - 1};
      CountIsSize(rest, n - 1);
      assert out.Keys == rest.Keys + {n - 1};
      TotalAgree(Count, out, rest, 0, n - 1);
    } else {
      CountIsSize(out, n - 1);
    }
  }
}
