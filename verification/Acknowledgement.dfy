/**
 `poll_incoming` (src/stream.rs:484-560) looks only at the largest acknowledgement of a batch.
 That is the same as handling every one of them, in whatever order they arrive.
 */
module Acknowledgement {
  import opened Constants
  import opened Ledger
  import opened Rto
  import opened StreamModel
  import opened StreamInvariant

  lemma {:induction false} SamplesAgree(a: Packets, b: Packets, lo: nat, hi: nat, now: nat)
    requires forall k :: lo <= k < hi ==> (k in a <==> k in b) && (k in a ==> a[k] == b[k])
    ensures Samples(a, lo, hi, now) == Samples(b, lo, hi, now)
  {
    if lo < hi {
      SamplesAgree(a, b, lo, hi - 1, now);
    }
  }

  lemma {:induction false} SamplesSplit(out: Packets, lo: nat, mid: nat, hi: nat, now: nat)
    requires lo <= mid <= hi
    ensures Samples(out, lo, hi, now) == Samples(out, lo, mid, now) + Samples(out, mid, hi, now)
  {
    if mid < hi {
      SamplesSplit(out, lo, mid, hi - 1, now);
    }
  }

  lemma TotalSplitOff(m: Measure, out: Packets, lo: nat, mid: nat, hi: nat)
    requires lo <= mid <= hi
    ensures Total(m, out, lo, hi) == Total(m, out, lo, mid) + Total(m, Without(out, lo, mid), mid, hi)
  {
    TotalSplit(m, out, lo, mid, hi);
    TotalAgree(m, out, Without(out, lo, mid), mid, hi);
  }

  /** Two adjacent retirements, one after the other, are one. */
  lemma RetireTwice(snd: Sender, lo: nat, mid: nat, hi: nat, now: nat)
    requires lo <= mid <= hi
    ensures Retire(Retire(snd, lo, mid, now), mid, hi, now) == Retire(snd, lo, hi, now)
  {
    var out := snd.outgoing;
    assert Without(Without(out, lo, mid), mid, hi) == Without(out, lo, hi);
    TotalSplitOff(InFlight, out, lo, mid, hi);
    TotalSplitOff(Count, out, lo, mid, hi);
    TotalSplitOff(Body, out, lo, mid, hi);
    SamplesSplit(out, lo, mid, hi, now);
    SamplesAgree(out, Without(out, lo, mid), mid, hi, now);
    AbsorbConcat(snd.rtt, Samples(out, lo, mid, now), Samples(out, mid, hi, now));
  }

  /** Handling two acknowledgements leaves the whole stream as handling the larger one does. */
  lemma AckTwice(s: State, a: nat, b: nat, now: nat)
    ensures HandleAck(HandleAck(s, a, now), b, now) == HandleAck(s, Max(a, b), now)
  {
    var ra := s.snd.remoteAcked;
    if ra < a < b {
      RetireTwice(s.snd, ra, a, b, now);
      var one := HandleAck(s, a, now);
      var both := Retire(s.snd, ra, b, now).(remoteAcked := b);
      assert Retire(one.snd, a, b, now).(remoteAcked := b) == both;
      assert both.inflight <= one.snd.inflight;
    }
  }

  function HandleEach(s: State, acks: seq<nat>, now: nat): State {
    if acks == [] then s else HandleAck(HandleEach(s, acks[..|acks| - 1], now), acks[|acks| - 1], now)
  }

  function Largest(acks: seq<nat>): nat {
    if acks == [] then 0 else Max(Largest(acks[..|acks| - 1]), acks[|acks| - 1])
  }

  /** Any number of acknowledgements, in any order and with any repetition. */
  lemma {:induction false} LargestAckSuffices(s: State, acks: seq<nat>, now: nat)
    ensures HandleEach(s, acks, now) == HandleAck(s, Largest(acks), now)
  {
    hide HandleAck;
    if acks == [] {
      ZeroAck(s, now);
    } else {
      LargestAckSuffices(s, acks[..|acks| - 1], now);
      AckTwice(s, Largest(acks[..|acks| - 1]), acks[|acks| - 1], now);
    }
  }

  lemma ZeroAck(s: State, now: nat)
    ensures HandleAck(s, 0, now) == s
  {
  }

  // ----- whole batches of packets -----

  /** Handling a batch packet by packet, taking each packet's acknowledgement at once. */
  function OneByOne(s: State, batch: seq<Frame>, now: nat): State {
    if batch == [] then s
    else Received(OneByOne(s, batch[..|batch| - 1], now), [batch[|batch| - 1]], now)
  }

  /** The two senders differ at most in their congestion window. */
  predicate SameButWindow(x: Sender, y: Sender) {
    x == y.(cwnd := x.cwnd)
  }

  lemma AckIgnoresWindow(x: State, y: State, ack: nat, now: nat)
    requires SameButWindow(x.snd, y.snd)
    ensures SameButWindow(HandleAck(x, ack, now).snd, HandleAck(y, ack, now).snd)
  {
  }

  function AcksOf(batch: seq<Frame>): (acks: seq<nat>)
    ensures |acks| == |batch|
  {
    seq(|batch|, i requires 0 <= i < |batch| => batch[i].header.ack)
  }

  lemma ReceivedSingle(s: State, f: Frame, now: nat)
    requires NoSack(f)
    ensures SameButWindow(Received(s, [f], now).snd, HandleAck(s, f.header.ack, now).snd)
  {
    var handled := HandleIncoming(s, f, now);
    assert HandleAll(s, [f], now) == HandleAll(handled, [], now) == handled;
    assert MaxAck([f]) == f.header.ack;
    HandleIncomingFrame(s, f, now);
    AckIgnoresWindow(handled, s, f.header.ack, now);
  }

  lemma {:induction false} OneByOneAcks(s: State, batch: seq<Frame>, now: nat)
    requires forall i :: 0 <= i < |batch| ==> NoSack(batch[i])
    ensures SameButWindow(OneByOne(s, batch, now).snd, HandleEach(s, AcksOf(batch), now).snd)
  {
    hide HandleAck, Received;
    if batch != [] {
      var init, last := batch[..|batch| - 1], batch[|batch| - 1];
      OneByOneAcks(s, init, now);
      ReceivedSingle(OneByOne(s, init, now), last, now);
      assert AcksOf(batch)[..|batch| - 1] == AcksOf(init);
      AckIgnoresWindow(OneByOne(s, init, now), HandleEach(s, AcksOf(init), now), last.header.ack, now);
    }
  }

  lemma {:induction false} MaxAckIsLargest(batch: seq<Frame>)
    ensures MaxAck(batch) == Largest(AcksOf(batch))
  {
    if batch != [] {
      MaxAckIsLargest(batch[..|batch| - 1]);
      assert AcksOf(batch)[..|batch| - 1] == AcksOf(batch[..|batch| - 1]);
    }
  }

  /**
   A batch without SACKs leaves the sender, its acknowledged point, its outstanding packets, its
   byte counts, statistics and timing estimates, as handling the packets one at a time would;
   only the congestion window may differ.
   */
  lemma BatchRefinesOneByOne(s: State, batch: seq<Frame>, now: nat)
    requires forall i :: 0 <= i < |batch| ==> NoSack(batch[i])
    ensures SameButWindow(Received(s, batch, now).snd, OneByOne(s, batch, now).snd)
  {
    HandleAllFrame(s, batch, now);
    AckIgnoresWindow(HandleAll(s, batch, now), s, MaxAck(batch), now);
    hide HandleAck, HandleAll;
    MaxAckIsLargest(batch);
    LargestAckSuffices(s, AcksOf(batch), now);
    OneByOneAcks(s, batch, now);
  }
}
