/**
 The timing estimates of a stream over whole runs (src/stream.rs:562-591): they are the estimator
 applied to the round-trip times taken in the run, in order, and so are bounded by them.
 */
module Estimates {
  import opened Constants
  import opened Wire
  import opened Ledger
  import opened Rto
  import opened StreamModel
  import opened StreamInvariant

  /** The samples that SACK blocks give. */
  function BlockSamples(snd: Sender, blocks: seq<(nat, nat)>, now: nat): seq<nat>
    decreases |blocks|
  {
    if blocks == [] then []
    else
      Samples(snd.outgoing, blocks[0].0, blocks[0].1, now)
      + BlockSamples(Retire(snd, blocks[0].0, blocks[0].1, now), blocks[1..], now)
  }

  function FrameSamples(s: State, f: Frame, now: nat): seq<nat> {
    if HasType(f.header.typ, UDX_HEADER_SACK) then BlockSamples(s.snd, SackBlocks(f.body, 0), now) else []
  }

  function BatchSamples(s: State, batch: seq<Frame>, now: nat): seq<nat>
    decreases |batch|
  {
    if batch == [] then []
    else FrameSamples(s, batch[0], now) + BatchSamples(HandleIncoming(s, batch[0], now), batch[1..], now)
  }

  /** The samples that one action gives: those of SACKs, then those of the largest acknowledgement. */
  function ActSamples(s: State, a: Action): seq<nat> {
    var awake := s.(driveWaker := false);
    if !a.DriveOnce? || s.finished || ClosedAndDrained(awake) then []
    else
      var all := HandleAll(awake, a.batch, a.now);
      BatchSamples(awake, a.batch, a.now)
      + if a.hungUp then [] else Samples(all.snd.outgoing, all.snd.remoteAcked, MaxAck(a.batch), a.now)
  }

  /** The round-trip times taken in a run, in order. */
  function RunSamples(s: State, acts: seq<Action>): seq<nat> {
    if acts == [] then []
    else
      var init := acts[..|acts| - 1];
      RunSamples(s, init) + ActSamples(Run(s, init), acts[|acts| - 1])
  }

  /** A sample is the time since an acknowledged packet, lost once, was handed to the kernel. */
  lemma {:induction false} SampleIsRoundTrip(out: Packets, lo: nat, hi: nat, now: nat, i: nat) returns (k: nat)
    requires i < |Samples(out, lo, hi, now)|
    ensures lo <= k < hi && k in out && out[k].sentAt.Some? && out[k].transmits == 1
    ensures var at := out[k].sentAt.value; Samples(out, lo, hi, now)[i] == if at <= now then now - at else 0
  {
    if i < |Samples(out, lo, hi - 1, now)| {
      k := SampleIsRoundTrip(out, lo, hi - 1, now, i);
    } else {
      k := hi - 1;
    }
  }

  /** The outstanding packets of `[lo, hi)` that are sampled when they are acknowledged. */
  ghost function Sampled(out: Packets, lo: nat, hi: nat): set<nat> {
    set k | k in out && lo <= k < hi && out[k].sentAt.Some? && out[k].transmits == 1
  }

  lemma {:induction false} SamplesCount(out: Packets, lo: nat, hi: nat, now: nat)
    ensures |Samples(out, lo, hi, now)| == |Sampled(out, lo, hi)|
  {
    if lo >= hi {
      assert Sampled(out, lo, hi) == {};
    } else {
      SamplesCount(out, lo, hi - 1, now);
      var before, all := Sampled(out, lo, hi - 1), Sampled(out, lo, hi);
      if hi - 1 in all {
        assert all == before + {hi - 1};
      } else {
        assert all == before;
      }
    }
  }

  /**
   Every packet that was stamped and lost once gives one sample, in order of sequence numbers: the
   one of `k` comes after those of the packets below it.
   */
  lemma {:induction false} EachIsSampled(out: Packets, lo: nat, hi: nat, now: nat, k: nat)
    requires k in Sampled(out, lo, hi)
    ensures var i := |Sampled(out, lo, k)|;
      i < |Samples(out, lo, hi, now)| && Samples(out, lo, hi, now)[i] + Min(out[k].sentAt.value, now) == now
  {
    SamplesCount(out, lo, hi - 1, now);
    if k < hi - 1 {
      EachIsSampled(out, lo, hi - 1, now, k);
    }
  }

  lemma {:induction false} BlocksAbsorb(snd: Sender, blocks: seq<(nat, nat)>, now: nat)
    ensures RetireBlocks(snd, blocks, now).rtt == Absorb(snd.rtt, BlockSamples(snd, blocks, now))
    decreases |blocks|
  {
    hide Samples;
    if blocks != [] {
      var next := Retire(snd, blocks[0].0, blocks[0].1, now);
      BlocksAbsorb(next, blocks[1..], now);
      var first := Samples(snd.outgoing, blocks[0].0, blocks[0].1, now);
      AbsorbConcat(snd.rtt, first, BlockSamples(next, blocks[1..], now));
    }
  }

  lemma IncomingAbsorbs(s: State, f: Frame, now: nat)
    ensures HandleIncoming(s, f, now).snd.rtt == Absorb(s.snd.rtt, FrameSamples(s, f, now))
  {
    hide HandleIncoming, RetireBlocks, SackBlocks, BlockSamples;
    IncomingSender(s, f, now);
    BlocksAbsorb(s.snd, SackBlocks(f.body, 0), now);
  }

  lemma {:induction false} BatchAbsorbs(s: State, batch: seq<Frame>, now: nat)
    ensures HandleAll(s, batch, now).snd.rtt == Absorb(s.snd.rtt, BatchSamples(s, batch, now))
    decreases |batch|
  {
    hide HandleIncoming, FrameSamples;
    if batch != [] {
      var next := HandleIncoming(s, batch[0], now);
      IncomingAbsorbs(s, batch[0], now);
      BatchAbsorbs(next, batch[1..], now);
      AbsorbConcat(s.snd.rtt, FrameSamples(s, batch[0], now), BatchSamples(next, batch[1..], now));
    }
  }

  lemma AckAbsorbs(s: State, ack: nat, now: nat)
    ensures HandleAck(s, ack, now).snd.rtt
         == Absorb(s.snd.rtt, Samples(s.snd.outgoing, s.snd.remoteAcked, ack, now))
  {
    hide Total;
    assert ack <= s.snd.remoteAcked ==> Samples(s.snd.outgoing, s.snd.remoteAcked, ack, now) == [];
  }

  lemma RetransmitKeepsRtt(s: State, timer: bool, now: nat)
    ensures Retransmit(s, timer, now).s.snd.rtt == s.snd.rtt
  {
    hide FirstExhausted, FlushStop, WaitingFrames, Total;
  }

  lemma {:induction false} ChunksKeepRtt(s: State, buf: seq<Byte>)
    ensures SendChunks(s, buf).0.snd.rtt == s.snd.rtt
    decreases |buf|
  {
    var len := Min(|buf|, UDX_MAX_DATA_SIZE);
    if buf != [] && s.snd.inflight + len <= s.snd.cwnd {
      ChunksKeepRtt(SendData(s, buf[..len]), buf[len..]);
    }
  }

  lemma PollAbsorbs(s: State, a: Action)
    requires a.DriveOnce?
    ensures Apply(s, a).snd.rtt == Absorb(s.snd.rtt, ActSamples(s, a))
  {
    hide HandleAll, HandleAck, Retransmit, Samples, BatchSamples, Absorb;
    NothingAbsorbed(s.snd.rtt);
    var awake := s.(driveWaker := false);
    var all := HandleAll(awake, a.batch, a.now);
    var acked := Samples(all.snd.outgoing, all.snd.remoteAcked, MaxAck(a.batch), a.now);
    BatchAbsorbs(awake, a.batch, a.now);
    AckAbsorbs(all, MaxAck(a.batch), a.now);
    RetransmitKeepsRtt(Received(awake, a.batch, a.now), a.timer, a.now);
    AbsorbConcat(s.snd.rtt, BatchSamples(awake, a.batch, a.now), acked);
    assert BatchSamples(awake, a.batch, a.now) + [] == BatchSamples(awake, a.batch, a.now);
  }

  lemma NothingAbsorbed(t: Rtt)
    ensures Absorb(t, []) == t
  {
  }

  lemma StepAbsorbs(s: State, a: Action)
    ensures Apply(s, a).snd.rtt == Absorb(s.snd.rtt, ActSamples(s, a))
  {
    hide Drive, SendChunks, ReadNext, Absorb;
    NothingAbsorbed(s.snd.rtt);
    if a.DriveOnce? {
      PollAbsorbs(s, a);
    } else if a.Write? {
      ChunksKeepRtt(s, a.buf);
    }
  }

  /** The estimates of a stream are those of the round-trip times taken in its run. */
  lemma {:induction false} EstimatesAreSampled(remoteId: nat, acts: seq<Action>)
    ensures Run(Connect(remoteId), acts).snd.rtt == Absorb(FRESH, RunSamples(Connect(remoteId), acts))
  {
    hide Apply, ActSamples;
    if acts == [] {
      NothingAbsorbed(FRESH);
    } else {
      var s, init := Connect(remoteId), acts[..|acts| - 1];
      EstimatesAreSampled(remoteId, init);
      StepAbsorbs(Run(s, init), acts[|acts| - 1]);
      AbsorbConcat(FRESH, RunSamples(s, init), ActSamples(Run(s, init), acts[|acts| - 1]));
    }
  }

  /** In every run, the estimates stay within what the round-trip times taken so far allow. */
  lemma RunEstimatesBounded(remoteId: nat, acts: seq<Action>, lo: nat, hi: nat)
    requires lo <= hi && RunSamples(Connect(remoteId), acts) != []
    requires forall r :: r in RunSamples(Connect(remoteId), acts) ==> lo <= r <= hi
    ensures Bounded(Run(Connect(remoteId), acts).snd.rtt, lo, hi)
  {
    hide Run, RunSamples, Bounded;
    EstimatesAreSampled(remoteId, acts);
    var samples := RunSamples(Connect(remoteId), acts);
    assert forall i :: 0 <= i < |samples| ==> samples[i] in samples;
    EstimatesStayBounded(samples, lo, hi);
  }

  /** In every run, samples or not, the timeout is the least that covers what the estimates ask for. */
  lemma TimeoutCovers(remoteId: nat, acts: seq<Action>)
    ensures Covers(Run(Connect(remoteId), acts).snd.rtt)
  {
    hide Run, RunSamples, Sample;
    EstimatesAreSampled(remoteId, acts);
    var samples := RunSamples(Connect(remoteId), acts);
    if samples != [] {
      SampleCovers(Absorb(FRESH, samples[..|samples| - 1]), samples[|samples| - 1]);
    }
  }

  lemma {:induction false} AbsorbFloor(t: Rtt, samples: seq<nat>)
    requires t.rto >= ONE_SECOND
    ensures Absorb(t, samples).rto >= ONE_SECOND
  {
    if samples != [] {
      AbsorbFloor(t, samples[..|samples| - 1]);
    }
  }

  /** In every run the timeout is at least a second. */
  lemma RtoFloor(remoteId: nat, acts: seq<Action>)
    ensures Run(Connect(remoteId), acts).snd.rtt.rto >= ONE_SECOND
  {
    hide Run, RunSamples;
    EstimatesAreSampled(remoteId, acts);
    AbsorbFloor(FRESH, RunSamples(Connect(remoteId), acts));
  }
}
