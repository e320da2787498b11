/**
 The congestion window over whole runs (src/stream.rs:367-408, 429-434, 697-703, 745-760). The
 window check of `send_data_packet` counts a packet without its header and the accounting
 counts it with, so the bound a run keeps is the window plus one header.
 */
module Window {
  import opened Constants
  import opened Ledger
  import opened Congestion
  import opened StreamModel
  import opened StreamInvariant
  import opened Retransmission

  ghost predicate InWindow(snd: Sender) {
    && KeysInRange(snd) && snd.remoteAcked <= snd.nextSeq
    && snd.inflight <= snd.cwnd + UDX_HEADER_SIZE
  }

  /** The peer acknowledges only what was sent. */
  predicate SoundAcks(a: Action, nextSeq: nat) {
    a.DriveOnce? ==> forall i :: 0 <= i < |a.batch| ==> a.batch[i].header.ack <= nextSeq
  }

  lemma {:induction false} WriteStaysInWindow(s: State, buf: seq<Byte>)
    requires InWindow(s.snd)
    ensures InWindow(SendChunks(s, buf).0.snd)
    decreases |buf|
  {
    var len := Min(|buf|, UDX_MAX_DATA_SIZE);
    if buf != [] && s.snd.inflight + len <= s.snd.cwnd {
      WriteStaysInWindow(SendData(s, buf[..len]), buf[len..]);
    }
  }

  lemma {:induction false} SacksStayInWindow(snd: Sender, blocks: seq<(nat, nat)>, now: nat)
    requires InWindow(snd)
    ensures InWindow(RetireBlocks(snd, blocks, now))
    decreases |blocks|
  {
    if blocks != [] {
      SacksStayInWindow(Retire(snd, blocks[0].0, blocks[0].1, now), blocks[1..], now);
    }
  }

  lemma IncomingStaysInWindow(s: State, f: Frame, now: nat)
    requires InWindow(s.snd)
    ensures InWindow(HandleIncoming(s, f, now).snd)
  {
    hide RetireBlocks, SackBlocks, HandleIncoming;
    SacksStayInWindow(s.snd, SackBlocks(f.body, 0), now);
    IncomingSender(s, f, now);
  }

  lemma {:induction false} BatchStaysInWindow(s: State, batch: seq<Frame>, now: nat)
    requires InWindow(s.snd)
    ensures InWindow(HandleAll(s, batch, now).snd)
    decreases |batch|
  {
    if batch != [] {
      IncomingStaysInWindow(s, batch[0], now);
      BatchStaysInWindow(HandleIncoming(s, batch[0], now), batch[1..], now);
    }
  }

  lemma {:induction false} FlushFits(out: Packets, lo: nat, hi: nat, inflight: int, cwnd: nat)
    requires lo <= hi
    ensures inflight + Total(Waiting, out, lo, FlushStop(out, lo, hi, inflight, cwnd))
         <= if inflight < cwnd then cwnd else inflight
    decreases hi - lo
  {
    if lo < hi && !(lo in out && out[lo].waiting && inflight + out[lo].Len() > cwnd) {
      var w := WeightAt(Waiting, out, lo);
      FlushFits(out, lo + 1, hi, inflight + w, cwnd);
      FlushStopInside(out, lo + 1, hi, inflight + w, cwnd);
      TotalSplit(Waiting, out, lo, lo + 1, FlushStop(out, lo + 1, hi, inflight + w, cwnd));
      assert Total(Waiting, out, lo, lo + 1) == w;
    }
  }

  /** A timeout halves the window, and in the same step takes everything out of flight. */
  lemma RetransmitStaysInWindow(s: State, timer: bool, now: nat)
    requires SenderInv(s.snd) && InWindow(s.snd) && Retransmit(s, timer, now).outcome.Parked?
    ensures InWindow(Retransmit(s, timer, now).s.snd)
  {
    var (snd, ok) := CheckTimeouts(s.snd, timer);
    if Fires(s.snd, timer) {
      AllDueLost(s.snd.(cwnd := Max(UDX_MTU, s.snd.cwnd / 2)));
      NothingOutOfReach(s.snd);
    }
    assert InWindow(snd);
    FlushFits(snd.outgoing, snd.remoteAcked, snd.nextSeq, snd.inflight, snd.cwnd);
  }

  lemma RetransmitOutcome(s: State, timer: bool, now: nat)
    ensures var d := Retransmit(s, timer, now); d.outcome.Parked? || d.outcome == Aborted(TimedOut)
  {
  }

  lemma AckStaysInWindow(s: State, ack: nat, now: nat)
    requires InWindow(s.snd) && ack <= s.snd.nextSeq
    ensures InWindow(HandleAck(s, ack, now).snd)
  {
  }

  lemma ReceivedInWindow(s: State, a: Action)
    requires InWindow(s.snd) && a.DriveOnce? && SoundAcks(a, s.snd.nextSeq)
    ensures var awake := s.(driveWaker := false);
      && InWindow(HandleAll(awake, a.batch, a.now).snd)
      && InWindow(Received(awake, a.batch, a.now).snd)
  {
    hide HandleAll, HandleAck, InWindow;
    var awake := s.(driveWaker := false);
    BatchStaysInWindow(awake, a.batch, a.now);
    HandleAllFrame(awake, a.batch, a.now);
    MaxAckBelow(a.batch, s.snd.nextSeq);
    AckStaysInWindow(HandleAll(awake, a.batch, a.now), MaxAck(a.batch), a.now);
  }

  lemma PollStaysInWindow(s: State, a: Action)
    requires Inv(s) && InWindow(s.snd) && a.DriveOnce? && SoundAcks(a, s.snd.nextSeq) && !GivesUp(s, a)
    ensures InWindow(Apply(s, a).snd)
  {
    hide HandleAll, HandleAck, Retransmit, InWindow;
    var awake := s.(driveWaker := false);
    ReceivedInWindow(s, a);
    RetransmitOutcome(Received(awake, a.batch, a.now), a.timer, a.now);
    if !s.finished && !ClosedAndDrained(awake) && !a.hungUp {
      ReceivedInv(awake, a.batch, a.now);
      RetransmitStaysInWindow(Received(awake, a.batch, a.now), a.timer, a.now);
    }
  }

  lemma StepStaysInWindow(s: State, a: Action)
    requires Inv(s) && InWindow(s.snd) && SoundAcks(a, s.snd.nextSeq) && !GivesUp(s, a)
    ensures InWindow(Apply(s, a).snd)
  {
    if a.DriveOnce? {
      PollStaysInWindow(s, a);
    } else {
      hide Drive, Inv;
      if a.Write? {
        WriteStaysInWindow(s, a.buf);
      }
    }
  }

  ghost predicate SoundRun(s: State, acts: seq<Action>) {
    acts != [] ==>
      && SoundRun(s, acts[..|acts| - 1])
      && SoundAcks(acts[|acts| - 1], Run(s, acts[..|acts| - 1]).snd.nextSeq)
  }

  /**
   With a peer that acknowledges only what was sent, every run that has not given up keeps the
   window at least one segment wide and the bytes in flight within it, one header aside.
   */
  lemma {:induction false} WindowSafety(remoteId: nat, acts: seq<Action>)
    requires SoundRun(Connect(remoteId), acts) && NeverGivesUp(Connect(remoteId), acts)
    ensures var snd := Run(Connect(remoteId), acts).snd; snd.cwnd >= UDX_MTU && InWindow(snd)
  {
    hide Inv, InWindow, Apply;
    if acts == [] {
      StartsInWindow(remoteId);
    } else {
      var init := acts[..|acts| - 1];
      WindowSafety(remoteId, init);
      InvAlways(remoteId, init);
      StepStaysInWindow(Run(Connect(remoteId), init), acts[|acts| - 1]);
    }
    InvAlways(remoteId, acts);
    InvGivesWindow(Run(Connect(remoteId), acts));
  }

  lemma StartsInWindow(remoteId: nat)
    ensures InWindow(Connect(remoteId).snd)
  {
  }

  lemma InvGivesWindow(s: State)
    requires Inv(s)
    ensures s.snd.cwnd >= UDX_MTU
  {
  }

  // ----- whatever the peer acknowledges -----

  /** No packet that the timer looks at is in flight. */
  ghost predicate NoneDueInFlight(snd: Sender) {
    forall k :: k in snd.outgoing && snd.remoteAcked <= k ==> snd.outgoing[k].waiting
  }

  ghost predicate InReach(snd: Sender) {
    snd.inflight <= snd.cwnd + UDX_HEADER_SIZE || NoneDueInFlight(snd)
  }

  /** The bytes in flight are those out of reach and those of the packets the timer looks at. */
  lemma ReachSplits(snd: Sender)
    requires SenderInv(snd)
    ensures snd.inflight == OutOfReach(snd) + Total(InFlight, snd.outgoing, snd.remoteAcked, snd.nextSeq)
  {
    if snd.remoteAcked <= snd.nextSeq {
      TotalSplit(InFlight, snd.outgoing, 0, snd.remoteAcked, snd.nextSeq);
    } else {
      TotalTrim(InFlight, snd.outgoing, 0, snd.remoteAcked, snd.nextSeq);
    }
  }

  lemma InReachBound(snd: Sender)
    requires SenderInv(snd) && InReach(snd)
    ensures snd.inflight <= Max(snd.cwnd + UDX_HEADER_SIZE, OutOfReach(snd))
  {
    ReachSplits(snd);
    if NoneDueInFlight(snd) {
      TotalZero(InFlight, snd.outgoing, snd.remoteAcked, snd.nextSeq);
    }
  }

  /** Fewer packets, a higher `remote_acked` or a wider window keep it. */
  lemma LessInReach(snd: Sender, snd': Sender)
    requires InReach(snd) && snd'.inflight <= snd.inflight && snd.cwnd <= snd'.cwnd
    requires snd.remoteAcked <= snd'.remoteAcked
    requires forall k :: k in snd'.outgoing ==>
      k in snd.outgoing && snd'.outgoing[k].waiting == snd.outgoing[k].waiting
    ensures InReach(snd')
  {
  }

  lemma {:induction false} WriteInReach(s: State, buf: seq<Byte>)
    requires InReach(s.snd)
    ensures InReach(SendChunks(s, buf).0.snd)
    decreases |buf|
  {
    hide NoneDueInFlight;
    var len := Min(|buf|, UDX_MAX_DATA_SIZE);
    if buf != [] && s.snd.inflight + len <= s.snd.cwnd {
      WriteInReach(SendData(s, buf[..len]), buf[len..]);
    }
  }

  lemma {:induction false} BlocksInReach(snd: Sender, blocks: seq<(nat, nat)>, now: nat)
    requires InReach(snd)
    ensures InReach(RetireBlocks(snd, blocks, now))
    decreases |blocks|
  {
    hide InReach;
    if blocks != [] {
      var next := Retire(snd, blocks[0].0, blocks[0].1, now);
      LessInReach(snd, next);
      BlocksInReach(next, blocks[1..], now);
    }
  }

  lemma IncomingInReach(s: State, f: Frame, now: nat)
    requires InReach(s.snd)
    ensures InReach(HandleIncoming(s, f, now).snd)
  {
    hide RetireBlocks, SackBlocks, HandleIncoming, InReach;
    BlocksInReach(s.snd, SackBlocks(f.body, 0), now);
    IncomingSender(s, f, now);
    var snd := TakeSacks(CountRx(s), f, now).snd;
    LessInReach(snd, GrowWindow(snd, f.header.ack));
  }

  lemma {:induction false} BatchInReach(s: State, batch: seq<Frame>, now: nat)
    requires InReach(s.snd)
    ensures InReach(HandleAll(s, batch, now).snd)
    decreases |batch|
  {
    hide HandleIncoming, InReach;
    if batch != [] {
      IncomingInReach(s, batch[0], now);
      BatchInReach(HandleIncoming(s, batch[0], now), batch[1..], now);
    }
  }

  lemma AckInReach(s: State, ack: nat, now: nat)
    requires InReach(s.snd)
    ensures InReach(HandleAck(s, ack, now).snd)
  {
    hide InReach, Samples;
    LessInReach(s.snd, HandleAck(s, ack, now).snd);
  }

  lemma TimeoutInReach(snd: Sender, timer: bool)
    requires PacketsOk(snd) && InReach(snd) && CheckTimeouts(snd, timer).1
    ensures InReach(CheckTimeouts(snd, timer).0)
  {
    hide Total;
    BeforeFirstExhausted(snd.outgoing, snd.remoteAcked, snd.nextSeq);
  }

  /** A flush keeps to the window, and does nothing if the window is full already. */
  lemma FlushInReach(s: State)
    requires PacketsOk(s.snd) && InReach(s.snd)
    ensures InReach(Flush(s).snd)
  {
    var snd := s.snd;
    if snd.inflight <= snd.cwnd + UDX_HEADER_SIZE {
      FlushWithin(s);
    } else {
      forall k | k in snd.outgoing && snd.remoteAcked <= k ensures Flush(s).snd.outgoing[k].waiting {
        assert PacketOk(snd.outgoing[k], k, snd.log[k]);
        FlushIsExact(s, k);
      }
      FlushKeeps(s);
    }
  }

  lemma FlushKeeps(s: State)
    ensures var snd := Flush(s).snd;
      snd.outgoing.Keys == s.snd.outgoing.Keys && snd.remoteAcked == s.snd.remoteAcked
  {
    hide FlushStop, WaitingFrames, Total;
  }

  lemma FlushWithin(s: State)
    requires s.snd.inflight <= s.snd.cwnd + UDX_HEADER_SIZE
    ensures Flush(s).snd.inflight <= Flush(s).snd.cwnd + UDX_HEADER_SIZE
  {
    hide WaitingFrames;
    var snd := s.snd;
    if snd.remoteAcked <= snd.nextSeq {
      FlushFits(snd.outgoing, snd.remoteAcked, snd.nextSeq, snd.inflight, snd.cwnd);
    }
  }

  lemma RetransmitInReach(s: State, timer: bool, now: nat)
    requires SenderInv(s.snd) && InReach(s.snd) && CheckTimeouts(s.snd, timer).1
    ensures InReach(Retransmit(s, timer, now).s.snd)
  {
    hide CheckTimeouts, Flush, InReach, Conserved;
    TimeoutInReach(s.snd, timer);
    TimeoutInv(s.snd, timer);
    FlushInReach(CheckTimer(s, timer, now).0);
  }

  lemma PollInReach(s: State, a: Action)
    requires Inv(s) && InReach(s.snd) && a.DriveOnce? && !GivesUp(s, a)
    ensures InReach(Apply(s, a).snd)
  {
    hide HandleAll, HandleAck, InReach, CheckTimeouts, Flush, SenderInv, ReceiverInv;
    var awake := s.(driveWaker := false);
    BatchInReach(awake, a.batch, a.now);
    AckInReach(HandleAll(awake, a.batch, a.now), MaxAck(a.batch), a.now);
    ReceivedInv(awake, a.batch, a.now);
    var received := Received(awake, a.batch, a.now);
    if !s.finished && !ClosedAndDrained(awake) && !a.hungUp {
      RetransmitInReach(received, a.timer, a.now);
    }
  }

  lemma StepInReach(s: State, a: Action)
    requires Inv(s) && InReach(s.snd) && !GivesUp(s, a)
    ensures InReach(Apply(s, a).snd)
  {
    hide Inv, Drive, InReach, SendChunks, ReadNext;
    if a.DriveOnce? {
      PollInReach(s, a);
    } else if a.Write? {
      WriteInReach(s, a.buf);
    } else {
      LessInReach(s.snd, Apply(s, a).snd);
    }
  }

  /**
   With any peer, SACKs and acknowledgements of unsent packets included, every run that has not given
   up keeps the bytes in flight within the window, one header aside, unless they are all out of reach.
   */
  lemma {:induction false} WindowWithAnyPeer(remoteId: nat, acts: seq<Action>)
    requires NeverGivesUp(Connect(remoteId), acts)
    ensures var snd := Run(Connect(remoteId), acts).snd;
      InReach(snd) && snd.inflight <= Max(snd.cwnd + UDX_HEADER_SIZE, OutOfReach(snd))
  {
    hide SenderInv, ReceiverInv, Apply, GivesUp, InReach, OutOfReach;
    var s := Run(Connect(remoteId), acts);
    InvAlways(remoteId, acts);
    if acts == [] {
      StartsInReach(remoteId);
    } else {
      var init := acts[..|acts| - 1];
      WindowWithAnyPeer(remoteId, init);
      InvAlways(remoteId, init);
      StepInReach(Run(Connect(remoteId), init), acts[|acts| - 1]);
    }
    InReachBound(s.snd);
  }

  lemma StartsInReach(remoteId: nat)
    ensures InReach(Connect(remoteId).snd)
  {
  }

  // ----- growth over a batch -----

  /** How many packets of the batch acknowledge something new that was sent. */
  function Advancing(snd: Sender, batch: seq<Frame>): nat {
    if batch == [] then 0
    else (if snd.remoteAcked < batch[0].header.ack <= snd.nextSeq then 1 else 0) + Advancing(snd, batch[1..])
  }

  lemma {:induction false} GrowNShift(c: Window, n: nat)
    ensures GrowN(Grow(c), n) == GrowN(c, n + 1)
  {
    hide Grow;
    if n > 0 {
      GrowNShift(c, n - 1);
    }
  }

  lemma {:induction false} AdvancingDependsOnEnds(snd: Sender, snd': Sender, batch: seq<Frame>)
    requires snd'.remoteAcked == snd.remoteAcked && snd'.nextSeq == snd.nextSeq
    ensures Advancing(snd', batch) == Advancing(snd, batch)
  {
    if batch != [] {
      AdvancingDependsOnEnds(snd, snd', batch[1..]);
    }
  }

  lemma IncomingGrows(s: State, f: Frame, now: nat)
    ensures HandleIncoming(s, f, now).snd.cwnd
         == if s.snd.remoteAcked < f.header.ack <= s.snd.nextSeq then Grow(s.snd.cwnd) else s.snd.cwnd
  {
    TakeSacksFrame(CountRx(s), f, now);
    var stored := TakeData(TakeEnd(TakeSacks(CountRx(s), f, now), f), f);
    assert stored.snd == TakeSacks(CountRx(s), f, now).snd;
    assert HandleIncoming(s, f, now) == TakeAck(stored, f);
  }

  lemma {:induction false} BatchGrows(s: State, batch: seq<Frame>, now: nat)
    ensures HandleAll(s, batch, now).snd.cwnd == GrowN(s.snd.cwnd, Advancing(s.snd, batch))
    decreases |batch|
  {
    hide HandleIncoming, Grow;
    if batch != [] {
      var s1 := HandleIncoming(s, batch[0], now);
      IncomingGrows(s, batch[0], now);
      HandleIncomingFrame(s, batch[0], now);
      BatchGrows(s1, batch[1..], now);
      AdvancingDependsOnEnds(s.snd, s1.snd, batch[1..]);
      GrowNShift(s.snd.cwnd, Advancing(s.snd, batch[1..]));
    }
  }

  /** In congestion avoidance, one window of advancing acknowledgements adds at most one segment. */
  lemma BatchGrowsOneSegment(s: State, batch: seq<Frame>, now: nat)
    requires SSTHRESH <= s.snd.cwnd <= UDX_MTU * UDX_MTU
    requires Advancing(s.snd, batch) <= s.snd.cwnd / UDX_MTU
    ensures s.snd.cwnd + Advancing(s.snd, batch) <= HandleAll(s, batch, now).snd.cwnd <= s.snd.cwnd + UDX_MTU
    ensures HandleAll(s, batch, now).snd.cwnd
         >= s.snd.cwnd + Advancing(s.snd, batch) * (UDX_MTU * UDX_MTU / (s.snd.cwnd + UDX_MTU))
  {
    hide HandleAll, GrowN, Advancing;
    BatchGrows(s, batch, now);
    OneWindowGrowsEnough(s.snd.cwnd, Advancing(s.snd, batch));
    OneWindowGrowsOneSegment(s.snd.cwnd, Advancing(s.snd, batch));
  }

  /** In slow start, every advancing acknowledgement of a batch adds a full segment. */
  lemma BatchSlowStart(s: State, batch: seq<Frame>, now: nat)
    requires Advancing(s.snd, batch) > 0 ==> s.snd.cwnd + (Advancing(s.snd, batch) - 1) * UDX_MTU < SSTHRESH
    ensures HandleAll(s, batch, now).snd.cwnd == s.snd.cwnd + Advancing(s.snd, batch) * UDX_MTU
  {
    BatchGrows(s, batch, now);
    SlowStart(s.snd.cwnd, Advancing(s.snd, batch));
  }
}
