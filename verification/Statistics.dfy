/**
 The statistics a stream keeps and the times its packets carry (src/stream.rs:34-40, 617-661, 732-762;
 src/socket.rs:343-348), over whole runs: each is what an observer of the run would count or note.
 */
module Statistics {
  import opened Constants
  import opened Ledger
  import opened StreamModel
  import opened StreamInvariant
  import opened Parking
  import opened Arrivals
  import opened Reporting

  // ----- what an observer sees -----

  /** The packets that arrived at the stream. */
  function Delivered(s: State, acts: seq<Action>): seq<Frame> {
    if acts == [] then []
    else
      var init, last := acts[..|acts| - 1], acts[|acts| - 1];
      Delivered(s, init) + if last.DriveOnce? && Running(Run(s, init)) then last.batch else []
  }

  function SentBy(s: State, a: Action): seq<Frame> {
    if a.DriveOnce? then Drive(s, a.batch, a.hungUp, a.timer, a.now).sent else []
  }

  /** The packets that went to the socket. */
  function HandedOver(s: State, acts: seq<Action>): seq<Frame> {
    if acts == [] then []
    else
      var init := acts[..|acts| - 1];
      HandedOver(s, init) + SentBy(Run(s, init), acts[|acts| - 1])
  }

  /** How many of the packets carry no data. */
  function Bare(fs: seq<Frame>): nat {
    if fs == [] then 0 else Bare(fs[..|fs| - 1]) + if IsData(fs[|fs| - 1]) then 0 else 1
  }

  lemma {:induction false} BareConcat(a: seq<Frame>, b: seq<Frame>)
    ensures Bare(a + b) == Bare(a) + Bare(b)
  {
    if b == [] {
      assert a + b == a;
    } else {
      BareConcat(a, b[..|b| - 1]);
      assert (a + b)[..|a + b| - 1] == a + b[..|b| - 1];
    }
  }

  lemma BareOne(f: Frame)
    ensures Bare([f]) == if IsData(f) then 0 else 1
  {
    assert [f][..0] == [];
  }

  // ----- packets sent -----

  /** The packets without data that were counted and are no longer queued. */
  function Gone(s: State): int {
    s.counters.txPackets - s.snd.nextSeq - Bare(s.queue)
  }

  lemma SendStateGone(s: State)
    ensures Gone(SendState(s)) == Gone(s)
  {
    var g := SendState(s).queue[|s.queue|];
    BareConcat(s.queue, [g]);
    BareOne(g);
  }

  lemma TerminateGone(s: State, e: UdxError)
    ensures Gone(Terminate(s, e)) == Gone(s)
  {
    hide SendState;
    SendStateGone(s.(error := Some(e), phase := s.phase.CloseLocal()));
  }

  lemma SendDataGone(s: State, body: seq<Byte>)
    requires !s.phase.IsLocalClosed()
    ensures Gone(SendData(s, body)) == Gone(s)
  {
    var g := SendData(s, body).queue[|s.queue|];
    BareConcat(s.queue, [g]);
    BareOne(g);
  }

  lemma {:induction false} ChunksGone(s: State, buf: seq<Byte>)
    requires !s.phase.IsLocalClosed()
    ensures Gone(SendChunks(s, buf).0) == Gone(s)
    decreases |buf|
  {
    hide Gone;
    var len := Min(|buf|, UDX_MAX_DATA_SIZE);
    if buf != [] && s.snd.inflight + len <= s.snd.cwnd {
      SendDataGone(s, buf[..len]);
      ChunksGone(SendData(s, buf[..len]), buf[len..]);
    }
  }

  lemma IncomingGone(s: State, f: Frame, now: nat)
    ensures Gone(HandleIncoming(s, f, now)) == Gone(s)
  {
    hide TakeSacks, Terminate, SendState, Insert, Bare;
    TakeSacksFrame(CountRx(s), f, now);
    var sacked := TakeSacks(CountRx(s), f, now);
    TerminateGone(sacked.(phase := sacked.phase.CloseRemote()), UnexpectedEof);
    SendStateGone(Store(TakeEnd(sacked, f), f));
  }

  lemma {:induction false} BatchGone(s: State, batch: seq<Frame>, now: nat)
    ensures Gone(HandleAll(s, batch, now)) == Gone(s)
    decreases |batch|
  {
    hide HandleIncoming, Gone;
    if batch != [] {
      IncomingGone(s, batch[0], now);
      BatchGone(HandleIncoming(s, batch[0], now), batch[1..], now);
    }
  }

  lemma StoredIsData(snd: Sender, k: nat)
    requires PacketsOk(snd) && k in snd.outgoing
    ensures IsData(snd.outgoing[k].ToFrame())
  {
    assert PacketOk(snd.outgoing[k], k, snd.log[k]);
  }

  lemma {:induction false} WaitingHasData(snd: Sender, lo: nat, hi: nat)
    requires PacketsOk(snd)
    ensures Bare(WaitingFrames(snd.outgoing, lo, hi)) == 0
  {
    hide Bare, PacketsOk;
    NothingIsBare();
    if lo < hi {
      WaitingHasData(snd, lo, hi - 1);
      if hi - 1 in snd.outgoing && snd.outgoing[hi - 1].waiting {
        var f := snd.outgoing[hi - 1].ToFrame();
        StoredIsData(snd, hi - 1);
        BareConcat(WaitingFrames(snd.outgoing, lo, hi - 1), [f]);
        BareOne(f);
      } else {
        assert WaitingFrames(snd.outgoing, lo, hi) == WaitingFrames(snd.outgoing, lo, hi - 1);
      }
    }
  }

  lemma FlushGone(s: State)
    requires PacketsOk(s.snd)
    ensures Gone(Flush(s)) == Gone(s)
  {
    hide FlushStop, WaitingFrames, Total, Bare;
    var snd := s.snd;
    var stop := FlushStop(snd.outgoing, snd.remoteAcked, snd.nextSeq, snd.inflight, snd.cwnd);
    WaitingHasData(snd, snd.remoteAcked, stop);
    BareConcat(s.queue, WaitingFrames(snd.outgoing, snd.remoteAcked, stop));
  }

  lemma RetransmitGone(s: State, timer: bool, now: nat)
    requires SenderInv(s.snd)
    ensures var d := Retransmit(s, timer, now); Gone(d.s) == Gone(s) + Bare(d.sent)
  {
    hide CheckTimeouts, Flush, Terminate, Conserved;
    TimeoutInv(s.snd, timer);
    var checked := CheckTimer(s, timer, now).0;
    assert Gone(checked) == Gone(s) by {
      TimeoutKeepsSeq(s.snd, timer);
    }
    FlushGone(checked);
    TerminateGone(checked, TimedOut);
    assert Bare([]) == 0;
  }

  lemma TimeoutKeepsSeq(snd: Sender, timer: bool)
    ensures CheckTimeouts(snd, timer).0.nextSeq == snd.nextSeq
  {
  }

  lemma PollGone(s: State, a: Action)
    requires Inv(s) && a.DriveOnce?
    ensures Gone(Apply(s, a)) == Gone(s) + Bare(SentBy(s, a))
  {
    hide HandleAll, HandleAck, Retransmit, Terminate, SenderInv, ReceiverInv;
    var awake := s.(driveWaker := false);
    BatchGone(awake, a.batch, a.now);
    var all := HandleAll(awake, a.batch, a.now);
    TerminateGone(all, BrokenPipe);
    AckGone(all, MaxAck(a.batch), a.now);
    ReceivedInv(awake, a.batch, a.now);
    RetransmitGone(Received(awake, a.batch, a.now), a.timer, a.now);
    assert Bare([]) == 0;
  }

  lemma AckGone(s: State, ack: nat, now: nat)
    ensures Gone(HandleAck(s, ack, now)) == Gone(s)
  {
  }

  lemma WriteGone(s: State, buf: seq<Byte>)
    requires Inv(s)
    ensures Gone(PollWrite(s, buf).0) == Gone(s)
  {
    hide SendChunks, SenderInv, ReceiverInv, Bare;
    if s.error.None? {
      ChunksGone(s, buf);
    }
  }

  lemma CloseGone(s: State)
    ensures Gone(Close(s)) == Gone(s)
  {
    hide Terminate, Bare;
    TerminateGone(s, ConnectionReset);
  }

  lemma ReadGone(s: State, room: nat)
    ensures Gone(PollRead(s, room).s) == Gone(s)
  {
    hide ReadNext, Gone;
    var s' := PollRead(s, room).s;
    assert s'.queue == s.queue && s'.snd == s.snd && s'.counters == s.counters;
    SameGone(s, s');
  }

  lemma SameGone(s: State, s': State)
    requires s'.queue == s.queue && s'.snd == s.snd && s'.counters == s.counters
    ensures Gone(s') == Gone(s)
  {
  }

  lemma StampGone(s: State, k: nat, at: nat)
    ensures Gone(Stamp(s, k, at)) == Gone(s)
  {
    hide Bare;
  }

  lemma NothingIsBare()
    ensures Bare([]) == 0
  {
  }

  lemma StepGone(s: State, a: Action)
    requires Inv(s)
    ensures Gone(Apply(s, a)) == Gone(s) + Bare(SentBy(s, a))
  {
    hide Drive, PollWrite, PollRead, Close, Gone, Bare, SenderInv, ReceiverInv;
    NothingIsBare();
    match a
    case DriveOnce(_, _, _, _) => PollGone(s, a);
    case Write(buf) => WriteGone(s, buf);
    case CloseStream => CloseGone(s);
    case Read(room) => ReadGone(s, room);
    case StampSent(k, at) => StampGone(s, k, at);
  }

  // ----- packets received -----

  lemma StepRx(s: State, a: Action)
    requires ReceiverInv(s.rcv)
    ensures var s' := Apply(s, a);
      var batch := if a.DriveOnce? && Running(s) then a.batch else [];
      && s'.counters.rxPackets == s.counters.rxPackets + |batch|
      && s'.counters.rxBytes == s.counters.rxBytes + DataBytes(batch)
  {
    hide Drive, SendChunks, ReadNext, ReceiverInv, NoneEnds, NoneAwaited, DataBytes;
    NoBytes();
    match a
    case DriveOnce(batch, hungUp, timer, now) =>
      if Running(s) {
        PollBecomes(s, batch, hungUp, timer, now);
      } else {
        CompletedRest(s, a);
      }
    case Write(buf) => ChunksKeepRx(s, buf);
    case Read(_) =>
    case CloseStream =>
    case StampSent(_, _) =>
  }

  lemma {:induction false} ChunksKeepRx(s: State, buf: seq<Byte>)
    ensures var c := SendChunks(s, buf).0.counters;
      c.rxPackets == s.counters.rxPackets && c.rxBytes == s.counters.rxBytes
    decreases |buf|
  {
    var len := Min(|buf|, UDX_MAX_DATA_SIZE);
    if buf != [] && s.snd.inflight + len <= s.snd.cwnd {
      ChunksKeepRx(SendData(s, buf[..len]), buf[len..]);
    }
  }

  /**
   In every run: `rx_packets` is the number of packets that arrived, `rx_bytes` the bytes of the data
   among them, repetitions included, `tx_bytes` the bytes accepted from writers, and `tx_packets` the
   number of data packets created and of packets without data that were handed over or are queued.
   */
  lemma {:induction false} CountersAreExact(remoteId: nat, acts: seq<Action>)
    ensures var s := Run(Connect(remoteId), acts);
      var got, sent := Delivered(Connect(remoteId), acts), HandedOver(Connect(remoteId), acts);
      && s.counters.rxPackets == |got| && s.counters.rxBytes == DataBytes(got)
      && s.counters.txBytes == |Flatten(s.snd.log)|
      && s.counters.txPackets == s.snd.nextSeq + Bare(sent + s.queue)
  {
    hide SenderInv, ReceiverInv, Apply, SentBy, Bare, DataBytes, Running;
    var start := Connect(remoteId);
    var s := Run(start, acts);
    InvAlways(remoteId, acts);
    BareConcat(HandedOver(start, acts), s.queue);
    if acts == [] {
      NothingBare();
      NoBytes();
    } else {
      var init, last := acts[..|acts| - 1], acts[|acts| - 1];
      CountersAreExact(remoteId, init);
      var s0 := Run(start, init);
      InvAlways(remoteId, init);
      StepGone(s0, last);
      StepRx(s0, last);
      BareConcat(HandedOver(start, init), s0.queue);
      BareConcat(HandedOver(start, init), SentBy(s0, last));
      DataBytesConcat(Delivered(start, init), if last.DriveOnce? && Running(s0) then last.batch else []);
    }
  }

  lemma NothingBare()
    ensures Bare([]) == 0
  {
  }

  // ----- when packets were sent -----

  /** The last stamp that packet `k` got in the run while it was outstanding. */
  function LastStamp(s: State, acts: seq<Action>, k: nat): Option<nat> {
    if acts == [] then None
    else
      var init, last := acts[..|acts| - 1], acts[|acts| - 1];
      if last.StampSent? && last.k == k && k in Run(s, init).snd.outgoing then Some(last.at) else LastStamp(s, init, k)
  }

  /** Packets keep their stamps, and new ones have none. */
  ghost predicate KeepsStamps(snd: Sender, snd': Sender) {
    && snd.nextSeq <= snd'.nextSeq
    && forall k :: k in snd'.outgoing ==>
         if k in snd.outgoing then snd'.outgoing[k].sentAt == snd.outgoing[k].sentAt
         else snd.nextSeq <= k < snd'.nextSeq && snd'.outgoing[k].sentAt.None?
  }

  lemma KeepsOn(a: Sender, b: Sender, c: Sender)
    requires PacketsOk(a) && KeepsStamps(a, b) && KeepsStamps(b, c)
    ensures KeepsStamps(a, c)
  {
    assert forall k :: k in a.outgoing ==> k < a.nextSeq;
  }

  /** Nothing new is outstanding, and what is left has the same stamps. */
  ghost predicate Fewer(snd: Sender, snd': Sender) {
    && snd'.nextSeq == snd.nextSeq
    && forall k :: k in snd'.outgoing ==> k in snd.outgoing && snd'.outgoing[k].sentAt == snd.outgoing[k].sentAt
  }

  lemma {:induction false} ChunksKeepStamps(s: State, buf: seq<Byte>)
    requires Inv(s) && s.error.None?
    ensures KeepsStamps(s.snd, SendChunks(s, buf).0.snd)
    decreases |buf|
  {
    hide KeepsStamps, SendData;
    var len := Min(|buf|, UDX_MAX_DATA_SIZE);
    if buf != [] && s.snd.inflight + len <= s.snd.cwnd {
      var sent := SendData(s, buf[..len]);
      SendDataInv(s, buf[..len]);
      SendDataKeepsStamps(s, buf[..len]);
      ChunksKeepStamps(sent, buf[len..]);
      KeepsOn(s.snd, sent.snd, SendChunks(sent, buf[len..]).0.snd);
    } else {
      FewerKeeps(s.snd, s.snd);
    }
  }

  lemma FewerKeeps(snd: Sender, snd': Sender)
    requires Fewer(snd, snd')
    ensures KeepsStamps(snd, snd')
  {
  }

  lemma SendDataKeepsStamps(s: State, body: seq<Byte>)
    requires PacketsOk(s.snd)
    ensures KeepsStamps(s.snd, SendData(s, body).snd)
  {
    assert s.snd.nextSeq !in s.snd.outgoing;
  }

  lemma {:induction false} BlocksFewer(snd: Sender, blocks: seq<(nat, nat)>, now: nat)
    ensures Fewer(snd, RetireBlocks(snd, blocks, now))
    decreases |blocks|
  {
    hide Samples, Total;
    if blocks != [] {
      BlocksFewer(Retire(snd, blocks[0].0, blocks[0].1, now), blocks[1..], now);
    }
  }

  lemma {:induction false} BatchFewer(s: State, batch: seq<Frame>, now: nat)
    ensures Fewer(s.snd, HandleAll(s, batch, now).snd)
    decreases |batch|
  {
    hide HandleIncoming;
    if batch != [] {
      IncomingFewer(s, batch[0], now);
      BatchFewer(HandleIncoming(s, batch[0], now), batch[1..], now);
    }
  }

  lemma IncomingFewer(s: State, f: Frame, now: nat)
    ensures Fewer(s.snd, HandleIncoming(s, f, now).snd)
  {
    hide HandleIncoming, RetireBlocks, SackBlocks;
    IncomingSender(s, f, now);
    BlocksFewer(s.snd, SackBlocks(f.body, 0), now);
  }

  lemma AckFewer(s: State, ack: nat, now: nat)
    ensures Fewer(s.snd, HandleAck(s, ack, now).snd)
  {
    hide Samples, Total;
  }

  lemma RetransmitFewer(s: State, timer: bool, now: nat)
    ensures Fewer(s.snd, Retransmit(s, timer, now).s.snd)
  {
    hide CheckTimeouts, Flush;
    TimeoutFewer(s.snd, timer);
    FlushFewer(CheckTimer(s, timer, now).0);
  }

  lemma TimeoutFewer(snd: Sender, timer: bool)
    ensures Fewer(snd, CheckTimeouts(snd, timer).0)
  {
    hide FirstExhausted, Total;
  }

  lemma FlushFewer(s: State)
    ensures Fewer(s.snd, Flush(s).snd)
  {
    hide FlushStop, WaitingFrames, Total;
  }

  lemma PollFewer(s: State, a: Action)
    requires a.DriveOnce?
    ensures Fewer(s.snd, Apply(s, a).snd)
  {
    hide HandleAll, HandleAck, Retransmit;
    var awake := s.(driveWaker := false);
    BatchFewer(awake, a.batch, a.now);
    AckFewer(HandleAll(awake, a.batch, a.now), MaxAck(a.batch), a.now);
    RetransmitFewer(Received(awake, a.batch, a.now), a.timer, a.now);
  }

  lemma StepKeepsStamps(s: State, a: Action)
    requires Inv(s) && !a.StampSent?
    ensures KeepsStamps(s.snd, Apply(s, a).snd)
  {
    hide Inv, Drive, SendChunks, ReadNext, KeepsStamps;
    FewerKeeps(s.snd, s.snd);
    match a
    case DriveOnce(_, _, _, _) =>
      PollFewer(s, a);
      FewerKeeps(s.snd, Apply(s, a).snd);
    case Write(buf) =>
      if s.error.None? {
        ChunksKeepStamps(s, buf);
      }
    case CloseStream =>
    case Read(_) =>
  }

  lemma StepStamps(s: State, a: Action)
    requires a.StampSent?
    ensures var snd := Apply(s, a).snd;
      && snd.nextSeq == s.snd.nextSeq && snd.outgoing.Keys == s.snd.outgoing.Keys
      && forall j :: j in snd.outgoing ==>
           snd.outgoing[j].sentAt == if j == a.k then Some(a.at) else s.snd.outgoing[j].sentAt
  {
  }

  /**
   In every run, an outstanding packet carries the time of the last stamp the socket gave it, and none
   if it gave none: neither retransmission nor anything the peer sends touches it.
   */
  lemma {:induction false} StampIsLastStamp(remoteId: nat, acts: seq<Action>, k: nat)
    ensures var s := Run(Connect(remoteId), acts);
      && (k in s.snd.outgoing ==> s.snd.outgoing[k].sentAt == LastStamp(Connect(remoteId), acts, k))
      && (LastStamp(Connect(remoteId), acts, k).Some? ==> k < s.snd.nextSeq)
  {
    hide ReceiverInv, Conserved, Apply;
    if acts != [] {
      var init, last := acts[..|acts| - 1], acts[|acts| - 1];
      StampIsLastStamp(remoteId, init, k);
      InvAlways(remoteId, init);
      var s := Run(Connect(remoteId), init);
      assert k in s.snd.outgoing ==> k < s.snd.nextSeq;
      if last.StampSent? {
        StepStamps(s, last);
      } else {
        StepKeepsStamps(s, last);
      }
    }
  }
}
