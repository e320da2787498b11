/**
 What a stream puts on the wire (src/stream.rs:300-318, 732-758): every packet it queues, keeps or
 hands over is addressed to its peer and has one of three shapes.
 */
module Addressing {
  import opened Constants
  import opened Wire
  import opened Ledger
  import opened StreamModel
  import opened StreamInvariant

  /** A packet for stream `id`: data, or a bare acknowledgement, which ends the stream if it is closed. */
  ghost predicate Proper(f: Frame, id: nat, nextSeq: nat, ack: nat, closed: bool) {
    && f.header.streamId == id && f.header.recvWin == TWO_TO_THE_32 - 1 && f.header.dataOffset == 0
    && f.header.seqno <= nextSeq && f.header.ack <= ack
    && (|| f.header.typ == UDX_HEADER_DATA
        || (f.header.typ == 0 && f.body == [])
        || (f.header.typ == UDX_HEADER_END && f.body == [] && closed))
  }

  ghost predicate AllProper(fs: seq<Frame>, s: State) {
    forall i :: 0 <= i < |fs| ==> Proper(fs[i], s.remoteId, s.snd.nextSeq, s.rcv.ack, s.error.Some?)
  }

  ghost predicate Addressed(s: State) {
    && AllProper(s.queue, s)
    && forall k :: k in s.snd.outgoing ==>
         Proper(s.snd.outgoing[k].ToFrame(), s.remoteId, s.snd.nextSeq, s.rcv.ack, s.error.Some?)
  }

  /** The counters have not gone back, the stream has not opened again, and nothing has become outstanding. */
  ghost predicate Later(s: State, s': State) {
    && s'.remoteId == s.remoteId && s.snd.nextSeq <= s'.snd.nextSeq && s.rcv.ack <= s'.rcv.ack
    && (s.error.Some? ==> s'.error.Some?)
    && forall k :: k in s'.snd.outgoing ==>
         k in s.snd.outgoing && s'.snd.outgoing[k].ToFrame() == s.snd.outgoing[k].ToFrame()
  }

  lemma LaterIsProper(fs: seq<Frame>, s: State, s': State)
    requires AllProper(fs, s) && Later(s, s')
    ensures AllProper(fs, s')
  {
  }

  lemma ProperConcat(fs: seq<Frame>, gs: seq<Frame>, s: State)
    requires AllProper(fs, s) && AllProper(gs, s)
    ensures AllProper(fs + gs, s)
  {
  }

  lemma LaterIsAddressed(s: State, s': State)
    requires Addressed(s) && Later(s, s') && s'.queue == s.queue
    ensures Addressed(s')
  {
    LaterIsProper(s.queue, s, s');
  }

  lemma SendStateAddressed(s: State)
    requires Addressed(s)
    ensures Addressed(SendState(s))
  {
    var s' := SendState(s);
    var g := s'.queue[|s.queue|];
    LaterIsProper(s.queue, s, s');
    assert s'.queue == s.queue + [g] && AllProper([g], s');
    ProperConcat(s.queue, [g], s');
  }

  lemma TerminateAddressed(s: State, e: UdxError)
    requires Addressed(s)
    ensures Addressed(Terminate(s, e))
  {
    hide SendState;
    var closed := s.(error := Some(e), phase := s.phase.CloseLocal());
    LaterIsAddressed(s, closed);
    SendStateAddressed(closed);
    LaterIsAddressed(SendState(closed), Terminate(s, e));
  }

  lemma SendDataAddressed(s: State, body: seq<Byte>)
    requires Addressed(s) && !s.phase.IsLocalClosed()
    ensures Addressed(SendData(s, body))
  {
    var s' := SendData(s, body);
    var g := s'.queue[|s.queue|];
    assert s'.queue == s.queue + [g] && AllProper([g], s');
    assert AllProper(s.queue, s');
    ProperConcat(s.queue, [g], s');
  }

  lemma {:induction false} ChunksAddressed(s: State, buf: seq<Byte>)
    requires Addressed(s) && !s.phase.IsLocalClosed()
    ensures Addressed(SendChunks(s, buf).0)
    decreases |buf|
  {
    hide Addressed;
    var len := Min(|buf|, UDX_MAX_DATA_SIZE);
    if buf != [] && s.snd.inflight + len <= s.snd.cwnd {
      SendDataAddressed(s, buf[..len]);
      ChunksAddressed(SendData(s, buf[..len]), buf[len..]);
    }
  }

  lemma SacksAddressed(s: State, f: Frame, now: nat)
    requires Addressed(s) && SenderInv(s.snd)
    ensures Addressed(TakeSacks(CountRx(s), f, now))
  {
    RetireBlocksInv(s.snd, SackBlocks(f.body, 0), now);
    hide RetireBlocks, SackBlocks, Addressed, SenderInv;
    LaterIsAddressed(s, TakeSacks(CountRx(s), f, now));
  }

  lemma EndAddressed(s: State, f: Frame)
    requires Addressed(s)
    ensures Addressed(TakeEnd(s, f))
  {
    hide Addressed, Terminate;
    var closed := s.(phase := s.phase.CloseRemote());
    LaterIsAddressed(s, closed);
    TerminateAddressed(closed, UnexpectedEof);
  }

  lemma DataAddressed(s: State, f: Frame)
    requires Addressed(s) && ReceiverInv(s.rcv)
    ensures Addressed(TakeData(s, f))
  {
    hide Addressed, SendState, Insert, ReceiverInv;
    InsertInv(s.rcv, f);
    LaterIsAddressed(s, Store(s, f));
    SendStateAddressed(Store(s, f));
  }

  lemma IncomingAddressed(s: State, f: Frame, now: nat)
    requires Inv(s) && Addressed(s)
    ensures Addressed(HandleIncoming(s, f, now))
  {
    hide TakeSacks, TakeEnd, TakeData, Addressed, SenderInv, ReceiverInv;
    var sacked := TakeSacks(CountRx(s), f, now);
    SacksAddressed(s, f, now);
    TakeSacksFrame(CountRx(s), f, now);
    EndAddressed(sacked, f);
    EndKeepsReceiver(sacked, f);
    var ended := TakeEnd(sacked, f);
    DataAddressed(ended, f);
    LaterIsAddressed(TakeData(ended, f), TakeAck(TakeData(ended, f), f));
  }

  lemma EndKeepsReceiver(s: State, f: Frame)
    ensures TakeEnd(s, f).rcv == s.rcv
  {
  }

  lemma {:induction false} BatchAddressed(s: State, batch: seq<Frame>, now: nat)
    requires Inv(s) && Addressed(s)
    ensures Addressed(HandleAll(s, batch, now))
    decreases |batch|
  {
    hide Inv, HandleIncoming, Addressed;
    if batch != [] {
      IncomingAddressed(s, batch[0], now);
      HandleIncomingInv(s, batch[0], now);
      BatchAddressed(HandleIncoming(s, batch[0], now), batch[1..], now);
    }
  }

  lemma AckAddressed(s: State, ack: nat, now: nat)
    requires Addressed(s)
    ensures Addressed(HandleAck(s, ack, now))
  {
    hide Addressed, Samples, Total;
    LaterIsAddressed(s, HandleAck(s, ack, now));
  }

  lemma {:induction false} WaitingProper(s: State, lo: nat, hi: nat)
    requires Addressed(s)
    ensures AllProper(WaitingFrames(s.snd.outgoing, lo, hi), s)
  {
    if lo < hi {
      WaitingProper(s, lo, hi - 1);
      if hi - 1 in s.snd.outgoing && s.snd.outgoing[hi - 1].waiting {
        ProperConcat(WaitingFrames(s.snd.outgoing, lo, hi - 1), [s.snd.outgoing[hi - 1].ToFrame()], s);
      }
    }
  }

  lemma FlushAddressed(s: State)
    requires Addressed(s)
    ensures Addressed(Flush(s))
  {
    hide FlushStop, WaitingFrames, Total;
    var snd := s.snd;
    var stop := FlushStop(snd.outgoing, snd.remoteAcked, snd.nextSeq, snd.inflight, snd.cwnd);
    WaitingProper(s, snd.remoteAcked, stop);
    ProperConcat(s.queue, WaitingFrames(snd.outgoing, snd.remoteAcked, stop), s);
    LaterIsProper(Flush(s).queue, s, Flush(s));
  }

  lemma TimeoutAddressed(s: State, timer: bool, now: nat)
    requires Addressed(s)
    ensures Addressed(CheckTimer(s, timer, now).0)
  {
    hide Addressed, FirstExhausted, Total;
    LaterIsAddressed(s, CheckTimer(s, timer, now).0);
  }

  lemma RetransmitAddressed(s: State, timer: bool, now: nat)
    requires Addressed(s)
    ensures var d := Retransmit(s, timer, now); Addressed(d.s) && AllProper(d.sent, d.s)
  {
    hide CheckTimeouts, Flush, Terminate;
    TimeoutAddressed(s, timer, now);
    var checked := CheckTimer(s, timer, now).0;
    FlushAddressed(checked);
    TerminateAddressed(checked, TimedOut);
  }

  lemma PollAddressed(s: State, a: Action)
    requires Inv(s) && Addressed(s) && a.DriveOnce?
    ensures var d := Drive(s, a.batch, a.hungUp, a.timer, a.now); Addressed(d.s) && AllProper(d.sent, d.s)
  {
    hide HandleAll, HandleAck, Retransmit, Addressed, SenderInv, ReceiverInv, Terminate;
    var awake := s.(driveWaker := false);
    LaterIsAddressed(s, awake);
    LaterIsAddressed(s, awake.(onClose := false, finished := true));
    BatchAddressed(awake, a.batch, a.now);
    var all := HandleAll(awake, a.batch, a.now);
    TerminateAddressed(all, BrokenPipe);
    AckAddressed(all, MaxAck(a.batch), a.now);
    RetransmitAddressed(Received(awake, a.batch, a.now), a.timer, a.now);
  }

  lemma WriteAddressed(s: State, buf: seq<Byte>)
    requires Inv(s) && Addressed(s)
    ensures Addressed(PollWrite(s, buf).0)
  {
    hide SenderInv, ReceiverInv, Addressed, SendChunks;
    if s.error.None? {
      ChunksAddressed(s, buf);
      LaterIsAddressed(SendChunks(s, buf).0, SendChunks(s, buf).0.(writeWaker := true));
    }
  }

  lemma ReadAddressed(s: State, room: nat)
    requires Inv(s) && Addressed(s)
    ensures Addressed(PollRead(s, room).s)
  {
    hide SenderInv, ReceiverInv, Addressed, ReadNext, Readable;
    ReadNextInv(s.rcv, room);
    LaterIsAddressed(s, PollRead(s, room).s);
  }

  lemma StepAddressed(s: State, a: Action)
    requires Inv(s) && Addressed(s)
    ensures Addressed(Apply(s, a))
  {
    hide SenderInv, ReceiverInv, Addressed, Drive, PollWrite, PollRead, Terminate;
    match a
    case Write(buf) => WriteAddressed(s, buf);
    case DriveOnce(_, _, _, _) => PollAddressed(s, a);
    case StampSent(_, _) => LaterIsAddressed(s, Apply(s, a));
    case Read(room) => ReadAddressed(s, room);
    case CloseStream =>
      TerminateAddressed(s, ConnectionReset);
      LaterIsAddressed(Terminate(s, ConnectionReset), Close(s));
  }

  lemma StepKeepsId(s: State, a: Action)
    ensures Apply(s, a).remoteId == s.remoteId
  {
    hide Drive, SendChunks, ReadNext, Terminate;
    match a
    case Write(buf) => ChunksKeepId(s, buf);
    case DriveOnce(_, _, _, _) => PollKeepsId(s, a);
    case Read(_) =>
    case CloseStream => TerminateKeepsId(s, ConnectionReset);
    case StampSent(_, _) =>
  }

  lemma PollKeepsId(s: State, a: Action)
    requires a.DriveOnce?
    ensures Apply(s, a).remoteId == s.remoteId
  {
    hide HandleAll, CheckTimeouts, Flush, Terminate, Retire;
    var awake := s.(driveWaker := false);
    var checked := CheckTimer(Received(awake, a.batch, a.now), a.timer, a.now).0;
    BatchKeepsId(awake, a.batch, a.now);
    FlushKeepsId(checked);
    TerminateKeepsId(HandleAll(awake, a.batch, a.now), BrokenPipe);
    TerminateKeepsId(checked, TimedOut);
  }

  lemma TerminateKeepsId(s: State, e: UdxError)
    ensures Terminate(s, e).remoteId == s.remoteId
  {
  }

  lemma FlushKeepsId(s: State)
    ensures Flush(s).remoteId == s.remoteId
  {
  }

  lemma {:induction false} ChunksKeepId(s: State, buf: seq<Byte>)
    ensures SendChunks(s, buf).0.remoteId == s.remoteId
    decreases |buf|
  {
    var len := Min(|buf|, UDX_MAX_DATA_SIZE);
    if buf != [] && s.snd.inflight + len <= s.snd.cwnd {
      ChunksKeepId(SendData(s, buf[..len]), buf[len..]);
    }
  }

  lemma {:induction false} BatchKeepsId(s: State, batch: seq<Frame>, now: nat)
    ensures HandleAll(s, batch, now).remoteId == s.remoteId
    decreases |batch|
  {
    if batch != [] {
      IncomingKeepsId(s, batch[0], now);
      BatchKeepsId(HandleIncoming(s, batch[0], now), batch[1..], now);
    }
  }

  lemma IncomingKeepsId(s: State, f: Frame, now: nat)
    ensures HandleIncoming(s, f, now).remoteId == s.remoteId
  {
    hide TakeSacks, Insert;
    TakeSacksFrame(CountRx(s), f, now);
  }

  lemma {:induction false} AlwaysAddressed(remoteId: nat, acts: seq<Action>)
    ensures var s := Run(Connect(remoteId), acts); Addressed(s) && s.remoteId == remoteId
  {
    hide Inv, Apply, Addressed;
    if acts == [] {
      assert Addressed(Connect(remoteId)) by {
        NothingToAddress(remoteId);
      }
    } else {
      var init := acts[..|acts| - 1];
      AlwaysAddressed(remoteId, init);
      InvAlways(remoteId, init);
      StepAddressed(Run(Connect(remoteId), init), acts[|acts| - 1]);
      StepKeepsId(Run(Connect(remoteId), init), acts[|acts| - 1]);
    }
  }

  lemma NothingToAddress(remoteId: nat)
    ensures Addressed(Connect(remoteId))
  {
  }

  /**
   In every run, each packet that is queued, outstanding or handed over by a poll is addressed to the
   peer's stream, announces the full window, and is data, a bare acknowledgement or, if the stream is
   closed, an END packet.
   */
  lemma EveryPacketIsAddressed(remoteId: nat, acts: seq<Action>, batch: seq<Frame>, hungUp: bool, timer: bool, now: nat)
    ensures var s := Run(Connect(remoteId), acts);
      Addressed(s) && s.remoteId == remoteId
    ensures var d := Drive(Run(Connect(remoteId), acts), batch, hungUp, timer, now);
      AllProper(d.sent, d.s) && d.s.remoteId == remoteId
  {
    hide Run, Inv, Addressed, AllProper;
    var s, a := Run(Connect(remoteId), acts), DriveOnce(batch, hungUp, timer, now);
    AlwaysAddressed(remoteId, acts);
    InvAlways(remoteId, acts);
    PollAddressed(s, a);
    StepKeepsId(s, a);
  }

  // ----- numbers -----

  /**
   The packets of a queue carry the numbers that were next when they were made: going back from
   `nextSeq`, each data packet takes one, and the others repeat the next.
   */
  predicate Numbered(fs: seq<Frame>, nextSeq: nat) {
    fs == [] ||
    var init, last := fs[..|fs| - 1], fs[|fs| - 1];
    if HasType(last.header.typ, UDX_HEADER_DATA)
    then nextSeq > 0 && last.header.seqno == nextSeq - 1 && Numbered(init, nextSeq - 1)
    else last.header.seqno == nextSeq && Numbered(init, nextSeq)
  }

  lemma SendStateNumbered(s: State)
    requires Numbered(s.queue, s.snd.nextSeq)
    ensures Numbered(SendState(s).queue, s.snd.nextSeq)
  {
    var q := SendState(s).queue;
    assert q[..|q| - 1] == s.queue;
  }

  lemma TerminateNumbered(s: State, e: UdxError)
    requires Numbered(s.queue, s.snd.nextSeq)
    ensures Numbered(Terminate(s, e).queue, s.snd.nextSeq)
  {
    hide SendState, Numbered;
    SendStateNumbered(s.(error := Some(e), phase := s.phase.CloseLocal()));
  }

  lemma {:induction false} ChunksNumbered(s: State, buf: seq<Byte>)
    requires Numbered(s.queue, s.snd.nextSeq) && !s.phase.IsLocalClosed()
    ensures var s' := SendChunks(s, buf).0; Numbered(s'.queue, s'.snd.nextSeq)
    decreases |buf|
  {
    var len := Min(|buf|, UDX_MAX_DATA_SIZE);
    if buf != [] && s.snd.inflight + len <= s.snd.cwnd {
      var sent := SendData(s, buf[..len]);
      assert sent.queue[..|sent.queue| - 1] == s.queue;
      ChunksNumbered(sent, buf[len..]);
    }
  }

  lemma IncomingNumbered(s: State, f: Frame, now: nat)
    requires Numbered(s.queue, s.snd.nextSeq)
    ensures var s' := HandleIncoming(s, f, now); Numbered(s'.queue, s'.snd.nextSeq) && s'.snd.nextSeq == s.snd.nextSeq
  {
    hide TakeSacks, Terminate, SendState, Insert, Numbered;
    TakeSacksFrame(CountRx(s), f, now);
    var sacked := TakeSacks(CountRx(s), f, now);
    TerminateNumbered(sacked.(phase := sacked.phase.CloseRemote()), UnexpectedEof);
    EndKeepsSender(sacked, f);
    SendStateNumbered(Store(TakeEnd(sacked, f), f));
    HandleIncomingFrame(s, f, now);
  }

  lemma {:induction false} BatchNumbered(s: State, batch: seq<Frame>, now: nat)
    requires Numbered(s.queue, s.snd.nextSeq)
    ensures Numbered(HandleAll(s, batch, now).queue, s.snd.nextSeq)
    decreases |batch|
  {
    hide HandleIncoming, Numbered;
    if batch != [] {
      IncomingNumbered(s, batch[0], now);
      BatchNumbered(HandleIncoming(s, batch[0], now), batch[1..], now);
    }
  }

  lemma PollNumbered(s: State, a: Action)
    requires Numbered(s.queue, s.snd.nextSeq) && a.DriveOnce?
    ensures var s' := Apply(s, a); Numbered(s'.queue, s'.snd.nextSeq)
  {
    hide HandleAll, CheckTimeouts, Flush, Terminate, Numbered;
    var awake := s.(driveWaker := false);
    BatchNumbered(awake, a.batch, a.now);
    HandleAllFrame(awake, a.batch, a.now);
    var all, received := HandleAll(awake, a.batch, a.now), Received(awake, a.batch, a.now);
    var checked := CheckTimer(received, a.timer, a.now).0;
    TimeoutKeepsSeq(received.snd, a.timer);
    TerminateNumbered(all, BrokenPipe);
    TerminateNumbered(checked, TimedOut);
    TerminateKeepsSender(all, BrokenPipe);
    TerminateKeepsSender(checked, TimedOut);
    EmptyIsNumbered(Apply(s, a).snd.nextSeq);
  }

  lemma TimeoutKeepsSeq(snd: Sender, timer: bool)
    ensures CheckTimeouts(snd, timer).0.nextSeq == snd.nextSeq
  {
  }

  lemma TerminateKeepsSender(s: State, e: UdxError)
    ensures Terminate(s, e).snd == s.snd
  {
  }

  lemma EmptyIsNumbered(nextSeq: nat)
    ensures Numbered([], nextSeq)
  {
  }

  lemma StepNumbered(s: State, a: Action)
    requires Numbered(s.queue, s.snd.nextSeq) && (s.error.Some? <==> s.phase.IsLocalClosed())
    ensures var s' := Apply(s, a); Numbered(s'.queue, s'.snd.nextSeq)
  {
    hide Drive, SendChunks, ReadNext, Terminate, Numbered;
    match a
    case Write(buf) =>
      if s.error.None? {
        ChunksNumbered(s, buf);
      }
    case DriveOnce(_, _, _, _) => PollNumbered(s, a);
    case CloseStream =>
      TerminateNumbered(s, ConnectionReset);
      TerminateKeepsSender(s, ConnectionReset);
    case Read(_) =>
    case StampSent(_, _) =>
  }

  /** In every run, the queue between two actions is numbered like that. */
  lemma {:induction false} QueueIsNumbered(remoteId: nat, acts: seq<Action>)
    ensures var s := Run(Connect(remoteId), acts); Numbered(s.queue, s.snd.nextSeq)
  {
    hide SenderInv, ReceiverInv, Apply;
    if acts != [] {
      var init := acts[..|acts| - 1];
      QueueIsNumbered(remoteId, init);
      InvAlways(remoteId, init);
      StepNumbered(Run(Connect(remoteId), init), acts[|acts| - 1]);
    }
  }
}
