/**
 The close discipline over whole runs (src/stream.rs:51-76, 300-325, 653-656, 732-748, 776-778):
 once a stream is closed locally it creates no more data, and everything it still sends is
 either an END packet or something it had before.
 */
module Closing {
  import opened Constants
  import opened Wire
  import opened Ledger
  import opened StreamModel
  import opened StreamInvariant

  /** `f` ends the stream, or was already queued or outstanding in `s`. */
  ghost predicate OldOrEnd(f: Frame, s: State) {
    || f.header.typ == UDX_HEADER_END
    || f in s.queue
    || exists k :: k in s.snd.outgoing && f == s.snd.outgoing[k].ToFrame()
  }

  ghost predicate AllOldOrEnd(fs: seq<Frame>, s: State) {
    forall i :: 0 <= i < |fs| ==> OldOrEnd(fs[i], s)
  }

  /** The sender of `s'` has nothing that the sender of `s` did not have. */
  ghost predicate NothingNew(snd: Sender, snd': Sender) {
    && snd'.nextSeq == snd.nextSeq && snd'.log == snd.log
    && forall k :: k in snd'.outgoing ==>
         k in snd.outgoing && snd'.outgoing[k].ToFrame() == snd.outgoing[k].ToFrame()
  }

  /** `s'` is a closed successor of the closed stream `s`. */
  ghost predicate ClosedSince(s: State, s': State) {
    && s'.error.Some? && s'.phase.IsLocalClosed()
    && NothingNew(s.snd, s'.snd)
    && AllOldOrEnd(s'.queue, s)
  }

  /** The header of a closed stream never says data, whatever was asked for; an END is kept. */
  lemma ClosedHeader(s: State, typ: nat)
    requires s.phase.IsLocalClosed()
    ensures var t := CreateHeader(s, typ).typ;
      !HasType(t, UDX_HEADER_DATA) && (HasType(t, UDX_HEADER_END) <==> HasType(typ, UDX_HEADER_END))
  {
  }

  lemma AppendOldOrEnd(fs: seq<Frame>, gs: seq<Frame>, s: State)
    requires AllOldOrEnd(fs, s) && AllOldOrEnd(gs, s)
    ensures AllOldOrEnd(fs + gs, s)
  {
  }

  lemma SendStateCloses(s0: State, s: State)
    requires ClosedSince(s0, s)
    ensures ClosedSince(s0, SendState(s))
  {
    AppendOldOrEnd(s.queue, [SendState(s).queue[|s.queue|]], s0);
  }

  lemma TerminateCloses(s0: State, s: State, e: UdxError)
    requires ClosedSince(s0, s)
    ensures ClosedSince(s0, Terminate(s, e))
  {
    SendStateCloses(s0, s.(error := Some(e), phase := s.phase.CloseLocal()));
  }

  lemma SacksClose(s0: State, s: State, f: Frame, now: nat)
    requires ClosedSince(s0, s) && SenderInv(s.snd)
    ensures ClosedSince(s0, TakeSacks(s, f, now))
  {
    RetireBlocksInv(s.snd, SackBlocks(f.body, 0), now);
  }

  lemma EndCloses(s0: State, s: State, f: Frame)
    requires ClosedSince(s0, s)
    ensures ClosedSince(s0, TakeEnd(s, f))
  {
    TerminateCloses(s0, s.(phase := s.phase.CloseRemote()), UnexpectedEof);
  }

  lemma DataCloses(s0: State, s: State, f: Frame)
    requires ClosedSince(s0, s)
    ensures ClosedSince(s0, TakeData(s, f))
  {
    SendStateCloses(s0, Store(s, f));
  }

  lemma IncomingCloses(s0: State, s: State, f: Frame, now: nat)
    requires ClosedSince(s0, s) && SenderInv(s.snd)
    ensures ClosedSince(s0, HandleIncoming(s, f, now))
  {
    hide TakeSacks, TakeEnd, TakeData, SenderInv;
    SacksClose(s0, CountRx(s), f, now);
    var sacked := TakeSacks(CountRx(s), f, now);
    EndCloses(s0, sacked, f);
    DataCloses(s0, TakeEnd(sacked, f), f);
  }

  lemma {:induction false} BatchCloses(s0: State, s: State, batch: seq<Frame>, now: nat)
    requires ClosedSince(s0, s) && Inv(s)
    ensures ClosedSince(s0, HandleAll(s, batch, now))
    decreases |batch|
  {
    if batch != [] {
      hide ClosedSince, HandleIncoming;
      IncomingCloses(s0, s, batch[0], now);
      HandleIncomingInv(s, batch[0], now);
      BatchCloses(s0, HandleIncoming(s, batch[0], now), batch[1..], now);
    }
  }

  lemma {:induction false} WaitingFramesOld(s0: State, snd: Sender, lo: nat, hi: nat)
    requires NothingNew(s0.snd, snd)
    ensures AllOldOrEnd(WaitingFrames(snd.outgoing, lo, hi), s0)
  {
    if lo < hi {
      WaitingFramesOld(s0, snd, lo, hi - 1);
      if hi - 1 in snd.outgoing && snd.outgoing[hi - 1].waiting {
        AppendOldOrEnd(WaitingFrames(snd.outgoing, lo, hi - 1), [snd.outgoing[hi - 1].ToFrame()], s0);
      }
    }
  }

  lemma FlushCloses(s0: State, s: State)
    requires ClosedSince(s0, s)
    ensures ClosedSince(s0, Flush(s))
  {
    var snd := s.snd;
    var stop := FlushStop(snd.outgoing, snd.remoteAcked, snd.nextSeq, snd.inflight, snd.cwnd);
    WaitingFramesOld(s0, snd, snd.remoteAcked, stop);
    AppendOldOrEnd(s.queue, WaitingFrames(snd.outgoing, snd.remoteAcked, stop), s0);
  }

  lemma RetransmitCloses(s0: State, s: State, timer: bool, now: nat)
    requires ClosedSince(s0, s)
    ensures ClosedSince(s0, Retransmit(s, timer, now).s) && AllOldOrEnd(Retransmit(s, timer, now).sent, s0)
  {
    var checked := CheckTimer(s, timer, now).0;
    assert ClosedSince(s0, checked);
    TerminateCloses(s0, checked, TimedOut);
    FlushCloses(s0, checked);
  }

  lemma ReceivedCloses(s0: State, s: State, batch: seq<Frame>, now: nat)
    requires ClosedSince(s0, HandleAll(s, batch, now))
    ensures ClosedSince(s0, Received(s, batch, now))
  {
    hide HandleAll, AllOldOrEnd;
  }

  lemma PollCloses(s0: State, s: State, batch: seq<Frame>, hungUp: bool, timer: bool, now: nat)
    requires ClosedSince(s0, s) && Inv(s)
    ensures ClosedSince(s0, Drive(s, batch, hungUp, timer, now).s)
    ensures AllOldOrEnd(Drive(s, batch, hungUp, timer, now).sent, s0)
  {
    hide HandleAll, Retransmit, NothingNew, SenderInv, ReceiverInv;
    var awake := s.(driveWaker := false);
    BatchCloses(s0, awake, batch, now);
    var all := HandleAll(awake, batch, now);
    if hungUp {
      TerminateCloses(s0, all, BrokenPipe);
    } else {
      ReceivedCloses(s0, awake, batch, now);
      RetransmitCloses(s0, Received(awake, batch, now), timer, now);
    }
  }

  lemma StepCloses(s0: State, s: State, a: Action)
    requires ClosedSince(s0, s) && Inv(s)
    ensures ClosedSince(s0, Apply(s, a))
  {
    hide Inv, Drive, ReadNext, SendChunks;
    match a
    case DriveOnce(batch, hungUp, timer, now) => PollCloses(s0, s, batch, hungUp, timer, now);
    case CloseStream => TerminateCloses(s0, s, ConnectionReset);
    case Write(_) =>
    case Read(_) =>
    case StampSent(_, _) =>
  }

  lemma {:induction false} RunCloses(s: State, acts: seq<Action>)
    requires Inv(s) && s.error.Some?
    ensures Inv(Run(s, acts)) && ClosedSince(s, Run(s, acts))
  {
    hide Apply;
    if acts == [] {
      assert forall i :: 0 <= i < |s.queue| ==> s.queue[i] in s.queue;
    } else {
      hide Inv, ClosedSince;
      RunCloses(s, acts[..|acts| - 1]);
      ApplyInv(Run(s, acts[..|acts| - 1]), acts[|acts| - 1]);
      StepCloses(s, Run(s, acts[..|acts| - 1]), acts[|acts| - 1]);
    }
  }

  /**
   From a closed stream on, whatever happens, `seq` is frozen, the stream stays closed, and each
   packet it queues or hands to the socket is an END packet or one it already had.
   */
  lemma ClosedStreamIsFrozen(s: State, acts: seq<Action>, batch: seq<Frame>, hungUp: bool, timer: bool, now: nat)
    requires Inv(s) && s.error.Some?
    ensures ClosedSince(s, Run(s, acts))
    ensures AllOldOrEnd(Drive(Run(s, acts), batch, hungUp, timer, now).sent, s)
  {
    RunCloses(s, acts);
    PollCloses(s, Run(s, acts), batch, hungUp, timer, now);
  }
}
