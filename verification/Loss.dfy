/**
 What loss makes impossible, and exactly when everything can still be delivered (src/stream.rs:88-96,
 354-437). A packet that has been declared lost six times and sent seven is not sent again. If none of
 its copies is under way and the receiver does not have it, it is gone for good.
 */
module Loss {
  import opened Constants
  import opened Wire
  import opened Ledger
  import opened StreamModel
  import opened StreamInvariant
  import opened Network
  import opened Reassembly
  import opened Retransmission
  import opened GivingUp
  import opened Endpoints
  import opened NetworkProgress

  // ----- a packet that is gone for good -----

  /** No data packet numbered `m` among these. */
  ghost predicate NoData(fs: seq<Frame>, m: nat) {
    forall i :: 0 <= i < |fs| && HasType(fs[i].header.typ, UDX_HEADER_DATA) ==> fs[i].header.seqno != m
  }

  /** The sender of `s` will not send packet `m` any more. */
  ghost predicate Spent(s: State, m: nat) {
    && Inv(s) && s.snd.remoteAcked <= m < s.snd.nextSeq
    && m in s.snd.outgoing && Exhausted(s.snd.outgoing[m])
    && NoData(s.queue, m)
  }

  lemma NoDataConcat(fs: seq<Frame>, gs: seq<Frame>, m: nat)
    requires NoData(fs, m) && NoData(gs, m)
    ensures NoData(fs + gs, m)
  {
  }

  lemma SendStateNoData(s: State, m: nat)
    requires NoData(s.queue, m)
    ensures NoData(SendState(s).queue, m)
  {
    NoDataConcat(s.queue, [SendState(s).queue[|s.queue|]], m);
  }

  lemma TerminateNoData(s: State, e: UdxError, m: nat)
    requires NoData(s.queue, m)
    ensures NoData(Terminate(s, e).queue, m)
  {
    SendStateNoData(s.(error := Some(e), phase := s.phase.CloseLocal()), m);
  }

  lemma IncomingNoData(s: State, f: Frame, now: nat, m: nat)
    requires NoData(s.queue, m)
    ensures NoData(HandleIncoming(s, f, now).queue, m)
  {
    hide TakeSacks, Terminate, SendState, Insert;
    TakeSacksFrame(CountRx(s), f, now);
    var sacked := TakeSacks(CountRx(s), f, now);
    TerminateNoData(sacked.(phase := sacked.phase.CloseRemote()), UnexpectedEof, m);
    var ended := TakeEnd(sacked, f);
    SendStateNoData(Store(ended, f), m);
  }

  lemma {:induction false} BatchNoData(s: State, batch: seq<Frame>, now: nat, m: nat)
    requires NoData(s.queue, m)
    ensures NoData(HandleAll(s, batch, now).queue, m)
    decreases |batch|
  {
    hide HandleIncoming, NoData;
    if batch != [] {
      IncomingNoData(s, batch[0], now, m);
      BatchNoData(HandleIncoming(s, batch[0], now), batch[1..], now, m);
    }
  }

  lemma {:induction false} ChunksNoData(s: State, buf: seq<Byte>, m: nat)
    requires NoData(s.queue, m) && m < s.snd.nextSeq
    ensures NoData(SendChunks(s, buf).0.queue, m)
    decreases |buf|
  {
    var len := Min(|buf|, UDX_MAX_DATA_SIZE);
    if buf != [] && s.snd.inflight + len <= s.snd.cwnd {
      ChunksNoData(SendData(s, buf[..len]), buf[len..], m);
    }
  }

  /** A timeout stops at the spent packet, and the flush does not touch it. */
  lemma RetransmitSpent(s: State, timer: bool, now: nat, m: nat)
    requires Spent(s, m)
    ensures var d := Retransmit(s, timer, now);
      && m in d.s.snd.outgoing && d.s.snd.outgoing[m] == s.snd.outgoing[m]
      && d.s.snd.remoteAcked == s.snd.remoteAcked && d.s.snd.nextSeq == s.snd.nextSeq
      && NoData(d.s.queue, m) && NoData(d.sent, m)
  {
    hide Inv, CheckTimeouts, Flush, Terminate;
    SpentTimeout(s.snd, timer, m);
    LostKeepsRange(s.snd, timer);
    RetransmitKeepsSeq(s, timer, now);
    RetransmitKeepsKeySet(s, timer, now);
    var checked := CheckTimer(s, timer, now).0;
    if CheckTimeouts(s.snd, timer).1 {
      SpentFlush(s, m);
      FlushKeepsFrame(checked, m);
      FlushSenderOnly(s, checked);
      FlushQueueOnly(s, checked);
    } else {
      TerminateNoData(checked, TimedOut, m);
      TerminateKeepsSender(checked);
    }
  }

  lemma TerminateKeepsSender(s: State)
    ensures Terminate(s, TimedOut).snd == s.snd
  {
  }

  lemma FlushQueueOnly(s: State, s': State)
    requires s'.snd == s.snd && s'.queue == s.queue
    ensures Flush(s').queue == Flush(s).queue
  {
  }

  lemma SpentTimeout(snd: Sender, timer: bool, m: nat)
    requires m in snd.outgoing && snd.remoteAcked <= m < snd.nextSeq && Exhausted(snd.outgoing[m])
    ensures var (snd', ok) := CheckTimeouts(snd, timer);
      && (ok ==> snd' == snd) && m in snd'.outgoing && snd'.outgoing[m] == snd.outgoing[m]
  {
    hide Total;
    BeforeFirstExhausted(snd.outgoing, snd.remoteAcked, snd.nextSeq);
  }

  lemma SpentFlush(s: State, m: nat)
    requires Spent(s, m)
    ensures NoData(Flush(s).queue, m)
  {
    hide FlushStop, WaitingFrames, Total;
    var snd := s.snd;
    var stop := FlushStop(snd.outgoing, snd.remoteAcked, snd.nextSeq, snd.inflight, snd.cwnd);
    SeqnosAreKeys(snd);
    WaitingFramesExact(snd.outgoing, snd.remoteAcked, stop);
    var w := WaitingFrames(snd.outgoing, snd.remoteAcked, stop);
    assert forall i :: 0 <= i < |w| ==> w[i] in w && IsWaitingFrame(w[i], snd.outgoing, snd.remoteAcked, stop);
    NoDataConcat(s.queue, w, m);
  }

  lemma PollSpent(s: State, a: Action, m: nat)
    requires Spent(s, m) && a.DriveOnce?
    requires forall i :: 0 <= i < |a.batch| ==> NoSack(a.batch[i]) && a.batch[i].header.ack <= m
    ensures Spent(Apply(s, a), m) && NoData(Drive(s, a.batch, a.hungUp, a.timer, a.now).sent, m)
  {
    hide HandleAll, Received, Retransmit, SenderInv, ReceiverInv, NoData, Terminate;
    ApplyInv(s, a);
    HasOutgoing(s, m);
    var awake := s.(driveWaker := false);
    ReceivedSpent(awake, a.batch, a.now, m);
    var all := HandleAll(awake, a.batch, a.now);
    NothingSent(m);
    if !s.finished {
      if a.hungUp {
        TerminateNoData(all, BrokenPipe, m);
        TerminateSender(all, BrokenPipe);
      } else {
        RetransmitSpent(Received(awake, a.batch, a.now), a.timer, a.now, m);
      }
    }
  }

  lemma TerminateSender(s: State, e: UdxError)
    ensures Terminate(s, e).snd == s.snd
  {
  }

  lemma NothingSent(m: nat)
    ensures NoData([], m)
  {
  }

  lemma ReceivedSpent(s: State, batch: seq<Frame>, now: nat, m: nat)
    requires Spent(s, m) && !s.driveWaker
    requires forall i :: 0 <= i < |batch| ==> NoSack(batch[i]) && batch[i].header.ack <= m
    ensures Spent(Received(s, batch, now), m)
    ensures var all := HandleAll(s, batch, now);
      && NoData(all.queue, m) && m in all.snd.outgoing && all.snd.outgoing[m] == s.snd.outgoing[m]
      && all.snd.remoteAcked == s.snd.remoteAcked && all.snd.nextSeq == s.snd.nextSeq
  {
    hide HandleAll, HandleAck, NoData, SenderInv, ReceiverInv;
    BatchNoData(s, batch, now, m);
    HandleAllFrame(s, batch, now);
    ReceivedInv(s, batch, now);
    MaxAckBelow(batch, m);
    AckSpares(HandleAll(s, batch, now), MaxAck(batch), now, m);
  }

  lemma AckSpares(s: State, ack: nat, now: nat, m: nat)
    requires ack <= m && s.snd.remoteAcked <= m && m in s.snd.outgoing
    ensures var s' := HandleAck(s, ack, now);
      && s'.snd.remoteAcked <= m && s'.snd.nextSeq == s.snd.nextSeq && s'.queue == s.queue
      && m in s'.snd.outgoing && s'.snd.outgoing[m] == s.snd.outgoing[m]
  {
    hide Samples, Total;
  }

  lemma StepSpent(s: State, a: Action, m: nat)
    requires Spent(s, m)
    requires a.DriveOnce? ==> forall i :: 0 <= i < |a.batch| ==> NoSack(a.batch[i]) && a.batch[i].header.ack <= m
    ensures Spent(Apply(s, a), m)
  {
    hide Inv, Drive, PollWrite, ReadNext, NoData, Terminate;
    if a.DriveOnce? {
      PollSpent(s, a, m);
    } else {
      ApplyInv(s, a);
      if a.Write? {
        WriteSpent(s, a.buf, m);
      } else if a.CloseStream? {
        TerminateNoData(s, ConnectionReset, m);
        TerminateSender(s, ConnectionReset);
      }
    }
  }

  lemma WriteSpent(s: State, buf: seq<Byte>, m: nat)
    requires Spent(s, m)
    ensures var s' := PollWrite(s, buf).0;
      && s'.snd.remoteAcked == s.snd.remoteAcked && m < s'.snd.nextSeq
      && m in s'.snd.outgoing && s'.snd.outgoing[m] == s.snd.outgoing[m] && NoData(s'.queue, m)
  {
    hide Inv, SendChunks, NoData;
    if s.error.None? {
      SendChunksAdds(s, buf);
      ChunksNoData(s, buf, m);
    }
  }

  /** The receiver of `s` has not got packet `m` and will not get past it. */
  ghost predicate Lacks(rcv: Receiver, m: nat) {
    rcv.ack <= m && m !in rcv.incoming
  }

  lemma InsertLacks(rcv: Receiver, f: Frame, m: nat)
    requires Lacks(rcv, m) && f.header.seqno != m
    ensures Lacks(Insert(rcv, f), m)
  {
    var rcv' := Insert(rcv, f);
    assert m < rcv'.ack ==> m in rcv'.incoming.Keys;
  }

  lemma {:induction false} BatchLacks(s: State, batch: seq<Frame>, now: nat, m: nat)
    requires Lacks(s.rcv, m) && NoData(batch, m)
    ensures Lacks(HandleAll(s, batch, now).rcv, m)
    decreases |batch|
  {
    hide HandleIncoming, Insert, Lacks;
    if batch != [] {
      IncomingInserts(s, batch[0], now);
      if HasType(batch[0].header.typ, UDX_HEADER_DATA) {
        InsertLacks(s.rcv, batch[0], m);
      }
      BatchLacks(HandleIncoming(s, batch[0], now), batch[1..], now, m);
    }
  }

  lemma StepLacks(s: State, a: Action, m: nat)
    requires ReceiverInv(s.rcv) && Lacks(s.rcv, m) && (a.DriveOnce? ==> NoData(a.batch, m))
    ensures Lacks(Apply(s, a).rcv, m)
  {
    hide ReceiverInv, HandleAll, CheckTimeouts, Flush, SendChunks;
    match a
    case Write(buf) => SendChunksOnlyAppends(s, buf);
    case Read(room) => ReadNextInv(s.rcv, room);
    case DriveOnce(batch, _, _, now) =>
      var awake := s.(driveWaker := false);
      BatchLacks(awake, batch, now, m);
      DriveKeepsReceiver(s, a);
    case CloseStream =>
    case StampSent(_, _) =>
  }

  lemma DriveKeepsReceiver(s: State, a: Action)
    requires a.DriveOnce?
    ensures var rcv := Apply(s, a).rcv; rcv == s.rcv || rcv == HandleAll(s.(driveWaker := false), a.batch, a.now).rcv
  {
    hide HandleAll, CheckTimeouts, FlushStop, WaitingFrames;
  }

  /** Packet `m` is in nobody's hands but the sender's, who will not send it. */
  ghost predicate Gone(n: Net, m: nat) {
    NetInv(n) && Spent(n.a, m) && m !in Copies(n.fromA) && Lacks(n.b.rcv, m)
  }

  lemma SpentDrive(n: Net, act: Action, m: nat)
    requires Gone(n, m) && Enabled(n, MoveA(act))
    ensures Spent(Apply(n.a, act), m) && m !in Copies(StepA(n, act).fromA)
  {
    hide NetInv, Spent, Apply, Drive, PollWrite, PollRead, Close, Stamp;
    if act.DriveOnce? {
      BatchIsPlain(n, act.batch);
      PollSpent(n.a, act, m);
      var sent := Drive(n.a, act.batch, act.hungUp, act.timer, act.now).sent;
      assert StepA(n, act).fromA == n.fromA + (set f | f in sent);
      assert forall f :: f in sent && HasType(f.header.typ, UDX_HEADER_DATA) ==> f.header.seqno != m;
    } else {
      StepSpent(n.a, act, m);
    }
  }

  lemma GoneStaysGone(n: Net, move: Move, m: nat)
    requires Gone(n, m) && Enabled(n, move)
    ensures Gone(Step(n, move), m)
  {
    hide NetInv, Spent, Lacks, StepA, Apply;
    StepInv(n, move);
    match move
    case MoveA(act) =>
      SpentDrive(n, act, m);
      StepAActs(n, act);
    case MoveB(act) =>
      StepAActs(n.Mirror(), act);
      StepAKeepsPeer(n.Mirror(), act);
      PeerIsBetween(n);
      if act.DriveOnce? {
        NoCopyDelivered(n, act.batch, m);
      }
      StepLacks(n.b, act, m);
    case Drop(_, _) =>
  }

  lemma NoCopyDelivered(n: Net, batch: seq<Frame>, m: nat)
    requires m !in Copies(n.fromA) && forall f :: f in batch ==> f in n.fromA
    ensures NoData(batch, m)
  {
    forall i | 0 <= i < |batch| && HasType(batch[i].header.typ, UDX_HEADER_DATA)
      ensures batch[i].header.seqno != m
    {
      var f := batch[i];
      assert f in batch;
      assert f.header.seqno in Copies(n.fromA);
    }
  }

  lemma {:induction false} GoneForGood(n: Net, moves: seq<Move>, m: nat)
    requires Gone(n, m) && AllEnabled(n, moves)
    ensures Gone(Exec(n, moves), m)
  {
    hide Gone, Step, Enabled;
    if moves != [] {
      GoneForGood(n, moves[..|moves| - 1], m);
      GoneStaysGone(Exec(n, moves[..|moves| - 1]), moves[|moves| - 1], m);
    }
  }

  // ----- exactly when everything can still be delivered -----

  /** Some continuation gives the reader everything the writer has accepted by then. */
  ghost predicate CanBeDelivered(n: Net) {
    exists moves :: AllEnabled(n, moves) && Exec(n, moves).gotB == Exec(n, moves).accA
  }

  lemma ReadsAll(n: Net)
    requires NetInv(n) && n.b.rcv.ack == n.a.snd.nextSeq
    ensures var n' := Step(n, MoveB(Read(|Readable(n.b.rcv)|))); n'.gotB == n.accA && n'.accA == n.accA
  {
    hide Inv, Sends;
    assert Linked(n) && Linked(n.Mirror());
    assert n.a.snd.log[..n.b.rcv.ack] == n.a.snd.log;
    var all := Readable(n.b.rcv);
    PeerIsBetween(n);
    ReadNextInv(n.b.rcv, |all|);
    var (rcv', bytes, _) := ReadNext(n.b.rcv, |all|);
    assert bytes + Readable(rcv') == all && |bytes| == |all|;
    assert bytes == all;
  }

  /** What a network run says about side A as a stream of its own. */
  lemma SideFacts(n: Net)
    requires Reachable(n)
    ensures NetInv(n) && InOrder(n.a.snd) && QueueFresh(n.a) && Settled(n.a) && Settled(n.b)
  {
    hide NetInv, InOrder, QueueFresh, Settled, Run, Exec;
    ReachableInv(n);
    ReachableSettled(n);
    var idA, idB, moves :| AllEnabled(Start(idA, idB), moves) && n == Exec(Start(idA, idB), moves);
    SideIsRun(idA, idB, moves);
    OlderTriedMore(idB, ActsOfA(moves));
    LostIsNotQueued(idB, ActsOfA(moves));
  }

  /**
   From every reachable state in which the receiver has everything, or its driver runs and the first
   packet that has to be sent again may still be, some continuation delivers to the reader every byte
   the writer had accepted.
   */
  lemma EverythingCanBeDelivered(n: Net) returns (moves: seq<Move>)
    requires Reachable(n) && (n.b.rcv.ack == n.a.snd.nextSeq || (!n.b.finished && StillTried(n)))
    ensures AllEnabled(n, moves)
    ensures Exec(n, moves).gotB == n.accA && Exec(n, moves).accA == n.accA
  {
    hide NetInv, InOrder, QueueFresh, Step, Readable, Missing, Patience;
    SideFacts(n);
    PeerIsBetween(n);
    NoMoves(n);
    moves := [];
    if n.b.rcv.ack != n.a.snd.nextSeq {
      assert n.b.rcv.ack in n.a.snd.outgoing;
      moves := AllAcknowledged(n);
    }
    var n1 := Exec(n, moves);
    ReadsAll(n1);
    var read := MoveB(Read(|Readable(n1.b.rcv)|));
    OneMore(n, moves, read);
    moves := moves + [read];
  }

  lemma MissingIsGone(n: Net)
    requires NetInv(n) && QueueFresh(n.a) && !StillTried(n)
    ensures Gone(n, Missing(n))
  {
    hide NetInv;
    MissingIsBelow(n);
    PeerIsBetween(n);
    SideInv(n);
    PatienceOfDue(n.a, Missing(n));
    var m := Missing(n);
    assert PacketOk(n.a.snd.outgoing[m], m, n.a.snd.log[m]);
    assert m !in Available(n);
  }

  /**
   In every reachable state, whatever has been lost, everything can still be delivered if and only if
   the receiver has it all, or its driver runs and the first packet that neither is with the receiver
   nor under way has patience left.
   */
  lemma DeliverableExactly(n: Net)
    requires Reachable(n)
    ensures CanBeDelivered(n) <==> n.b.rcv.ack == n.a.snd.nextSeq || (!n.b.finished && StillTried(n))
  {
    hide NetInv, InOrder, Exec, AllEnabled, StillTried, QueueFresh, Settled;
    SideFacts(n);
    if n.b.rcv.ack == n.a.snd.nextSeq || (!n.b.finished && StillTried(n)) {
      var moves := EverythingCanBeDelivered(n);
    } else {
      PeerIsBetween(n);
      forall moves | AllEnabled(n, moves) ensures Exec(n, moves).gotB != Exec(n, moves).accA {
        if n.b.finished {
          FinishedReceiverIsDeaf(n, moves);
          ExecKeepsSeq(n, moves);
        } else {
          MissingIsGone(n);
          GoneForGood(n, moves, Missing(n));
          GoneIsNotDelivered(Exec(n, moves), Missing(n));
        }
      }
    }
  }

  lemma GoneIsNotDelivered(n: Net, m: nat)
    requires Gone(n, m)
    ensures n.gotB != n.accA
  {
    hide NetInv, Inv;
    if n.gotB == n.accA {
      DeliveredMeansAcknowledged(n);
    }
  }

  /** The state in which everything under way has been lost. */
  function AllLost(n: Net): Net {
    n.(fromA := {}, fromB := {})
  }

  lemma AllLostIsReachable(n: Net)
    requires Reachable(n)
    ensures Reachable(AllLost(n))
  {
    hide Exec, Start;
    var idA, idB, moves :| AllEnabled(Start(idA, idB), moves) && n == Exec(Start(idA, idB), moves);
    var all := Drop(n.fromA, n.fromB);
    OneMore(Start(idA, idB), moves, all);
    assert Step(n, all) == AllLost(n);
    assert Reachable(Exec(Start(idA, idB), moves + [all]));
  }

  /** If everything under way is lost, the patience of the packet the receiver is waiting for decides. */
  lemma DeliverableAfterLoss(n: Net)
    requires Reachable(n)
    ensures n.b.rcv.ack != n.a.snd.nextSeq ==> n.b.rcv.ack in n.a.snd.outgoing
    ensures CanBeDelivered(AllLost(n)) <==>
      || n.b.rcv.ack == n.a.snd.nextSeq
      || (!n.b.finished && Patience(n.a.snd.outgoing[n.b.rcv.ack]) > 0)
  {
    hide NetInv, CanBeDelivered;
    AllLostIsReachable(n);
    DeliverableExactly(AllLost(n));
    ReachableInv(n);
    PeerIsBetween(n);
    NotYetReceived(n.b.rcv);
    GapUnique(Available(AllLost(n)), n.b.rcv.ack, n.b.rcv.ack);
  }

  /** If nothing has been lost, only a completed driver stands in the way. */
  lemma DeliverableWithoutLoss(n: Net)
    requires Reachable(n)
    requires forall k :: k in n.a.snd.outgoing ==>
      n.a.snd.outgoing[k].ToFrame() in n.fromA || n.a.snd.outgoing[k].ToFrame() in n.a.queue
    ensures CanBeDelivered(n) <==> !n.b.finished || n.b.rcv.ack == n.a.snd.nextSeq
  {
    hide NetInv, CanBeDelivered, InOrder, Settled, QueueFresh, Reachable;
    DeliverableExactly(n);
    SideFacts(n);
    SideInv(n);
    if Missing(n) in n.a.snd.outgoing {
      hide Inv;
      QueuedHasPatience(n, Missing(n));
    }
  }

  lemma QueuedHasPatience(n: Net, m: nat)
    requires Inv(n.a) && QueueFresh(n.a) && m in n.a.snd.outgoing && m !in Available(n)
    requires var f := n.a.snd.outgoing[m].ToFrame(); f in n.fromA || f in n.a.queue
    ensures Patience(n.a.snd.outgoing[m]) > 0
  {
    assert PacketOk(n.a.snd.outgoing[m], m, n.a.snd.log[m]);
    var f := n.a.snd.outgoing[m].ToFrame();
    assert f in n.fromA ==> m in Available(n);
    assert f in n.a.queue ==> FreshAt(n.a.snd, m);
  }

  // ----- an example -----

  function AllOfA(acts: seq<Action>): seq<Move> {
    if acts == [] then [] else AllOfA(acts[..|acts| - 1]) + [MoveA(acts[|acts| - 1])]
  }

  ghost predicate NothingArrives(acts: seq<Action>) {
    forall i :: 0 <= i < |acts| && acts[i].DriveOnce? ==> acts[i].batch == []
  }

  lemma {:induction false} OnlyA(idA: nat, idB: nat, acts: seq<Action>)
    requires NothingArrives(acts)
    ensures var moves := AllOfA(acts);
      && AllEnabled(Start(idA, idB), moves) && ActsOfA(moves) == acts
      && Exec(Start(idA, idB), moves).b == Connect(idA)
  {
    hide StepA, Connect;
    if acts != [] {
      var init := acts[..|acts| - 1];
      OnlyA(idA, idB, init);
      assert AllOfA(acts)[..|AllOfA(acts)| - 1] == AllOfA(init);
      StepAKeepsPeer(Exec(Start(idA, idB), AllOfA(init)), acts[|acts| - 1]);
      assert acts == init + [acts[|acts| - 1]];
    }
  }

  lemma PatienceAfterTicks(id: nat, n: nat)
    requires n <= 6
    ensures var s := Run(Connect(id), [Write([7])] + Ticks(n));
      0 in s.snd.outgoing && Patience(s.snd.outgoing[0]) == 6 - n && s.snd.nextSeq > 0
  {
    hide Run, Inv, InOrder, NeverGivesUp, Firings, KeepsFitting, Ticks;
    var first := [Write([7])];
    var s := Run(Connect(id), first);
    OneByteOutstanding(id);
    InvAlways(id, first);
    OlderTriedMore(id, first);
    PatientTicks(s, 0, n);
    OneByteFits(id);
    TicksAreSilent(n, s.snd.remoteAcked);
    FiringsUsePatience(s, 0, Ticks(n));
    RunConcat(Connect(id), first, Ticks(n));
    InvAlways(id, first + Ticks(n));
    SenderOfInv(Run(Connect(id), first + Ticks(n)), 0);
  }

  lemma SenderOfInv(s: State, k: nat)
    requires Inv(s) && k in s.snd.outgoing
    ensures k < s.snd.nextSeq
  {
  }

  lemma OneByteFits(id: nat)
    ensures var s := Run(Connect(id), [Write([7])]); FirstDue(s.snd, 0) && KeepsFitting(s.snd, 0)
  {
    hide Run, Inv, Halved;
    OneByteOutstanding(id);
    InvAlways(id, [Write([7])]);
    var snd := Run(Connect(id), [Write([7])]).snd;
    OneByteState(id);
    assert OutOfReach(snd) == 0;
    HalvedShrinks(snd.cwnd, 0, 6);
  }

  lemma OneByteState(id: nat)
    ensures var snd := Run(Connect(id), [Write([7])]).snd;
      snd.remoteAcked == 0 && snd.cwnd == 2 * UDX_MTU && 0 in snd.outgoing && snd.outgoing[0].Len() == 21
  {
    hide Drive, PollRead;
    RunOne(Connect(id), Write([7]));
    OneByte(Connect(id), 7);
  }

  /**
   A byte is written, the timer fires `n` times, and everything under way is lost. The byte can still
   be delivered exactly if `n` is less than six.
   */
  lemma SevenLossesAreFatal(idA: nat, idB: nat, n: nat)
    requires n <= 6
    ensures var moves := AllOfA([Write([7])] + Ticks(n));
      && AllEnabled(Start(idA, idB), moves)
      && (CanBeDelivered(AllLost(Exec(Start(idA, idB), moves))) <==> n < 6)
  {
    hide Run, Exec, Ticks, CanBeDelivered, AllOfA, SoundSide;
    var acts := [Write([7])] + Ticks(n);
    assert NothingArrives(acts) by {
      TicksBringNothing(n);
    }
    OnlyA(idA, idB, acts);
    var moves := AllOfA(acts);
    var net := Exec(Start(idA, idB), moves);
    SideIsRun(idA, idB, moves);
    SideIs(Connect(idB), acts, net.a);
    PatienceAfterTicks(idB, n);
    assert Reachable(net);
    DeliverableAfterLoss(net);
  }

  lemma SideIs(s: State, acts: seq<Action>, now: State)
    requires SoundSide(s, acts, now)
    ensures now == Run(s, acts)
  {
  }

  lemma TicksBringNothing(n: nat)
    ensures NothingArrives([Write([7])] + Ticks(n))
  {
  }
}
