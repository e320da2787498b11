/**
 What the protocol can still achieve from any reachable state, with what the network has lost so
 far lost for good (src/stream.rs:82-114, 354-437). Packets under way may arrive; packets that are
 gone have to be sent again, which the retry cap allows only so often.
 */
module NetworkProgress {
  import opened Constants
  import opened Wire
  import opened Ledger
  import opened StreamModel
  import opened StreamInvariant
  import opened Network
  import opened Reassembly
  import opened Retransmission
  import opened GivingUp

  // ----- a receiver whose driver has completed -----

  lemma ReadKeepsAck(s: State, room: nat)
    requires ReceiverInv(s.rcv)
    ensures PollRead(s, room).s.rcv.ack == s.rcv.ack && PollRead(s, room).s.finished == s.finished
  {
    ReadNextInv(s.rcv, room);
  }

  lemma ActsFinished(n: Net, act: Action)
    requires n.a.finished && ReceiverInv(n.a.rcv)
    ensures StepA(n, act).a.finished && StepA(n, act).a.rcv.ack == n.a.rcv.ack
    ensures StepA(n, act).b == n.b
  {
    hide ReceiverInv;
    match act
    case Write(buf) => SendChunksOnlyAppends(n.a, buf);
    case Read(room) => ReadKeepsAck(n.a, room);
    case CloseStream =>
    case DriveOnce(_, _, _, _) =>
    case StampSent(_, _) =>
  }

  lemma StepFinished(n: Net, m: Move)
    requires n.b.finished && ReceiverInv(n.b.rcv)
    ensures Step(n, m).b.finished && Step(n, m).b.rcv.ack == n.b.rcv.ack
  {
    hide ReceiverInv, PollWrite, PollRead, Drive, Stamp, Close;
    if m.MoveB? {
      ActsFinished(n.Mirror(), m.act);
    }
  }

  /** A reader that has everything had everything acknowledged, because no packet is empty. */
  lemma DeliveredMeansAcknowledged(n: Net)
    requires NetInv(n) && n.gotB == n.accA
    ensures n.b.rcv.ack == n.a.snd.nextSeq
  {
    hide Inv, Sends, Readable;
    assert Linked(n);
    var log, ack := n.a.snd.log, n.b.rcv.ack;
    if ack < n.a.snd.nextSeq {
      OutstandingIsNotEmpty(n, ack);
      assert log == log[..ack] + ([log[ack]] + log[ack + 1..]);
      FlattenConcat(log[..ack], [log[ack]] + log[ack + 1..]);
      FlattenFront(log[ack], log[ack + 1..]);
    }
  }

  lemma OutstandingIsNotEmpty(n: Net, k: nat)
    requires NetInv(n) && n.a.snd.remoteAcked <= k < n.a.snd.nextSeq
    ensures k < |n.a.snd.log| && n.a.snd.log[k] != []
  {
    assert Linked(n) && k in n.a.snd.outgoing;
    assert PacketOk(n.a.snd.outgoing[k], k, n.a.snd.log[k]);
  }

  /**
   A driver that has stopped acknowledges nothing more, so its reader never gets past that point,
   and has everything only if that was the end.
   */
  lemma {:induction false} FinishedReceiverIsDeaf(n: Net, moves: seq<Move>)
    requires NetInv(n) && n.b.finished && AllEnabled(n, moves)
    ensures var n' := Exec(n, moves);
      && NetInv(n') && n'.b.finished && n'.b.rcv.ack == n.b.rcv.ack <= |n'.a.snd.log|
      && n'.gotB <= Flatten(n'.a.snd.log[..n.b.rcv.ack])
      && (n'.gotB == n'.accA ==> n'.a.snd.nextSeq == n.b.rcv.ack)
  {
    if Exec(n, moves).gotB == Exec(n, moves).accA {
      ExecInv(n, moves);
      DeliveredMeansAcknowledged(Exec(n, moves));
    }
    if moves == [] {
      assert Linked(n);
    } else {
      hide NetInv, Step, ReceiverInv;
      var init, last := moves[..|moves| - 1], moves[|moves| - 1];
      FinishedReceiverIsDeaf(n, init);
      PeerIsBetween(Exec(n, init));
      StepFinished(Exec(n, init), last);
      StepInv(Exec(n, init), last);
      GotIsLogged(Exec(n, moves));
    }
  }

  lemma GotIsLogged(n: Net)
    requires NetInv(n)
    ensures n.b.rcv.ack <= |n.a.snd.log| && n.gotB <= Flatten(n.a.snd.log[..n.b.rcv.ack])
  {
    assert Linked(n);
  }

  // ----- drivers that complete, numbers that grow -----

  /** A completed driver has nothing outstanding, and its stream is closed. */
  ghost predicate Settled(s: State) {
    s.finished ==> s.error.Some? && s.snd.outgoing == map[]
  }

  lemma StepSettled(s: State, a: Action)
    requires Settled(s)
    ensures Settled(Apply(s, a))
  {
    hide ReadNext, HandleAll, Retransmit, SendChunks;
    if a.Write? {
      SendChunksOnlyAppends(s, a.buf);
    } else if a.DriveOnce? && !s.finished {
      hide Apply;
      DriveFinishes(s, a);
      assert |s.snd.outgoing| == 0 ==> s.snd.outgoing == map[];
    }
  }

  /** Only a closed and drained stream completes its driver. */
  lemma DriveFinishes(s: State, a: Action)
    requires a.DriveOnce? && !s.finished
    ensures Apply(s, a).finished <==> ClosedAndDrained(s.(driveWaker := false))
    ensures Apply(s, a).finished ==> Apply(s, a).snd == s.snd && Apply(s, a).error == s.error
  {
    hide HandleAll, HandleAck, CheckTimeouts;
    HandleAllFrame(s.(driveWaker := false), a.batch, a.now);
    AckKeepsRunning(HandleAll(s.(driveWaker := false), a.batch, a.now), MaxAck(a.batch), a.now);
  }

  lemma AckKeepsRunning(s: State, ack: nat, now: nat)
    ensures HandleAck(s, ack, now).finished == s.finished
  {
  }

  lemma {:induction false} ExecSettled(n: Net, moves: seq<Move>)
    requires Settled(n.a) && Settled(n.b)
    ensures Settled(Exec(n, moves).a) && Settled(Exec(n, moves).b)
  {
    hide Settled, Apply, StepA;
    if moves != [] {
      var init, last := Exec(n, moves[..|moves| - 1]), moves[|moves| - 1];
      ExecSettled(n, moves[..|moves| - 1]);
      if last.MoveA? {
        StepAActs(init, last.act);
        StepSettled(init.a, last.act);
      } else if last.MoveB? {
        StepAActs(init.Mirror(), last.act);
        StepSettled(init.b, last.act);
      }
    }
  }

  lemma ReachableSettled(n: Net)
    requires Reachable(n)
    ensures Settled(n.a) && Settled(n.b)
  {
    var idA, idB, moves :| AllEnabled(Start(idA, idB), moves) && n == Exec(Start(idA, idB), moves);
    ExecSettled(Start(idA, idB), moves);
  }

  lemma StepKeepsSeq(n: Net, m: Move)
    ensures n.a.snd.nextSeq <= Step(n, m).a.snd.nextSeq
  {
    hide PollRead, Close, Drive, StepA, PollWrite;
    if m.MoveA? {
      StepAActs(n, m.act);
      ActKeepsSeq(n.a, m.act);
    } else if m.MoveB? {
      StepAActs(n.Mirror(), m.act);
    }
  }

  lemma ActKeepsSeq(s: State, a: Action)
    ensures s.snd.nextSeq <= Apply(s, a).snd.nextSeq
  {
    hide ReadNext, HandleAll, HandleAck, Retransmit, SendChunks;
    match a
    case Write(buf) => ChunksKeepSeq(s, buf);
    case DriveOnce(batch, _, timer, now) =>
      var awake := s.(driveWaker := false);
      HandleAllFrame(awake, batch, now);
      AckKeepsSeq(HandleAll(awake, batch, now), MaxAck(batch), now);
      RetransmitKeepsSeq(Received(awake, batch, now), timer, now);
    case Read(_) =>
    case CloseStream =>
    case StampSent(_, _) =>
  }

  lemma AckKeepsSeq(s: State, ack: nat, now: nat)
    ensures HandleAck(s, ack, now).snd.nextSeq == s.snd.nextSeq
  {
  }

  lemma RetransmitKeepsSeq(s: State, timer: bool, now: nat)
    ensures Retransmit(s, timer, now).s.snd.nextSeq == s.snd.nextSeq
  {
    hide FirstExhausted, FlushStop, WaitingFrames, Total;
  }

  lemma {:induction false} ChunksKeepSeq(s: State, buf: seq<Byte>)
    ensures s.snd.nextSeq <= SendChunks(s, buf).0.snd.nextSeq
    decreases |buf|
  {
    var len := Min(|buf|, UDX_MAX_DATA_SIZE);
    if buf != [] && s.snd.inflight + len <= s.snd.cwnd {
      ChunksKeepSeq(SendData(s, buf[..len]), buf[len..]);
    }
  }

  lemma {:induction false} ExecKeepsSeq(n: Net, moves: seq<Move>)
    ensures n.a.snd.nextSeq <= Exec(n, moves).a.snd.nextSeq
  {
    hide Step;
    if moves != [] {
      ExecKeepsSeq(n, moves[..|moves| - 1]);
      StepKeepsSeq(Exec(n, moves[..|moves| - 1]), moves[|moves| - 1]);
    }
  }

  // ----- bookkeeping -----

  lemma PeerIsBetween(n: Net)
    requires NetInv(n)
    ensures n.a.snd.remoteAcked <= n.b.rcv.ack <= n.a.snd.nextSeq && ReceiverInv(n.b.rcv) && SenderInv(n.a.snd)
    ensures forall k :: k in n.a.snd.outgoing <==> n.a.snd.remoteAcked <= k < n.a.snd.nextSeq
  {
    assert Linked(n) && Linked(n.Mirror());
  }

  lemma OneMore(n: Net, moves: seq<Move>, m: Move)
    requires AllEnabled(n, moves) && Enabled(Exec(n, moves), m)
    ensures AllEnabled(n, moves + [m]) && Exec(n, moves + [m]) == Step(Exec(n, moves), m)
  {
    hide Step;
    assert (moves + [m])[..|moves|] == moves;
  }

  lemma NoMoves(n: Net)
    ensures AllEnabled(n, []) && Exec(n, []) == n
  {
  }

  /** Side B after `moves`, with side A and its packets as they were. */
  ghost predicate OnlyB(n: Net, n': Net) {
    && NetInv(n') && n'.a == n.a && n'.fromA == n.fromA && n'.accA == n.accA && n.fromB <= n'.fromB
    && !n'.b.finished
  }

  lemma PollsB(n: Net, act: Action)
    requires NetInv(n) && act.DriveOnce? && Enabled(n, MoveB(act))
    requires !n.b.finished && !ClosedAndDrained(n.b.(driveWaker := false))
    ensures var n' := Step(n, MoveB(act));
      && OnlyB(n, n') && n'.b == Apply(n.b, act)
      && n'.fromB == n.fromB + (set f | f in Drive(n.b, act.batch, act.hungUp, act.timer, act.now).sent)
  {
    hide NetInv, Drive;
    StepInv(n, MoveB(act));
    DriveFinishes(n.b, act);
  }

  /** A receiver that is closed and drained but still has a driver goes on after another `close()`. */
  lemma KeepOpen(n: Net) returns (moves: seq<Move>)
    requires NetInv(n) && !n.b.finished
    ensures AllEnabled(n, moves)
    ensures var n' := Exec(n, moves);
      OnlyB(n, n') && n'.b.rcv == n.b.rcv && !ClosedAndDrained(n'.b.(driveWaker := false))
  {
    hide NetInv;
    NoMoves(n);
    if ClosedAndDrained(n.b.(driveWaker := false)) {
      OneMore(n, [], MoveB(CloseStream));
      moves := [] + [MoveB(CloseStream)];
      StepInv(n, MoveB(CloseStream));
    } else {
      moves := [];
    }
  }

  // ----- what the receiver answers -----

  function Deliver(f: Frame): Action {
    DriveOnce([f], false, false, 0)
  }

  lemma InsertPasses(rcv: Receiver, f: Frame)
    requires ReceiverInv(rcv) && f.header.seqno <= rcv.ack
    ensures f.header.seqno < Insert(rcv, f).ack
  {
    InsertInv(rcv, f);
    assert f.header.seqno == rcv.ack ==> Insert(rcv, f).ack != rcv.ack;
  }

  lemma HandleOne(s: State, f: Frame, now: nat)
    ensures HandleAll(s, [f], now) == HandleIncoming(s, f, now) && MaxAck([f]) == f.header.ack
  {
    hide HandleIncoming;
    var handled := HandleIncoming(s, f, now);
    assert [f][1..] == [] && [f][..0] == [];
    assert HandleAll(s, [f], now) == HandleAll(handled, [], now) == handled;
    assert MaxAck([]) == 0;
  }

  /** The last thing a data packet causes is a packet with the acknowledgement that is current then. */
  lemma DataIsAnswered(s: State, f: Frame, now: nat)
    requires HasType(f.header.typ, UDX_HEADER_DATA)
    ensures var s' := HandleIncoming(s, f, now);
      s'.queue != [] && s'.queue[|s'.queue| - 1].header.ack == s'.rcv.ack
  {
    hide TakeSacks, TakeEnd, Insert;
  }

  /** What a poll without a timer hands over begins with what is on the queue after receiving. */
  lemma QueueIsSent(s: State, timer: bool, now: nat)
    requires CheckTimeouts(s.snd, timer).1
    ensures s.queue <= Retransmit(s, timer, now).sent && Retransmit(s, timer, now).s.rcv == s.rcv
  {
    hide CheckTimeouts, FlushStop, WaitingFrames, MarkSent;
  }

  lemma ReceivedOne(s: State, f: Frame, now: nat)
    ensures var r := Received(s, [f], now);
      r.queue == HandleIncoming(s, f, now).queue && r.rcv == HandleIncoming(s, f, now).rcv
  {
    hide HandleAll, HandleIncoming, MaxAck;
    HandleOne(s, f, now);
  }

  /** A poll with one data packet hands over an acknowledgement of everything received by then. */
  lemma AnswerIsSent(s: State, f: Frame) returns (g: Frame)
    requires HasType(f.header.typ, UDX_HEADER_DATA) && !s.finished && !ClosedAndDrained(s.(driveWaker := false))
    ensures var d := Drive(s, [f], false, false, 0);
      && g in d.sent && g.header.ack == d.s.rcv.ack
      && d.s.rcv == Insert(s.rcv, f)
  {
    hide HandleIncoming, Received, Retransmit, Insert;
    var awake := s.(driveWaker := false);
    DataIsAnswered(awake, f, 0);
    IncomingInserts(awake, f, 0);
    ReceivedOne(awake, f, 0);
    var received := Received(awake, [f], 0);
    QueueIsSent(received, false, 0);
    g := received.queue[|received.queue| - 1];
    assert g == Retransmit(received, false, 0).sent[|received.queue| - 1];
  }

  /** A packet under way that the receiver is waiting for is delivered, and answered. */
  lemma DeliverNext(n: Net, f: Frame) returns (moves: seq<Move>, g: Frame)
    requires NetInv(n) && !n.b.finished
    requires f in n.fromA && HasType(f.header.typ, UDX_HEADER_DATA) && f.header.seqno == n.b.rcv.ack
    ensures AllEnabled(n, moves)
    ensures var n' := Exec(n, moves);
      && OnlyB(n, n') && n'.b.rcv == Insert(n.b.rcv, f) && n.b.rcv.ack < n'.b.rcv.ack
      && g in n'.fromB && g.header.ack == n'.b.rcv.ack
  {
    hide NetInv, Drive, ReceiverInv, ClosedAndDrained, Insert, Step;
    moves := KeepOpen(n);
    var n1 := Exec(n, moves);
    PeerIsBetween(n1);
    g := AnswerIsSent(n1.b, f);
    PollsB(n1, Deliver(f));
    InsertPasses(n1.b.rcv, f);
    OneMore(n, moves, MoveB(Deliver(f)));
    moves := moves + [MoveB(Deliver(f))];
  }

  // ----- what is under way -----

  /** The data packets of which a copy is under way. */
  function Copies(from: set<Frame>): set<nat> {
    set f | f in from && HasType(f.header.typ, UDX_HEADER_DATA) :: f.header.seqno
  }

  /** What the receiver has or may still get without anything being sent again. */
  function Available(n: Net): set<nat> {
    n.b.rcv.incoming.Keys + Copies(n.fromA)
  }

  /** The first packet that has to be sent again, or `seq` if there is none. */
  function Missing(n: Net): nat {
    NextGap(Available(n), n.b.rcv.ack)
  }

  lemma GapUnique(keys: set<nat>, n: nat, g: nat)
    requires n <= g && g !in keys && forall k :: n <= k < g ==> k in keys
    ensures NextGap(keys, n) == g
  {
    var h := NextGap(keys, n);
    assert h < g ==> h in keys;
    assert g < h ==> g in keys;
  }

  lemma MissingIsBelow(n: Net)
    requires NetInv(n)
    ensures n.b.rcv.ack <= Missing(n) <= n.a.snd.nextSeq
    ensures Missing(n) in n.a.snd.outgoing <==> Missing(n) < n.a.snd.nextSeq
  {
    PeerIsBetween(n);
    assert n.a.snd.nextSeq !in Available(n) by {
      assert Linked(n);
    }
    assert n.a.snd.nextSeq < Missing(n) ==> n.a.snd.nextSeq in Available(n);
  }

  lemma InsertKeys(rcv: Receiver, f: Frame)
    requires ReceiverInv(rcv) && f.header.seqno == rcv.ack
    ensures Insert(rcv, f).incoming.Keys == rcv.incoming.Keys + {f.header.seqno}
    ensures Insert(rcv, f).ack == NextGap(rcv.incoming.Keys + {f.header.seqno}, rcv.ack)
  {
  }

  /** Everything up to the first missing packet can be got to the receiver. */
  lemma {:induction false} DeliverCopies(n: Net) returns (moves: seq<Move>)
    requires NetInv(n) && !n.b.finished
    ensures AllEnabled(n, moves)
    ensures OnlyB(n, Exec(n, moves)) && Exec(n, moves).b.rcv.ack == Missing(n)
    decreases Missing(n) - n.b.rcv.ack
  {
    hide NetInv, ReceiverInv, Step, Insert;
    PeerIsBetween(n);
    NoMoves(n);
    var ack := n.b.rcv.ack;
    if ack == Missing(n) {
      moves := [];
    } else {
      assert ack in Available(n) && ack !in n.b.rcv.incoming by {
        NotYetReceived(n.b.rcv);
      }
      var f :| f in n.fromA && HasType(f.header.typ, UDX_HEADER_DATA) && f.header.seqno == ack;
      var first, _ := DeliverNext(n, f);
      var n1 := Exec(n, first);
      NextIsCloser(n, n1, f);
      var rest := DeliverCopies(n1);
      ExecConcat(n, first, rest);
      moves := first + rest;
    }
  }

  lemma NotYetReceived(rcv: Receiver)
    requires ReceiverInv(rcv)
    ensures rcv.ack !in rcv.incoming
  {
  }

  lemma NextIsCloser(n: Net, n1: Net, f: Frame)
    requires ReceiverInv(n.b.rcv) && n1.fromA == n.fromA && n1.b.rcv == Insert(n.b.rcv, f)
    requires f in n.fromA && HasType(f.header.typ, UDX_HEADER_DATA) && f.header.seqno == n.b.rcv.ack < n1.b.rcv.ack
    ensures Missing(n1) == Missing(n)
  {
    hide Insert, ReceiverInv, NextGap;
    InsertKeys(n.b.rcv, f);
    assert Available(n1) == Available(n);
    var g := Missing(n);
    assert n1.b.rcv.ack <= g by {
      assert g < n1.b.rcv.ack ==> g in n.b.rcv.incoming.Keys + {f.header.seqno};
    }
    GapUnique(Available(n1), n1.b.rcv.ack, g);
  }

  // ----- an acknowledgement when the last one is gone -----

  const IDLE: Action := DriveOnce([], false, false, 0)

  lemma CloseAnnounces(s: State)
    ensures var s' := Close(s);
      && s'.queue != [] && s'.queue[|s'.queue| - 1].header.ack == s.rcv.ack
      && s'.rcv == s.rcv && s'.finished == s.finished
  {
  }

  lemma IdleSends(s: State)
    requires !s.finished && !ClosedAndDrained(s.(driveWaker := false))
    ensures var d := Drive(s, [], false, false, 0); s.queue <= d.sent && d.s.rcv == s.rcv
  {
    hide Retransmit;
    var awake := s.(driveWaker := false);
    assert Received(awake, [], 0) == awake;
    QueueIsSent(awake, false, 0);
  }

  lemma ClosesB(n: Net)
    requires NetInv(n) && !n.b.finished
    ensures var n' := Step(n, MoveB(CloseStream));
      OnlyB(n, n') && n'.b == Close(n.b) && !ClosedAndDrained(n'.b.(driveWaker := false))
  {
    hide NetInv, Terminate;
    StepInv(n, MoveB(CloseStream));
    CloseAnnounces(n.b);
  }

  /** A `close()` and a poll make the receiver say how far it has got. */
  lemma FreshAck(n: Net) returns (moves: seq<Move>, g: Frame)
    requires NetInv(n) && !n.b.finished
    ensures AllEnabled(n, moves)
    ensures var n' := Exec(n, moves);
      OnlyB(n, n') && n'.b.rcv == n.b.rcv && g in n'.fromB && g.header.ack == n.b.rcv.ack
  {
    hide NetInv, Drive, Close, ClosedAndDrained, Step;
    NoMoves(n);
    ClosesB(n);
    CloseAnnounces(n.b);
    var n1 := Step(n, MoveB(CloseStream));
    OneMore(n, [], MoveB(CloseStream));
    PollsB(n1, IDLE);
    IdleSends(n1.b);
    g := n1.b.queue[|n1.b.queue| - 1];
    assert g == Drive(n1.b, [], false, false, 0).sent[|n1.b.queue| - 1];
    OneMore(n, [] + [MoveB(CloseStream)], MoveB(IDLE));
    moves := [] + [MoveB(CloseStream)] + [MoveB(IDLE)];
  }

  // ----- what the sender sends again -----

  /** Side A after a poll, with side B as it was. */
  ghost predicate Trying(n: Net) {
    NetInv(n) && InOrder(n.a.snd) && !n.a.finished
  }

  lemma PollsA(n: Net, act: Action)
    requires Trying(n) && act.DriveOnce? && Enabled(n, MoveA(act)) && |n.a.snd.outgoing| > 0
    ensures var n' := Step(n, MoveA(act));
      && Trying(n') && n'.b == n.b && n'.accA == n.accA && n'.a == Apply(n.a, act)
      && n'.fromA == n.fromA + (set f | f in Drive(n.a, act.batch, act.hungUp, act.timer, act.now).sent)
      && n'.a.snd.nextSeq == n.a.snd.nextSeq
  {
    hide NetInv, InOrder, Drive;
    StepInv(n, MoveA(act));
    assert Inv(n.a) by {
      SideInv(n);
    }
    StepInOrder(n.a, act);
    NotDrained(n.a);
    DriveFinishes(n.a, act);
    DriveKeepsSeq(n.a, act);
  }

  lemma SideInv(n: Net)
    requires NetInv(n)
    ensures Inv(n.a)
  {
    assert Linked(n);
  }

  lemma DriveKeepsSeq(s: State, a: Action)
    requires a.DriveOnce?
    ensures Apply(s, a).snd.nextSeq == s.snd.nextSeq
  {
    hide HandleAll, HandleAck, Retransmit;
    var awake := s.(driveWaker := false);
    HandleAllFrame(awake, a.batch, a.now);
    AckKeepsSeq(HandleAll(awake, a.batch, a.now), MaxAck(a.batch), a.now);
    RetransmitKeepsSeq(Received(awake, a.batch, a.now), a.timer, a.now);
  }

  /** What the flush takes out of waiting it puts on the queue. */
  lemma FlushedIsQueued(s: State, k: nat)
    requires PacketsOk(s.snd) && k in s.snd.outgoing && s.snd.outgoing[k].waiting
    ensures k in Flush(s).snd.outgoing
    ensures Flush(s).snd.outgoing[k].waiting || s.snd.outgoing[k].ToFrame() in Flush(s).queue
  {
    hide FlushStop, WaitingFrames, Total;
    var snd := s.snd;
    var stop := FlushStop(snd.outgoing, snd.remoteAcked, snd.nextSeq, snd.inflight, snd.cwnd);
    SeqnosAreKeys(snd);
    WaitingFramesExact(snd.outgoing, snd.remoteAcked, stop);
    if !Flush(s).snd.outgoing[k].waiting {
      var w, f := WaitingFrames(snd.outgoing, snd.remoteAcked, stop), snd.outgoing[k].ToFrame();
      assert IsWaitingFrame(f, snd.outgoing, snd.remoteAcked, stop);
      assert f in w && Flush(s).queue == s.queue + w;
    }
  }

  lemma SeqnosAreKeys(snd: Sender)
    requires PacketsOk(snd)
    ensures forall k :: k in snd.outgoing ==> snd.outgoing[k].header.seqno == k
  {
    forall k | k in snd.outgoing ensures snd.outgoing[k].header.seqno == k {
      assert PacketOk(snd.outgoing[k], k, snd.log[k]);
    }
  }

  /** Every outstanding packet waits to be sent or is under way. */
  ghost predicate Underway(snd: Sender, from: set<Frame>) {
    forall k :: k in snd.outgoing ==> snd.outgoing[k].waiting || snd.outgoing[k].ToFrame() in from
  }

  function Set(fs: seq<Frame>): set<Frame> {
    set f | f in fs
  }

  /** A poll whose timeout goes through leaves every packet waiting or sends it. */
  lemma RetransmitUnderway(s: State, timer: bool, now: nat, from: set<Frame>)
    requires SenderInv(s.snd) && KeysInRange(s.snd) && CheckTimeouts(s.snd, timer).1
    requires Fires(s.snd, timer) || Underway(s.snd, from)
    ensures var d := Retransmit(s, timer, now); Underway(d.s.snd, from + Set(d.sent))
  {
    var d := Retransmit(s, timer, now);
    var checked := CheckTimer(s, timer, now).0;
    TimeoutInv(s.snd, timer);
    forall k | k in d.s.snd.outgoing
      ensures d.s.snd.outgoing[k].waiting || d.s.snd.outgoing[k].ToFrame() in from + Set(d.sent)
    {
      CheckedUnderway(s.snd, timer, k);
      FlushKeepsFrame(checked, k);
      if checked.snd.outgoing[k].waiting {
        FlushedIsQueued(checked, k);
      }
    }
  }

  lemma CheckedUnderway(snd: Sender, timer: bool, k: nat)
    requires KeysInRange(snd) && CheckTimeouts(snd, timer).1 && k in snd.outgoing
    ensures var snd' := CheckTimeouts(snd, timer).0;
      && k in snd'.outgoing && snd'.outgoing[k].ToFrame() == snd.outgoing[k].ToFrame()
      && (Fires(snd, timer) ==> snd'.outgoing[k].waiting)
      && (!Fires(snd, timer) ==> snd' == snd)
  {
    hide FirstExhausted, Total;
  }

  lemma FlushKeepsFrame(s: State, k: nat)
    ensures k in Flush(s).snd.outgoing <==> k in s.snd.outgoing
    ensures k in s.snd.outgoing ==>
      && Flush(s).snd.outgoing[k].ToFrame() == s.snd.outgoing[k].ToFrame()
      && (!s.snd.outgoing[k].waiting ==> Flush(s).snd.outgoing[k] == s.snd.outgoing[k])
  {
    hide FlushStop, WaitingFrames, Total;
  }

  /** What packets without SACKs do to the sender: acknowledged packets go, the others stay as they are. */
  lemma ReceivedAcks(s: State, batch: seq<Frame>, now: nat)
    requires forall i :: 0 <= i < |batch| ==> NoSack(batch[i])
    ensures var snd, snd' := s.snd, Received(s, batch, now).snd;
      && snd'.remoteAcked == Max(snd.remoteAcked, MaxAck(batch)) && snd'.nextSeq == snd.nextSeq
      && forall k :: k in snd'.outgoing ==> k in snd.outgoing && snd'.outgoing[k] == snd.outgoing[k]
  {
    hide HandleAll, Samples, Total;
    HandleAllFrame(s, batch, now);
  }

  /** One poll of side A with packets from side B. */
  function PollWith(batch: seq<Frame>, timer: bool): Action {
    DriveOnce(batch, false, timer, 0)
  }

  lemma BatchIsPlain(n: Net, batch: seq<Frame>)
    requires NetInv(n) && forall f :: f in batch ==> f in n.fromB
    ensures forall i :: 0 <= i < |batch| ==> NoSack(batch[i]) && batch[i].header.ack <= n.b.rcv.ack
    ensures MaxAck(batch) <= n.b.rcv.ack
  {
    hide Inv, Receives, Contiguous;
    assert Linked(n.Mirror());
    forall i | 0 <= i < |batch| ensures NoSack(batch[i]) && batch[i].header.ack <= n.b.rcv.ack {
      var f := batch[i];
      assert f in batch;
      assert FrameOk(f, n.b);
    }
    MaxAckBelow(batch, n.b.rcv.ack);
  }

  /** The sender as the timeout check finds it, when the packets say how far the receiver has got. */
  lemma UpToDate(n: Net, batch: seq<Frame>)
    requires Trying(n) && (forall f :: f in batch ==> f in n.fromB)
    requires n.a.snd.remoteAcked == n.b.rcv.ack || MaxAck(batch) == n.b.rcv.ack
    ensures var received := Received(n.a.(driveWaker := false), batch, 0);
      var snd, snd' := n.a.snd, received.snd;
      && SenderInv(snd') && KeysInRange(snd') && InOrder(snd')
      && snd'.remoteAcked == n.b.rcv.ack && snd'.nextSeq == snd.nextSeq
      && (forall k :: k in snd'.outgoing ==> k in snd.outgoing && snd'.outgoing[k] == snd.outgoing[k])
      && (forall k :: n.b.rcv.ack <= k < snd.nextSeq ==> k in snd'.outgoing)
  {
    hide NetInv, InOrder, Received, HandleAll, ReceiverInv;
    var awake := n.a.(driveWaker := false);
    PeerIsBetween(n);
    BatchIsPlain(n, batch);
    ReceivedAcks(awake, batch, 0);
    SideInv(n);
    ReceivedInv(awake, batch, 0);
    FewerInOrder(n.a.snd, Received(awake, batch, 0).snd);
    ReceivedKeeps(awake, batch, 0);
    KeysOfReceived(n.a.snd, Received(awake, batch, 0).snd);
  }

  /** Only what is acknowledged goes. */
  lemma ReceivedKeeps(s: State, batch: seq<Frame>, now: nat)
    requires forall i :: 0 <= i < |batch| ==> NoSack(batch[i])
    ensures var snd' := Received(s, batch, now).snd;
      forall k :: k in s.snd.outgoing && snd'.remoteAcked <= k ==> k in snd'.outgoing
    ensures var snd' := Received(s, batch, now).snd;
      forall k :: k in snd'.outgoing && s.snd.remoteAcked <= k ==> snd'.remoteAcked <= k
  {
    hide HandleAll, Samples, Total;
    HandleAllFrame(s, batch, now);
  }

  lemma KeysOfReceived(snd: Sender, snd': Sender)
    requires PacketsOk(snd')
    requires forall k :: k in snd'.outgoing ==> k in snd.outgoing && snd.remoteAcked <= k
    requires forall k :: k in snd'.outgoing && snd.remoteAcked <= k ==> snd'.remoteAcked <= k
    ensures KeysInRange(snd')
  {
  }

  /**
   A poll with a ready timer, once the sender knows how far the receiver has got, sends the packet
   the receiver is waiting for, if that packet has patience left, and leaves no other behind.
   */
  lemma Restart(n: Net, batch: seq<Frame>)
    requires Trying(n) && (forall f :: f in batch ==> f in n.fromB)
    requires n.a.snd.remoteAcked == n.b.rcv.ack || MaxAck(batch) == n.b.rcv.ack
    requires var m := n.b.rcv.ack; m in n.a.snd.outgoing && Patience(n.a.snd.outgoing[m]) > 0
    ensures Enabled(n, MoveA(PollWith(batch, true)))
    ensures var n' := Step(n, MoveA(PollWith(batch, true)));
      var m := n.b.rcv.ack;
      && Trying(n') && n'.b == n.b && n'.accA == n.accA && n'.a.snd.nextSeq == n.a.snd.nextSeq
      && n'.a.snd.remoteAcked == m && Underway(n'.a.snd, n'.fromA)
      && m in n'.a.snd.outgoing && n'.a.snd.outgoing[m].ToFrame() in n'.fromA
  {
    hide NetInv, InOrder, Received, Retransmit, Underway, ReceiverInv, SenderInv, CheckTimeouts;
    var act, m := PollWith(batch, true), n.b.rcv.ack;
    PeerIsBetween(n);
    HasOutgoing(n.a, m);
    assert |n.a.snd.outgoing| > 0;
    PollsA(n, act);
    UpToDate(n, batch);
    var received := Received(n.a.(driveWaker := false), batch, 0);
    RestartSender(received, m);
    RetransmitUnderway(received, true, 0, n.fromA);
    assert Drive(n.a, batch, false, true, 0) == Retransmit(received, true, 0);
  }

  lemma RestartSender(s: State, m: nat)
    requires SenderInv(s.snd) && KeysInRange(s.snd) && InOrder(s.snd)
    requires s.snd.remoteAcked == m && m in s.snd.outgoing && Patience(s.snd.outgoing[m]) > 0
    ensures CheckTimeouts(s.snd, true).1 && Fires(s.snd, true)
    ensures var d := Retransmit(s, true, 0);
      && d.s.snd.remoteAcked == m && m in d.s.snd.outgoing && d.s.snd.outgoing[m].ToFrame() in d.sent
  {
    hide InOrder, CheckTimeouts, Flush, Conserved;
    FirstExhaustsFirst(s.snd, true, m);
    TimeoutAlwaysRestartsFirst(s, m);
    AfterTimeout(s.snd, m);
    CheckedUnderway(s.snd, true, m);
    var checked := CheckTimer(s, true, 0).0;
    FlushSenderOnly(s.(snd := checked.snd), checked);
    FlushedIsQueued(checked, m);
    FlushKeepsFrame(checked, m);
    FlushKeepsAcked(checked);
    LostKeepsRange(s.snd, true);
  }

  lemma FlushSenderOnly(s: State, s': State)
    requires s'.snd == s.snd
    ensures Flush(s').snd == Flush(s).snd
  {
  }

  lemma FlushKeepsAcked(s: State)
    ensures Flush(s).snd.remoteAcked == s.snd.remoteAcked
  {
  }

  /** A poll without the timer brings the sender up to date and leaves no packet behind. */
  lemma LearnAck(n: Net, g: Frame)
    requires Trying(n) && g in n.fromB && g.header.ack == n.b.rcv.ack && |n.a.snd.outgoing| > 0
    ensures Enabled(n, MoveA(PollWith([g], false)))
    ensures var n' := Step(n, MoveA(PollWith([g], false)));
      && Trying(n') && n'.b == n.b && n'.accA == n.accA && n'.a.snd.nextSeq == n.a.snd.nextSeq
      && n'.a.snd.remoteAcked == n.b.rcv.ack
      && (Underway(n.a.snd, n.fromA) ==> Underway(n'.a.snd, n'.fromA))
  {
    hide NetInv, InOrder, Received, Retransmit, ReceiverInv, SenderInv, HandleIncoming;
    var act := PollWith([g], false);
    HandleOne(n.a, g, 0);
    PollsA(n, act);
    UpToDate(n, [g]);
    NotDrained(n.a);
    var received := Received(n.a.(driveWaker := false), [g], 0);
    RetransmitKeepsKeySet(received, false, 0);
    assert Drive(n.a, [g], false, false, 0) == Retransmit(received, false, 0);
    if Underway(n.a.snd, n.fromA) {
      RetransmitUnderway(received, false, 0, n.fromA);
    }
  }

  // ----- everything -----

  /** The packet the receiver is waiting for, as it was sent. */
  lemma NextFrame(n: Net) returns (f: Frame)
    requires NetInv(n) && n.b.rcv.ack in n.a.snd.outgoing
    ensures f == n.a.snd.outgoing[n.b.rcv.ack].ToFrame()
    ensures HasType(f.header.typ, UDX_HEADER_DATA) && f.header.seqno == n.b.rcv.ack
  {
    var m := n.b.rcv.ack;
    f := n.a.snd.outgoing[m].ToFrame();
    assert Linked(n);
    assert PacketOk(n.a.snd.outgoing[m], m, n.a.snd.log[m]);
  }

  /** The sender knows how far the receiver has got, and no packet is left behind. */
  ghost predicate Going(n: Net) {
    Trying(n) && !n.b.finished && n.a.snd.remoteAcked == n.b.rcv.ack && Underway(n.a.snd, n.fromA)
  }

  /** The packet the receiver is waiting for is under way, after one more timeout if need be. */
  lemma NextUnderway(n: Net) returns (moves: seq<Move>)
    requires Going(n) && n.b.rcv.ack < n.a.snd.nextSeq
    ensures AllEnabled(n, moves)
    ensures var n' := Exec(n, moves);
      && Going(n') && n'.b == n.b && n'.accA == n.accA && n'.a.snd.nextSeq == n.a.snd.nextSeq
      && n.b.rcv.ack in n'.a.snd.outgoing && n'.a.snd.outgoing[n.b.rcv.ack].ToFrame() in n'.fromA
  {
    hide NetInv, InOrder, Step, ReceiverInv, SenderInv;
    PeerIsBetween(n);
    NoMoves(n);
    var m := n.b.rcv.ack;
    if n.a.snd.outgoing[m].ToFrame() in n.fromA {
      moves := [];
    } else {
      PatienceOfWaiting(n, m);
      Restart(n, []);
      OneMore(n, [], MoveA(PollWith([], true)));
      moves := [] + [MoveA(PollWith([], true))];
    }
  }

  lemma PatienceOfWaiting(n: Net, k: nat)
    requires NetInv(n) && k in n.a.snd.outgoing && n.a.snd.outgoing[k].waiting
    ensures Patience(n.a.snd.outgoing[k]) > 0
  {
    assert Linked(n);
    assert PacketOk(n.a.snd.outgoing[k], k, n.a.snd.log[k]);
  }

  /** It is delivered, and the answer taken. */
  lemma OneFurther(n: Net) returns (moves: seq<Move>)
    requires Going(n) && n.b.rcv.ack < n.a.snd.nextSeq
    ensures AllEnabled(n, moves)
    ensures var n' := Exec(n, moves);
      Going(n') && n.b.rcv.ack < n'.b.rcv.ack && n'.accA == n.accA && n'.a.snd.nextSeq == n.a.snd.nextSeq
  {
    hide NetInv, InOrder, Step, Underway;
    var first := NextUnderway(n);
    var n1 := Exec(n, first);
    var f := NextFrame(n1);
    var second, g := DeliverNext(n1, f);
    ExecConcat(n, first, second);
    var n2 := Exec(n1, second);
    assert |n2.a.snd.outgoing| > 0;
    LearnAck(n2, g);
    OneMore(n, first + second, MoveA(PollWith([g], false)));
    moves := first + second + [MoveA(PollWith([g], false))];
  }

  lemma {:induction false} AllFurther(n: Net) returns (moves: seq<Move>)
    requires Going(n)
    ensures AllEnabled(n, moves)
    ensures var n' := Exec(n, moves);
      && NetInv(n') && n'.accA == n.accA && n'.a.snd.nextSeq == n.a.snd.nextSeq
      && n'.a.snd.remoteAcked == n'.b.rcv.ack == n'.a.snd.nextSeq
    decreases n.a.snd.nextSeq - n.b.rcv.ack
  {
    hide NetInv, Step, Underway, InOrder;
    PeerIsBetween(n);
    NoMoves(n);
    if n.b.rcv.ack == n.a.snd.nextSeq {
      moves := [];
    } else {
      var first := OneFurther(n);
      var n1 := Exec(n, first);
      PeerIsBetween(n1);
      var rest := AllFurther(n1);
      ExecConcat(n, first, rest);
      moves := first + rest;
    }
  }

  /** The first packet that has to be sent again may still be sent again. */
  ghost predicate StillTried(n: Net) {
    var m := Missing(n);
    m in n.a.snd.outgoing ==> Patience(n.a.snd.outgoing[m]) > 0
  }

  /** With the receiver at the first missing packet, a timeout gets the sender going. */
  lemma GetGoing(n: Net) returns (moves: seq<Move>)
    requires Trying(n) && !n.b.finished
    requires var m := n.b.rcv.ack; m in n.a.snd.outgoing && Patience(n.a.snd.outgoing[m]) > 0
    ensures AllEnabled(n, moves)
    ensures var n' := Exec(n, moves);
      Going(n') && n'.accA == n.accA && n'.a.snd.nextSeq == n.a.snd.nextSeq
  {
    hide NetInv, InOrder, Step, Underway, HandleIncoming;
    NoMoves(n);
    if n.a.snd.remoteAcked == n.b.rcv.ack {
      Restart(n, []);
      OneMore(n, [], MoveA(PollWith([], true)));
      moves := [] + [MoveA(PollWith([], true))];
    } else {
      var first, g := FreshAck(n);
      var n1 := Exec(n, first);
      HandleOne(n1.a, g, 0);
      Restart(n1, [g]);
      OneMore(n, first, MoveA(PollWith([g], true)));
      moves := first + [MoveA(PollWith([g], true))];
    }
  }

  /** When everything has arrived, the sender can be told. */
  lemma TellSender(n: Net) returns (moves: seq<Move>)
    requires Trying(n) && !n.b.finished && n.b.rcv.ack == n.a.snd.nextSeq
    ensures AllEnabled(n, moves)
    ensures var n' := Exec(n, moves);
      && NetInv(n') && n'.accA == n.accA && n'.a.snd.nextSeq == n.a.snd.nextSeq
      && n'.a.snd.remoteAcked == n'.b.rcv.ack == n'.a.snd.nextSeq
  {
    hide NetInv, InOrder, Step, Underway;
    PeerIsBetween(n);
    NoMoves(n);
    if n.a.snd.remoteAcked == n.a.snd.nextSeq {
      moves := [];
    } else {
      assert n.a.snd.remoteAcked in n.a.snd.outgoing;
      var first, g := FreshAck(n);
      LearnAck(Exec(n, first), g);
      OneMore(n, first, MoveA(PollWith([g], false)));
      moves := first + [MoveA(PollWith([g], false))];
    }
  }

  /**
   As long as the receiver's driver runs and the first packet that has to be sent again may be, some
   continuation gets everything accepted acknowledged, whatever has been lost.
   */
  lemma AllAcknowledged(n: Net) returns (moves: seq<Move>)
    requires Trying(n) && !n.b.finished && StillTried(n)
    ensures AllEnabled(n, moves)
    ensures var n' := Exec(n, moves);
      && NetInv(n') && n'.accA == n.accA && n'.a.snd.nextSeq == n.a.snd.nextSeq
      && n'.a.snd.remoteAcked == n'.b.rcv.ack == n'.a.snd.nextSeq
  {
    hide NetInv, InOrder, Step, Underway, Missing;
    var first := DeliverCopies(n);
    MissingIsBelow(n);
    var n1 := Exec(n, first);
    if n1.b.rcv.ack == n1.a.snd.nextSeq {
      var rest := TellSender(n1);
      ExecConcat(n, first, rest);
      moves := first + rest;
    } else {
      var second := GetGoing(n1);
      ExecConcat(n, first, second);
      var rest := AllFurther(Exec(n1, second));
      ExecConcat(n, first + second, rest);
      moves := first + second + rest;
    }
  }
}
