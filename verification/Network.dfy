/**
 Two streams joined by a network that may lose, duplicate, delay and reorder packets: a delivery
 picks any packets that were transmitted and not lost since, any number of times, in any order,
 and at any time any set of packets may be lost for good. Retransmissions carry the
 acknowledgement that was current when the packet was first built.
 */
module Network {
  import opened Constants
  import opened Wire
  import opened Ledger
  import opened StreamModel
  import opened StreamInvariant

  /**
   `fromA` and `fromB` are the packets under way. `acc` is what a side's `poll_write` calls
   accepted, `got` what its `read_next` calls put into the reader's buffers, both since the start.
   */
  datatype Net = Net(
    a: State, b: State, fromA: set<Frame>, fromB: set<Frame>,
    accA: seq<Byte>, gotA: seq<Byte>, accB: seq<Byte>, gotB: seq<Byte>)
  {
    function Mirror(): Net {
      Net(b, a, fromB, fromA, accB, gotB, accA, gotA)
    }
  }

  function Start(idA: nat, idB: nat): Net {
    Net(Connect(idB), Connect(idA), {}, {}, [], [], [], [])
  }

  datatype Move = MoveA(act: Action) | MoveB(act: Action) | Drop(lostA: set<Frame>, lostB: set<Frame>)

  function Accepted(s: State, buf: seq<Byte>): seq<Byte> {
    var r := PollWrite(s, buf).1;
    if r.Ready? then buf[..r.value] else []
  }

  /** Side A after a poll of its driver, and the network with what the poll transmitted. */
  function Driving(n: Net, d: Driven): Net {
    n.(a := d.s, fromA := n.fromA + (set f | f in d.sent))
  }

  function StepA(n: Net, act: Action): Net {
    match act
    case Write(buf) => n.(a := PollWrite(n.a, buf).0, accA := n.accA + Accepted(n.a, buf))
    case Read(room) => n.(a := PollRead(n.a, room).s, gotA := n.gotA + PollRead(n.a, room).bytes)
    case CloseStream => n.(a := Close(n.a))
    case DriveOnce(batch, hungUp, timer, now) => Driving(n, Drive(n.a, batch, hungUp, timer, now))
    case StampSent(k, at) => n.(a := Stamp(n.a, k, at))
  }

  function Step(n: Net, m: Move): Net {
    match m
    case MoveA(act) => StepA(n, act)
    case MoveB(act) => StepA(n.Mirror(), act).Mirror()
    case Drop(lostA, lostB) => n.(fromA := n.fromA - lostA, fromB := n.fromB - lostB)
  }

  ghost predicate AllIn(act: Action, from: set<Frame>) {
    act.DriveOnce? ==> forall f :: f in act.batch ==> f in from
  }

  /** Only packets that the other side transmitted and that are not lost can arrive. */
  ghost predicate Enabled(n: Net, m: Move) {
    match m
    case MoveA(act) => AllIn(act, n.fromB)
    case MoveB(act) => AllIn(act, n.fromA)
    case Drop(_, _) => true
  }

  function Exec(n: Net, moves: seq<Move>): Net {
    if moves == [] then n else Step(Exec(n, moves[..|moves| - 1]), moves[|moves| - 1])
  }

  ghost predicate AllEnabled(n: Net, moves: seq<Move>) {
    moves != [] ==>
      && AllEnabled(n, moves[..|moves| - 1])
      && Enabled(Exec(n, moves[..|moves| - 1]), moves[|moves| - 1])
  }

  ghost predicate Reachable(n: Net) {
    exists idA, idB, moves :: AllEnabled(Start(idA, idB), moves) && n == Exec(Start(idA, idB), moves)
  }

  lemma {:induction false} ExecConcat(n: Net, a: seq<Move>, b: seq<Move>)
    requires AllEnabled(n, a) && AllEnabled(Exec(n, a), b)
    ensures AllEnabled(n, a + b) && Exec(n, a + b) == Exec(Exec(n, a), b)
  {
    if b == [] {
      assert a + b == a;
    } else {
      ExecConcat(n, a, b[..|b| - 1]);
      assert (a + b)[..|a + b| - 1] == a + b[..|b| - 1];
    }
  }

  // ----- the invariant -----

  /** A packet of `x`: no SACK, an acknowledgement `x` once gave, and data exactly as logged. */
  ghost predicate FrameOk(f: Frame, x: State) {
    && !HasType(f.header.typ, UDX_HEADER_SACK)
    && f.header.ack <= x.rcv.ack
    && (HasType(f.header.typ, UDX_HEADER_DATA) ==>
        f.header.seqno < x.snd.nextSeq == |x.snd.log| && f.body == x.snd.log[f.header.seqno])
  }

  ghost predicate FramesOk(fs: seq<Frame>, x: State) {
    forall i :: 0 <= i < |fs| ==> FrameOk(fs[i], x)
  }

  lemma FramesOkConcat(fs: seq<Frame>, gs: seq<Frame>, x: State)
    requires FramesOk(fs, x) && FramesOk(gs, x)
    ensures FramesOk(fs + gs, x)
  {
  }

  /** `outgoing` is an interval: exactly the packets not yet acknowledged. */
  ghost predicate Contiguous(snd: Sender) {
    && snd.remoteAcked <= snd.nextSeq
    && forall k :: k in snd.outgoing <==> snd.remoteAcked <= k < snd.nextSeq
  }

  ghost predicate Sends(x: State, fromX: set<Frame>) {
    && Contiguous(x.snd)
    && (forall f :: f in fromX ==> FrameOk(f, x))
    && FramesOk(x.queue, x)
    && (forall k :: k in x.snd.outgoing ==> FrameOk(x.snd.outgoing[k].ToFrame(), x))
  }

  /** `y` holds only what `x` logged, and has read or can read precisely what it acknowledged. */
  ghost predicate Receives(snd: Sender, rcv: Receiver, gotY: seq<Byte>) {
    && |snd.log| == snd.nextSeq
    && snd.remoteAcked <= rcv.ack <= snd.nextSeq
    && (forall k :: k in rcv.incoming ==> k < snd.nextSeq && rcv.incoming[k].buf == snd.log[k])
    && gotY + Readable(rcv) == Flatten(snd.log[..rcv.ack])
  }

  /** Side A's half of the invariant. */
  ghost predicate Linked(n: Net) {
    && Inv(n.a)
    && Sends(n.a, n.fromA)
    && Flatten(n.a.snd.log) == n.accA
    && Receives(n.a.snd, n.b.rcv, n.gotB)
    && Receives(n.b.snd, n.a.rcv, n.gotA)
  }

  ghost predicate NetInv(n: Net) {
    Linked(n) && Linked(n.Mirror())
  }

  // ----- sending -----

  lemma SendStateKeeps(s: State, from: set<Frame>)
    requires Sends(s, from)
    ensures Sends(SendState(s), from)
  {
    var s' := SendState(s);
    FramesOkConcat(s.queue, [s'.queue[|s.queue|]], s');
  }

  lemma TerminateKeeps(s: State, e: UdxError, from: set<Frame>)
    requires Sends(s, from)
    ensures Sends(Terminate(s, e), from)
  {
    SendStateKeeps(s.(error := Some(e), phase := s.phase.CloseLocal()), from);
  }

  lemma SendDataKeeps(s: State, body: seq<Byte>, from: set<Frame>)
    requires Inv(s) && s.error.None? && Sends(s, from)
    ensures Sends(SendData(s, body), from)
  {
    var s' := SendData(s, body);
    assert forall f :: FrameOk(f, s) ==> FrameOk(f, s');
    FramesOkConcat(s.queue, [s'.queue[|s.queue|]], s');
  }

  lemma {:induction false} SendChunksKeeps(s: State, buf: seq<Byte>, from: set<Frame>)
    requires Inv(s) && s.error.None? && Sends(s, from)
    ensures Sends(SendChunks(s, buf).0, from)
    decreases |buf|
  {
    var len := Min(|buf|, UDX_MAX_DATA_SIZE);
    if buf != [] && s.snd.inflight + len <= s.snd.cwnd {
      SendDataInv(s, buf[..len]);
      SendDataKeeps(s, buf[..len], from);
      SendChunksKeeps(SendData(s, buf[..len]), buf[len..], from);
    }
  }

  lemma {:induction false} SendChunksOnlyAppends(s: State, buf: seq<Byte>)
    ensures var s' := SendChunks(s, buf).0;
      && s'.rcv == s.rcv && s'.finished == s.finished
      && s.snd.log <= s'.snd.log && s'.snd.remoteAcked == s.snd.remoteAcked
    decreases |buf|
  {
    var len := Min(|buf|, UDX_MAX_DATA_SIZE);
    if buf != [] && s.snd.inflight + len <= s.snd.cwnd {
      SendChunksOnlyAppends(SendData(s, buf[..len]), buf[len..]);
    }
  }

  /** A longer log changes nothing for what has been received of it. */
  lemma LongerLogKeeps(snd: Sender, snd': Sender, rcv: Receiver, got: seq<Byte>)
    requires Receives(snd, rcv, got)
    requires snd.log <= snd'.log && |snd'.log| == snd'.nextSeq && snd'.remoteAcked == snd.remoteAcked
    ensures Receives(snd', rcv, got)
  {
    assert snd'.log[..rcv.ack] == snd.log[..rcv.ack];
  }

  // ----- acknowledgements, timeouts, retransmission -----

  lemma AckKeeps(s: State, ack: nat, now: nat, from: set<Frame>)
    requires Sends(s, from) && ack <= s.snd.nextSeq
    ensures Sends(HandleAck(s, ack, now), from)
  {
  }

  lemma TimeoutKeeps(s: State, timer: bool, from: set<Frame>)
    requires Sends(s, from)
    ensures Sends(s.(snd := CheckTimeouts(s.snd, timer).0), from)
  {
    var out, out' := s.snd.outgoing, CheckTimeouts(s.snd, timer).0.outgoing;
    assert forall k :: k in out ==> out'[k].ToFrame() == out[k].ToFrame();
  }

  lemma {:induction false} WaitingFramesOk(x: State, lo: nat, hi: nat)
    requires forall k :: k in x.snd.outgoing ==> FrameOk(x.snd.outgoing[k].ToFrame(), x)
    ensures FramesOk(WaitingFrames(x.snd.outgoing, lo, hi), x)
  {
    if lo < hi {
      WaitingFramesOk(x, lo, hi - 1);
      if hi - 1 in x.snd.outgoing && x.snd.outgoing[hi - 1].waiting {
        FramesOkConcat(WaitingFrames(x.snd.outgoing, lo, hi - 1), [x.snd.outgoing[hi - 1].ToFrame()], x);
      }
    }
  }

  lemma FlushKeeps(s: State, from: set<Frame>)
    requires Sends(s, from)
    ensures Sends(Flush(s), from)
  {
    var s' := Flush(s);
    var stop := FlushStop(s.snd.outgoing, s.snd.remoteAcked, s.snd.nextSeq, s.snd.inflight, s.snd.cwnd);
    WaitingFramesOk(s, s.snd.remoteAcked, stop);
    FramesOkConcat(s.queue, WaitingFrames(s.snd.outgoing, s.snd.remoteAcked, stop), s);
    assert forall k :: k in s.snd.outgoing ==> s'.snd.outgoing[k].ToFrame() == s.snd.outgoing[k].ToFrame();
    assert forall f :: FrameOk(f, s) ==> FrameOk(f, s');
  }

  // ----- receiving -----

  /** New in-order packets make readable exactly their share of the log. */
  lemma {:induction false} ReadableExtends(rcv: Receiver, rcv': Receiver, log: seq<seq<Byte>>)
    requires rcv.readCursor == rcv'.readCursor && rcv.readCursor <= rcv.ack <= rcv'.ack <= |log|
    requires forall k :: rcv.readCursor <= k < rcv.ack ==>
      k in rcv.incoming && k in rcv'.incoming && rcv.incoming[k] == rcv'.incoming[k]
    requires forall k :: rcv.ack <= k < rcv'.ack ==>
      k in rcv'.incoming && rcv'.incoming[k].readOffset == 0 && rcv'.incoming[k].buf == log[k]
    ensures Readable(rcv') == Readable(rcv) + Flatten(log[rcv.ack..rcv'.ack])
    decreases rcv'.ack - rcv.readCursor
  {
    var c := rcv.readCursor;
    if c < rcv.ack {
      ReadableExtends(rcv.(readCursor := c + 1), rcv'.(readCursor := c + 1), log);
      var rest := rcv.incoming[c].buf[rcv.incoming[c].readOffset..];
      assert Readable(rcv) == rest + Readable(rcv.(readCursor := c + 1));
      assert Readable(rcv') == rest + Readable(rcv'.(readCursor := c + 1));
    } else if c < rcv'.ack {
      NewlyReadable(rcv', log);
      assert Readable(rcv) == [];
    }
  }

  lemma {:induction false} NewlyReadable(rcv: Receiver, log: seq<seq<Byte>>)
    requires rcv.readCursor <= rcv.ack <= |log|
    requires forall k :: rcv.readCursor <= k < rcv.ack ==>
      k in rcv.incoming && rcv.incoming[k].readOffset == 0 && rcv.incoming[k].buf == log[k]
    ensures Readable(rcv) == Flatten(log[rcv.readCursor..rcv.ack])
    decreases rcv.ack - rcv.readCursor
  {
    var c := rcv.readCursor;
    if c < rcv.ack {
      NewlyReadable(rcv.(readCursor := c + 1), log);
      assert log[c..rcv.ack] == [log[c]] + log[c + 1..rcv.ack];
      FlattenFront(log[c], log[c + 1..rcv.ack]);
      assert log[c..rcv.ack][1..] == log[c + 1..rcv.ack];
      assert rcv.incoming[c].buf[0..] == log[c];
    }
  }

  lemma InsertWithin(snd: Sender, rcv: Receiver, f: Frame)
    requires ReceiverInv(rcv) && rcv.ack <= snd.nextSeq && f.header.seqno < snd.nextSeq
    requires forall k :: k in rcv.incoming ==> k < snd.nextSeq
    ensures rcv.ack <= Insert(rcv, f).ack <= snd.nextSeq
  {
    var rcv' := Insert(rcv, f);
    assert rcv.ack < rcv'.ack ==> rcv'.ack - 1 in rcv'.incoming;
  }

  lemma InsertReadable(log: seq<seq<Byte>>, rcv: Receiver, f: Frame)
    requires ReceiverInv(rcv) && f.header.seqno < |log| && f.body == log[f.header.seqno]
    requires rcv.ack <= Insert(rcv, f).ack <= |log|
    requires forall k :: k in rcv.incoming ==> k < |log| && rcv.incoming[k].buf == log[k]
    ensures Readable(Insert(rcv, f)) == Readable(rcv) + Flatten(log[rcv.ack..Insert(rcv, f).ack])
  {
    ReadableExtends(rcv, Insert(rcv, f), log);
  }

  lemma JoinReadable(got: seq<Byte>, readable: seq<Byte>, log: seq<seq<Byte>>, ack: nat, ack': nat)
    requires ack <= ack' <= |log| && got + readable == Flatten(log[..ack])
    ensures got + (readable + Flatten(log[ack..ack'])) == Flatten(log[..ack'])
  {
    FlattenConcat(log[..ack], log[ack..ack']);
    assert log[..ack] + log[ack..ack'] == log[..ack'];
  }

  lemma InsertKeeps(snd: Sender, rcv: Receiver, got: seq<Byte>, f: Frame)
    requires ReceiverInv(rcv) && Receives(snd, rcv, got)
    requires f.header.seqno < snd.nextSeq && f.body == snd.log[f.header.seqno]
    ensures Receives(snd, Insert(rcv, f), got)
  {
    InsertWithin(snd, rcv, f);
    InsertReadable(snd.log, rcv, f);
    JoinReadable(got, Readable(rcv), snd.log, rcv.ack, Insert(rcv, f).ack);
  }

  /** A larger own `ack` keeps every packet's acknowledgement one that was given. */
  lemma LaterAckKeeps(s: State, s': State, from: set<Frame>)
    requires Sends(s, from)
    requires s'.snd == s.snd && s'.queue == s.queue && s.rcv.ack <= s'.rcv.ack
    ensures Sends(s', from)
  {
    assert forall f :: FrameOk(f, s) ==> FrameOk(f, s');
  }

  lemma TakeDataKeeps(s: State, f: Frame, from: set<Frame>)
    requires Inv(s) && Sends(s, from)
    ensures Sends(TakeData(s, f), from)
  {
    InsertInv(s.rcv, f);
    LaterAckKeeps(s, Store(s, f), from);
    SendStateKeeps(Store(s, f), from);
  }

  // ----- one step of side A -----

  lemma TerminateLinked(n: Net, e: UdxError)
    requires Linked(n)
    ensures Linked(n.(a := Terminate(n.a, e)))
  {
    TerminateInv(n.a, e);
    TerminateKeeps(n.a, e, n.fromA);
  }

  lemma TakeEndLinked(n: Net, f: Frame)
    requires Linked(n)
    ensures Linked(n.(a := TakeEnd(n.a, f)))
  {
    TerminateLinked(n.(a := n.a.(phase := n.a.phase.CloseRemote())), UnexpectedEof);
  }

  lemma TakeDataLinked(n: Net, f: Frame)
    requires Linked(n) && FrameOk(f, n.b)
    ensures Linked(n.(a := TakeData(n.a, f)))
  {
    TakeDataInv(n.a, f);
    TakeDataKeeps(n.a, f, n.fromA);
    if HasType(f.header.typ, UDX_HEADER_DATA) {
      InsertKeeps(n.b.snd, n.a.rcv, n.gotA, f);
    }
  }

  lemma TakeAckLinked(n: Net, f: Frame)
    requires Linked(n)
    ensures Linked(n.(a := TakeAck(n.a, f)))
  {
    TakeAckInv(n.a, f);
  }

  lemma CountLinked(n: Net)
    requires Linked(n)
    ensures Linked(n.(a := CountRx(n.a)))
  {
  }

  lemma HandleIncomingLinked(n: Net, f: Frame, now: nat)
    requires Linked(n) && FrameOk(f, n.b)
    ensures Linked(n.(a := HandleIncoming(n.a, f, now)))
  {
    hide TakeEnd, TakeData, TakeAck, Linked;
    var n1 := n.(a := CountRx(n.a));
    CountLinked(n);
    assert TakeSacks(n1.a, f, now) == n1.a;
    TakeEndLinked(n1, f);
    var n2 := n.(a := TakeEnd(n1.a, f));
    TakeDataLinked(n2, f);
    TakeAckLinked(n.(a := TakeData(n2.a, f)), f);
  }

  lemma {:induction false} HandleAllLinked(n: Net, batch: seq<Frame>, now: nat)
    requires Linked(n) && FramesOk(batch, n.b)
    ensures Linked(n.(a := HandleAll(n.a, batch, now)))
    decreases |batch|
  {
    if batch != [] {
      HandleIncomingLinked(n, batch[0], now);
      HandleAllLinked(n.(a := HandleIncoming(n.a, batch[0], now)), batch[1..], now);
    }
  }

  lemma AckLinked(n: Net, ack: nat, now: nat)
    requires Linked(n) && ack <= n.b.rcv.ack
    ensures Linked(n.(a := HandleAck(n.a, ack, now)))
  {
    HandleAckInv(n.a, ack, now);
    AckKeeps(n.a, ack, now, n.fromA);
  }

  lemma TimeoutLinked(n: Net, timer: bool, now: nat)
    requires Linked(n)
    ensures Linked(n.(a := CheckTimer(n.a, timer, now).0))
  {
    hide Linked, CheckTimeouts;
    var n1 := n.(a := n.a.(deadline := CheckTimer(n.a, timer, now).0.deadline));
    DeadlineLinked(n, n1.a.deadline);
    SenderTimeoutLinked(n1, timer);
  }

  lemma DeadlineLinked(n: Net, at: nat)
    requires Linked(n)
    ensures Linked(n.(a := n.a.(deadline := at)))
  {
  }

  lemma SenderTimeoutLinked(n: Net, timer: bool)
    requires Linked(n)
    ensures Linked(n.(a := n.a.(snd := CheckTimeouts(n.a.snd, timer).0)))
  {
    TimeoutInv(n.a.snd, timer);
    TimeoutKeeps(n.a, timer, n.fromA);
  }

  lemma FlushLinked(n: Net)
    requires Linked(n) && !n.a.driveWaker
    ensures Linked(n.(a := Flush(n.a)))
  {
    FlushInv(n.a);
    FlushKeeps(n.a, n.fromA);
  }

  lemma TransmitLinked(n: Net)
    requires Linked(n)
    ensures Linked(n.(a := n.a.(queue := [], driveWaker := true), fromA := n.fromA + (set f | f in n.a.queue)))
  {
  }

  lemma SilentLinked(n: Net, s: State, outcome: Outcome)
    requires Linked(n.(a := s))
    ensures Linked(Driving(n, Driven(s, outcome, [])))
  {
    assert n.fromA + (set f | f in []) == n.fromA;
  }

  lemma RetransmitLinked(n: Net, timer: bool, now: nat)
    requires Linked(n) && !n.a.driveWaker
    ensures Linked(Driving(n, Retransmit(n.a, timer, now)))
  {
    TimeoutLinked(n, timer, now);
    var checked := n.(a := CheckTimer(n.a, timer, now).0);
    if CheckTimer(n.a, timer, now).1 {
      FlushLinked(checked);
      TransmitLinked(n.(a := Flush(checked.a)));
    } else {
      TerminateLinked(checked, TimedOut);
      SilentLinked(n, Terminate(checked.a, TimedOut), Aborted(TimedOut));
    }
  }

  lemma ReceivedLinked(n: Net, batch: seq<Frame>, now: nat)
    requires Linked(n) && FramesOk(batch, n.b)
    ensures Linked(n.(a := Received(n.a, batch, now)))
  {
    HandleAllLinked(n, batch, now);
    MaxAckBelow(batch, n.b.rcv.ack);
    AckLinked(n.(a := HandleAll(n.a, batch, now)), MaxAck(batch), now);
  }

  lemma DriveLinked(n: Net, batch: seq<Frame>, hungUp: bool, timer: bool, now: nat)
    requires Linked(n) && FramesOk(batch, n.b)
    ensures Linked(Driving(n, Drive(n.a, batch, hungUp, timer, now)))
  {
    var awake := n.(a := n.a.(driveWaker := false));
    assert Linked(awake);
    if n.a.finished || ClosedAndDrained(awake.a) {
      var d := Drive(n.a, batch, hungUp, timer, now);
      SilentLinked(n, d.s, d.outcome);
    } else if hungUp {
      HandleAllLinked(awake, batch, now);
      TerminateLinked(n.(a := HandleAll(awake.a, batch, now)), BrokenPipe);
      SilentLinked(n, Terminate(HandleAll(awake.a, batch, now), BrokenPipe), Aborted(BrokenPipe));
    } else {
      ReceivedLinked(awake, batch, now);
      ReceivedInv(awake.a, batch, now);
      RetransmitLinked(n.(a := Received(awake.a, batch, now)), timer, now);
    }
  }

  lemma SendChunksLinked(n: Net, buf: seq<Byte>)
    requires Linked(n) && n.a.error.None?
    ensures var (s, k) := SendChunks(n.a, buf); Linked(n.(a := s, accA := n.accA + buf[..k]))
  {
    SendChunksInv(n.a, buf);
    SendChunksKeeps(n.a, buf, n.fromA);
    SendChunksOnlyAppends(n.a, buf);
    AcceptedIsLogged(n.a, buf);
    LongerLogKeeps(n.a.snd, SendChunks(n.a, buf).0.snd, n.b.rcv, n.gotB);
  }

  lemma WriteLinked(n: Net, buf: seq<Byte>)
    requires Linked(n)
    ensures Linked(n.(a := PollWrite(n.a, buf).0, accA := n.accA + Accepted(n.a, buf)))
  {
    hide Linked, SendChunks;
    if n.a.error.Some? || buf == [] {
      assert n.accA + Accepted(n.a, buf) == n.accA;
    } else {
      SendChunksLinked(n, buf);
      var (s, k) := SendChunks(n.a, buf);
      assert buf[..0] == [];
      ParkingLinked(n.(a := s, accA := n.accA + buf[..k]));
    }
  }

  lemma ParkingLinked(n: Net)
    requires Linked(n)
    ensures Linked(n.(a := n.a.(writeWaker := true)))
  {
  }

  lemma ReadKeeps(snd: Sender, rcv: Receiver, got: seq<Byte>, room: nat)
    requires ReceiverInv(rcv) && Receives(snd, rcv, got)
    ensures var (rcv', bytes, _) := ReadNext(rcv, room);
      ReceiverInv(rcv') && rcv'.ack == rcv.ack && Receives(snd, rcv', got + bytes)
  {
    hide Readable, ReceiverInv, ReadNext;
    ReadNextInv(rcv, room);
    var (rcv', bytes, _) := ReadNext(rcv, room);
    assert got + bytes + Readable(rcv') == got + (bytes + Readable(rcv'));
  }

  lemma ReadLinked(n: Net, room: nat)
    requires Linked(n)
    ensures Linked(n.(a := PollRead(n.a, room).s, gotA := n.gotA + PollRead(n.a, room).bytes))
  {
    ReadKeeps(n.b.snd, n.a.rcv, n.gotA, room);
    LaterAckKeeps(n.a, PollRead(n.a, room).s, n.fromA);
  }

  lemma StampKeeps(s: State, k: nat, at: nat, from: set<Frame>)
    requires Sends(s, from)
    ensures Sends(Stamp(s, k, at), from)
  {
    var s' := Stamp(s, k, at);
    assert forall j :: j in s.snd.outgoing ==> s'.snd.outgoing[j].ToFrame() == s.snd.outgoing[j].ToFrame();
  }

  lemma StampLinked(n: Net, k: nat, at: nat)
    requires Linked(n)
    ensures Linked(n.(a := Stamp(n.a, k, at)))
  {
    StampInv(n.a, k, at);
    StampKeeps(n.a, k, at, n.fromA);
  }

  lemma DeliverableOk(batch: seq<Frame>, y: State, fromY: set<Frame>)
    requires Sends(y, fromY) && forall f :: f in batch ==> f in fromY
    ensures FramesOk(batch, y)
  {
    forall i | 0 <= i < |batch| ensures FrameOk(batch[i], y) {
      assert batch[i] in batch;
    }
  }

  lemma StepALinked(n: Net, act: Action)
    requires Linked(n) && Sends(n.b, n.fromB) && Enabled(n, MoveA(act))
    ensures Linked(StepA(n, act))
  {
    match act
    case Write(buf) => WriteLinked(n, buf);
    case Read(room) => ReadLinked(n, room);
    case CloseStream => TerminateLinked(n, ConnectionReset);
    case DriveOnce(batch, hungUp, timer, now) =>
      DeliverableOk(batch, n.b, n.fromB);
      DriveLinked(n, batch, hungUp, timer, now);
    case StampSent(k, at) => StampLinked(n, k, at);
  }

  /** A move is an action of one of the two streams. */
  lemma StepAActs(n: Net, act: Action)
    ensures StepA(n, act).a == Apply(n.a, act) && StepA(n, act).b == n.b
  {
    hide PollWrite, PollRead, Close, Drive, Stamp;
  }

  lemma StepAKeepsPeer(n: Net, act: Action)
    ensures var n' := StepA(n, act);
      n'.b == n.b && n'.fromB == n.fromB && n'.accB == n.accB && n'.gotB == n.gotB
  {
  }

  lemma StepAInv(n: Net, act: Action)
    requires NetInv(n) && Enabled(n, MoveA(act))
    ensures NetInv(StepA(n, act))
  {
    StepALinked(n, act);
    StepAKeepsPeer(n, act);
  }

  lemma LossInv(n: Net, lostA: set<Frame>, lostB: set<Frame>)
    requires NetInv(n)
    ensures NetInv(Step(n, Drop(lostA, lostB)))
  {
    hide Inv, Receives;
    assert Linked(n) && Linked(n.Mirror());
  }

  lemma StepInv(n: Net, m: Move)
    requires NetInv(n) && Enabled(n, m)
    ensures NetInv(Step(n, m))
  {
    match m
    case MoveA(act) => StepAInv(n, act);
    case MoveB(act) => StepAInv(n.Mirror(), act);
    case Drop(lostA, lostB) => LossInv(n, lostA, lostB);
  }

  lemma StartInv(idA: nat, idB: nat)
    ensures NetInv(Start(idA, idB))
  {
    var log: seq<seq<Byte>> := [];
    assert log[..0] == log;
  }

  lemma {:induction false} ExecInv(n: Net, moves: seq<Move>)
    requires NetInv(n) && AllEnabled(n, moves)
    ensures NetInv(Exec(n, moves))
  {
    hide NetInv, Step;
    if moves != [] {
      ExecInv(n, moves[..|moves| - 1]);
      StepInv(Exec(n, moves[..|moves| - 1]), moves[|moves| - 1]);
    }
  }

  lemma ReachableInv(n: Net)
    requires Reachable(n)
    ensures NetInv(n)
  {
    hide NetInv, Exec, Start;
    var idA, idB, moves :| AllEnabled(Start(idA, idB), moves) && n == Exec(Start(idA, idB), moves);
    StartInv(idA, idB);
    ExecInv(Start(idA, idB), moves);
  }

  // ----- main results -----

  lemma FrontIsPrefix(a: seq<Byte>, b: seq<Byte>, c: seq<Byte>)
    ensures a <= a + b + c
  {
  }

  lemma PrefixOfLog(got: seq<Byte>, readable: seq<Byte>, log: seq<seq<Byte>>, ack: nat)
    requires ack <= |log| && got + readable == Flatten(log[..ack])
    ensures got <= Flatten(log)
  {
    assert Flatten(log) == Flatten(log[..ack]) + Flatten(log[ack..]) by {
      FlattenConcat(log[..ack], log[ack..]);
      assert log == log[..ack] + log[ack..];
    }
    FrontIsPrefix(got, readable, Flatten(log[ack..]));
  }

  lemma DeliveredIsPrefix(n: Net)
    requires Linked(n)
    ensures n.gotB <= n.accA
  {
    PrefixOfLog(n.gotB, Readable(n.b.rcv), n.a.snd.log, n.b.rcv.ack);
  }

  /**
   In every reachable state, closed or not, each reader has been given a prefix of what the
   other side's writer had accepted.
   */
  lemma PrefixDelivery(n: Net)
    requires Reachable(n)
    ensures n.gotB <= n.accA && n.gotA <= n.accB
  {
    ReachableInv(n);
    DeliveredIsPrefix(n);
    DeliveredIsPrefix(n.Mirror());
  }

  /**
   Nothing unacknowledged is forgotten, and no packet in the network, however stale, carries an
   acknowledgement beyond what was sent: the ack loop always finds the packet it removes.
   */
  lemma NothingAcknowledgedIsLost(n: Net)
    requires Reachable(n)
    ensures n.a.snd.remoteAcked <= n.b.rcv.ack <= n.a.snd.nextSeq
    ensures forall k :: 0 <= k < n.a.snd.nextSeq ==> k in n.a.snd.outgoing || k < n.b.rcv.ack
    ensures forall f :: f in n.fromB ==> f.header.ack <= n.a.snd.nextSeq
    ensures forall f, k :: f in n.fromB && n.a.snd.remoteAcked <= k < f.header.ack ==> k in n.a.snd.outgoing
  {
    ReachableInv(n);
    assert Sends(n.b, n.fromB) by {
      assert Linked(n.Mirror());
    }
  }

  /**
   When the driver finds its stream closed and drained and completes `close()`, the peer has
   acknowledged everything: what it has not read yet a large enough read will give it.
   */
  lemma CloseMeansDelivered(n: Net, batch: seq<Frame>, hungUp: bool, timer: bool, now: nat, room: nat)
    requires Reachable(n) && !n.a.finished
    requires Drive(n.a, batch, hungUp, timer, now).outcome.Finished?
    ensures n.b.rcv.ack == n.a.snd.nextSeq
    ensures n.gotB + Readable(n.b.rcv) == n.accA
    ensures room >= |Readable(n.b.rcv)| ==> n.gotB + PollRead(n.b, room).bytes == n.accA
  {
    ReachableInv(n);
    assert ClosedAndDrained(n.a.(driveWaker := false));
    assert n.a.snd.remoteAcked !in n.a.snd.outgoing;
    assert n.a.snd.log[..n.b.rcv.ack] == n.a.snd.log;
    assert Inv(n.b) by {
      assert Linked(n.Mirror());
    }
    ReadNextInv(n.b.rcv, room);
    if room >= |Readable(n.b.rcv)| {
      var (rcv', bytes, _) := ReadNext(n.b.rcv, room);
      assert |Readable(rcv')| == 0;
      assert bytes + Readable(rcv') == bytes;
    }
  }
}
