/**
 A run that ends outside the bound of the congestion window (src/stream.rs:367-404): two packets
 are sent and lost six times, three acknowledgements of the first widen the window, three more
 packets fill it, and the next timeout halves it but gives up on the second packet before it has
 taken anything out of flight. The peer acknowledges nothing that was not sent.
 */
module Overshoot {
  import opened Constants
  import opened Wire
  import opened Ledger
  import opened Congestion
  import opened StreamModel
  import opened StreamInvariant
  import opened Retransmission
  import opened Window
  import opened GivingUp

  // ----- runs in parts -----

  lemma {:induction false} SoundConcat(s: State, a: seq<Action>, b: seq<Action>)
    requires SoundRun(s, a) && SoundRun(Run(s, a), b)
    ensures SoundRun(s, a + b)
  {
    hide Run, SoundAcks;
    if b == [] {
      assert a + b == a;
    } else {
      SoundConcat(s, a, b[..|b| - 1]);
      RunConcat(s, a, b[..|b| - 1]);
      assert (a + b)[..|a + b| - 1] == a + b[..|b| - 1];
    }
  }

  lemma SoundOne(s: State, a: Action)
    requires SoundAcks(a, s.snd.nextSeq)
    ensures SoundRun(s, [a]) && Run(s, [a]) == Apply(s, a)
  {
    hide Apply;
    RunOne(s, a);
    assert [a][..0] == [];
    assert SoundRun(s, []) && Run(s, []) == s;
  }

  // ----- the parts -----

  /** The two packets after `n` losses, both sent again. */
  function Tried(n: nat): Packets {
    map[0 := OutPacket(Header(UDX_HEADER_DATA, 0, 1, TWO_TO_THE_32 - 1, 0, 0), [7], false, n, None, n + 1),
        1 := OutPacket(Header(UDX_HEADER_DATA, 0, 1, TWO_TO_THE_32 - 1, 1, 0), [8], false, n, None, n + 1)]
  }

  /** What the rest of the run needs to know of the stream. */
  ghost predicate At(s: State, nextSeq: nat, remoteAcked: nat, inflight: int, cwnd: int) {
    && !s.finished && s.error.None?
    && s.snd.nextSeq == nextSeq && s.snd.remoteAcked == remoteAcked
    && s.snd.inflight == inflight && s.snd.cwnd == cwnd
  }

  lemma TwoWrites()
    ensures var s := Run(Connect(1), [Write([7]), Write([8])]);
      SoundRun(Connect(1), [Write([7]), Write([8])]) && At(s, 2, 0, 42, 2 * UDX_MTU) && s.snd.outgoing == Tried(0)
  {
    hide PollWrite, PollRead, Drive;
    var open := Connect(1);
    OneByte(open, 7);
    var one := SendData(open, [7]);
    OneByte(one, 8);
    SoundOne(open, Write([7]));
    SoundOne(one, Write([8]));
    SoundConcat(open, [Write([7])], [Write([8])]);
    RunConcat(open, [Write([7])], [Write([8])]);
    assert [Write([7])] + [Write([8])] == [Write([7]), Write([8])];
  }

  lemma TickTimeout(snd: Sender, n: nat)
    requires snd.nextSeq == 2 && snd.remoteAcked == 0 && snd.outgoing == Tried(n) && n <= 5 && snd.inflight == 42
    ensures var (snd', ok) := CheckTimeouts(snd, true);
      && ok && snd' == snd.(outgoing := snd'.outgoing, inflight := 0, cwnd := Max(UDX_MTU, snd.cwnd / 2))
      && snd'.outgoing == map[0 := Lose(Tried(n)[0]), 1 := Lose(Tried(n)[1])]
  {
    assert FirstExhausted(snd.outgoing, 1, 2) == 2;
    assert FirstExhausted(snd.outgoing, 0, 2) == 2;
    assert Total(InFlight, snd.outgoing, 0, 1) == 21;
    assert Total(InFlight, snd.outgoing, 0, 2) == 42;
  }

  lemma TickFlush(s: State, n: nat)
    requires s.snd.nextSeq == 2 && s.snd.remoteAcked == 0 && s.snd.inflight == 0 && s.snd.cwnd >= UDX_MTU
    requires s.snd.outgoing == map[0 := Lose(Tried(n)[0]), 1 := Lose(Tried(n)[1])]
    ensures Flush(s).snd == s.snd.(outgoing := Tried(n + 1), inflight := 42)
  {
    var out, cwnd := s.snd.outgoing, s.snd.cwnd;
    assert FlushStop(out, 2, 2, 42, cwnd) == 2;
    assert FlushStop(out, 1, 2, 21, cwnd) == 2;
    assert FlushStop(out, 0, 2, 0, cwnd) == 2;
    assert Total(Waiting, out, 0, 1) == 21;
    assert Total(Waiting, out, 0, 2) == 42;
    assert MarkSent(s.snd, 0, 2).outgoing == Tried(n + 1);
  }

  lemma TickTried(s: State, n: nat)
    requires At(s, 2, 0, 42, s.snd.cwnd) && s.snd.cwnd >= UDX_MTU && s.snd.outgoing == Tried(n) && n <= 5
    ensures var s' := Apply(s, TICK);
      At(s', 2, 0, 42, Max(UDX_MTU, s.snd.cwnd / 2)) && s'.snd.outgoing == Tried(n + 1)
  {
    hide Tried, CheckTimeouts, Flush, PollRead, PollWrite;
    assert 0 in s.snd.outgoing by {
      HasFirst(n);
    }
    var awake := s.(driveWaker := false);
    assert Received(awake, [], 0) == awake;
    TickTimeout(s.snd, n);
    TickFlush(CheckTimer(awake, true, 0).0, n);
    FlushKeepsOpen(CheckTimer(awake, true, 0).0);
  }

  lemma HasFirst(n: nat)
    ensures 0 in Tried(n)
  {
  }

  lemma FlushKeepsOpen(s: State)
    ensures Flush(s).finished == s.finished && Flush(s).error == s.error
  {
  }

  lemma {:induction false} SoundTicks(s: State, n: nat)
    ensures SoundRun(s, Ticks(n))
  {
    hide Run;
    if n > 0 {
      SoundTicks(s, n - 1);
      assert Ticks(n)[..n - 1] == Ticks(n - 1);
    }
  }

  lemma {:induction false} SixLosses(s: State, n: nat)
    requires At(s, 2, 0, 42, 2 * UDX_MTU) && s.snd.outgoing == Tried(0) && n <= 6
    ensures var s' := Run(s, Ticks(n));
      && SoundRun(s, Ticks(n)) && At(s', 2, 0, 42, s'.snd.cwnd) && s'.snd.outgoing == Tried(n)
      && s'.snd.cwnd == if n == 0 then 2 * UDX_MTU else UDX_MTU
  {
    hide Tried, Apply, Run, Ticks, SoundRun;
    SoundTicks(s, n);
    if n == 0 {
      NoTick(s);
    } else {
      SixLosses(s, n - 1);
      OneMoreTick(s, n - 1);
      TickTried(Run(s, Ticks(n - 1)), n - 1);
    }
  }

  const ACK_FIRST: Frame := Frame(Header(0, 0, 1, 0, 0, 1), [])

  /** One poll with three acknowledgements of the first packet. */
  const ACKS: Action := DriveOnce([ACK_FIRST, ACK_FIRST, ACK_FIRST], false, false, 0)

  lemma ThreeAdvance(snd: Sender)
    requires snd.remoteAcked == 0 && snd.nextSeq == 2 && snd.cwnd == UDX_MTU
    ensures GrowN(snd.cwnd, Advancing(snd, ACKS.batch)) == 4 * UDX_MTU && MaxAck(ACKS.batch) == 1
  {
    var f := ACK_FIRST;
    assert [f][1..] == [] && [f, f][1..] == [f] && [f, f, f][1..] == [f, f];
    assert Advancing(snd, [f]) == 1 && Advancing(snd, [f, f]) == 2 && Advancing(snd, [f, f, f]) == 3;
    assert [f][..0] == [] && [f, f][..1] == [f] && [f, f, f][..2] == [f, f];
    assert MaxAck([f]) == 1 && MaxAck([f, f]) == 1 && MaxAck([f, f, f]) == 1;
    assert GrowN(UDX_MTU, 1) == 2 * UDX_MTU && GrowN(UDX_MTU, 2) == 3 * UDX_MTU;
  }

  lemma PlainIncoming(s: State, f: Frame, now: nat)
    requires f.header.typ == 0
    ensures HandleIncoming(s, f, now).error == s.error
  {
  }

  lemma {:induction false} PlainBatch(s: State, batch: seq<Frame>, now: nat)
    requires forall i :: 0 <= i < |batch| ==> batch[i].header.typ == 0
    ensures HandleAll(s, batch, now).error == s.error
    decreases |batch|
  {
    hide HandleIncoming;
    if batch != [] {
      PlainIncoming(s, batch[0], now);
      PlainBatch(HandleIncoming(s, batch[0], now), batch[1..], now);
    }
  }

  lemma FirstAcked(s: State)
    requires At(s, 2, 0, 42, 4 * UDX_MTU) && s.snd.outgoing == Tried(6)
    ensures var s' := HandleAck(s, 1, 0);
      At(s', 2, 1, 21, 4 * UDX_MTU) && s'.snd.outgoing == map[1 := Tried(6)[1]]
  {
    hide Samples;
    assert Total(InFlight, s.snd.outgoing, 0, 1) == 21;
    assert Without(s.snd.outgoing, 0, 1) == map[1 := Tried(6)[1]];
  }

  lemma NothingWaits(s: State)
    requires At(s, 2, 1, 21, 4 * UDX_MTU) && s.snd.outgoing == map[1 := Tried(6)[1]]
    ensures var s' := Retransmit(s, false, 0).s;
      At(s', 2, 1, 21, 4 * UDX_MTU) && s'.snd.outgoing == map[1 := Tried(6)[1]]
  {
    var out := s.snd.outgoing;
    assert FlushStop(out, 1, 2, 21, 4 * UDX_MTU) == 2;
    assert Total(Waiting, out, 1, 2) == 0;
    assert MarkSent(s.snd, 1, 2).outgoing == out;
  }

  lemma AcksWiden(s: State)
    requires At(s, 2, 0, 42, UDX_MTU) && s.snd.outgoing == Tried(6)
    ensures var s' := Apply(s, ACKS);
      At(s', 2, 1, 21, 4 * UDX_MTU) && s'.snd.outgoing == map[1 := Tried(6)[1]]
  {
    hide Tried, HandleAll, HandleAck, MaxAck, Advancing, GrowN, Retransmit, PollRead, PollWrite;
    var awake, batch := s.(driveWaker := false), ACKS.batch;
    ThreeAdvance(s.snd);
    BatchGrows(awake, batch, 0);
    HandleAllFrame(awake, batch, 0);
    PlainBatch(awake, batch, 0);
    FirstAcked(HandleAll(awake, batch, 0));
    NothingWaits(Received(awake, batch, 0));
  }

  /** A write that fills the widened window. */
  lemma ThreePackets(s: State, buf: seq<Byte>)
    requires |buf| == 3 * UDX_MAX_DATA_SIZE
    requires At(s, 2, 1, 21, 4 * UDX_MTU) && s.snd.outgoing == map[1 := Tried(6)[1]]
    ensures var s' := PollWrite(s, buf).0;
      At(s', 5, 1, 21 + 3 * UDX_MTU, 4 * UDX_MTU) && 1 in s'.snd.outgoing && s'.snd.outgoing[1] == Tried(6)[1]
  {
    var n := UDX_MAX_DATA_SIZE;
    var b2, b3 := buf[n..], buf[n..][n..];
    var s1 := SendData(s, buf[..n]);
    var s2 := SendData(s1, b2[..n]);
    var s3 := SendData(s2, b3[..n]);
    assert b3[n..] == [];
    assert SendChunks(s3, []) == (s3, 0);
    assert SendChunks(s2, b3) == (s3, n);
    assert SendChunks(s1, b2) == (s3, n + n);
    assert SendChunks(s, buf) == (s3, n + n + n);
  }

  lemma LastTick(s: State)
    requires At(s, 5, 1, 21 + 3 * UDX_MTU, 4 * UDX_MTU) && 1 in s.snd.outgoing && s.snd.outgoing[1] == Tried(6)[1]
    ensures var snd := Apply(s, TICK).snd;
      GivesUp(s, TICK) && snd.inflight == 21 + 3 * UDX_MTU && snd.cwnd == 2 * UDX_MTU
  {
    hide PollRead, PollWrite;
    var awake := s.(driveWaker := false);
    assert Received(awake, [], 0) == awake;
    assert FirstExhausted(s.snd.outgoing, 1, 5) == 1;
    assert Total(InFlight, s.snd.outgoing, 1, 1) == 0;
  }

  // ----- the run -----

  function Opening(): seq<Action> {
    [Write([7]), Write([8])] + Ticks(6)
  }

  function Overshooting(buf: seq<Byte>): seq<Action> {
    Opening() + [ACKS] + [Write(buf)]
  }

  lemma Opens()
    ensures var s := Run(Connect(1), Opening());
      SoundRun(Connect(1), Opening()) && At(s, 2, 0, 42, UDX_MTU) && s.snd.outgoing == Tried(6)
  {
    hide Run, SoundRun, Ticks, Tried;
    TwoWrites();
    var s := Run(Connect(1), [Write([7]), Write([8])]);
    SixLosses(s, 6);
    SoundConcat(Connect(1), [Write([7]), Write([8])], Ticks(6));
    RunConcat(Connect(1), [Write([7]), Write([8])], Ticks(6));
  }

  lemma Overshoots(buf: seq<Byte>)
    requires |buf| == 3 * UDX_MAX_DATA_SIZE
    ensures var s := Run(Connect(1), Overshooting(buf));
      && SoundRun(Connect(1), Overshooting(buf)) && At(s, 5, 1, 21 + 3 * UDX_MTU, 4 * UDX_MTU)
      && 1 in s.snd.outgoing && s.snd.outgoing[1] == Tried(6)[1]
  {
    hide Run, SoundRun, Opening, Tried, Drive, PollWrite, PollRead;
    Opens();
    var open := Connect(1);
    var s1 := Run(open, Opening());
    AcksWiden(s1);
    SoundOne(s1, ACKS);
    SoundConcat(open, Opening(), [ACKS]);
    RunConcat(open, Opening(), [ACKS]);
    var s2 := Run(open, Opening() + [ACKS]);
    ThreePackets(s2, buf);
    SoundOne(s2, Write(buf));
    SoundConcat(open, Opening() + [ACKS], [Write(buf)]);
    RunConcat(open, Opening() + [ACKS], [Write(buf)]);
  }

  /**
   The bound fails after giving up: a run with sound acknowledgements whose last poll gives up and
   leaves 4221 bytes in flight in a window of 2800.
   */
  lemma GivingUpOvershoots(buf: seq<Byte>)
    requires |buf| == 3 * UDX_MAX_DATA_SIZE
    ensures var acts := Overshooting(buf);
      var s := Run(Connect(1), acts);
      && SoundRun(Connect(1), acts + [TICK]) && GivesUp(s, TICK)
      && Run(Connect(1), acts + [TICK]).snd.inflight > Run(Connect(1), acts + [TICK]).snd.cwnd + UDX_HEADER_SIZE
      && !InWindow(Run(Connect(1), acts + [TICK]).snd)
  {
    hide Run, SoundRun, Overshooting, Tried, Apply, GivesUp;
    Overshoots(buf);
    var open, acts := Connect(1), Overshooting(buf);
    var s := Run(open, acts);
    LastTick(s);
    SoundOne(s, TICK);
    SoundConcat(open, acts, [TICK]);
    RunConcat(open, acts, [TICK]);
  }
}
