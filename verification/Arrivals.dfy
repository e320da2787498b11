/**
 What arriving packets do besides moving data (src/stream.rs:617-704): whom they wake, how they close
 the stream, what is counted. Exact, for one packet and for a whole poll.
 */
module Arrivals {
  import opened Constants
  import opened Wire
  import opened Ledger
  import opened StreamModel
  import opened StreamInvariant
  import opened Parking
  import opened Reassembly

  predicate IsData(f: Frame) {
    HasType(f.header.typ, UDX_HEADER_DATA)
  }

  /** The packet is data up to and including the one the reader is waiting for. */
  predicate Awaited(f: Frame, ack: nat) {
    IsData(f) && f.header.seqno <= ack
  }

  ghost predicate NoneAwaited(batch: seq<Frame>, ack: nat) {
    forall i :: 0 <= i < |batch| ==> !Awaited(batch[i], ack)
  }

  /** The bytes of all data packets. */
  function DataBytes(fs: seq<Frame>): nat {
    if fs == [] then 0 else DataBytes(fs[..|fs| - 1]) + if IsData(fs[|fs| - 1]) then |fs[|fs| - 1].body| else 0
  }

  lemma {:induction false} DataBytesConcat(a: seq<Frame>, b: seq<Frame>)
    ensures DataBytes(a + b) == DataBytes(a) + DataBytes(b)
  {
    if b == [] {
      assert a + b == a;
    } else {
      DataBytesConcat(a, b[..|b| - 1]);
      assert (a + b)[..|a + b| - 1] == a + b[..|b| - 1];
    }
  }

  // ----- one packet -----

  /** A packet moves the gap exactly if it is the one the gap is waiting for. */
  lemma InsertMoves(rcv: Receiver, f: Frame)
    requires ReceiverInv(rcv)
    ensures Insert(rcv, f).ack > rcv.ack <==> f.header.seqno == rcv.ack
    ensures f.header.seqno <= Insert(rcv, f).ack <==> f.header.seqno <= rcv.ack
  {
    InsertInv(rcv, f);
    var rcv' := Insert(rcv, f);
    assert rcv.ack in rcv'.incoming <==> f.header.seqno == rcv.ack;
    assert rcv'.ack > rcv.ack ==> rcv.ack in rcv'.incoming.Keys;
  }

  /** Everything of a stream but its sender, its queue and its reassembly buffer. */
  ghost predicate Became(s: State, s': State, readWaker: bool, ended: bool, packets: nat, bytes: nat) {
    && s'.readWaker == readWaker && s'.onClose == s.onClose && s'.finished == s.finished
    && s'.error == (if ended then Some(UnexpectedEof) else s.error)
    && s'.phase == (if ended then BothClosed else s.phase)
    && s'.counters.rxPackets == s.counters.rxPackets + packets
    && s'.counters.rxBytes == s.counters.rxBytes + bytes
  }

  /**
   One packet: it wakes the reader if it ends the stream or is data the reader may be waiting for, it
   closes both directions if it ends the stream, and it is counted.
   */
  lemma IncomingBecomes(s: State, f: Frame, now: nat)
    requires ReceiverInv(s.rcv)
    ensures var s' := HandleIncoming(s, f, now);
      Became(s, s', s.readWaker && !Ends(f) && !Awaited(f, s.rcv.ack), Ends(f), 1, if IsData(f) then |f.body| else 0)
  {
    hide TakeSacks, Insert, ReceiverInv;
    TakeSacksFrame(CountRx(s), f, now);
    InsertMoves(s.rcv, f);
  }

  lemma IncomingGap(s: State, f: Frame, now: nat)
    requires ReceiverInv(s.rcv)
    ensures var rcv := HandleIncoming(s, f, now).rcv;
      ReceiverInv(rcv) && s.rcv.ack <= rcv.ack && (!Awaited(f, s.rcv.ack) ==> rcv.ack == s.rcv.ack)
  {
    hide HandleIncoming, Insert, ReceiverInv;
    IncomingInserts(s, f, now);
    InsertMoves(s.rcv, f);
    InsertInv(s.rcv, f);
  }

  /** A packet without data, as a stream sends it. */
  function BarePacket(id: nat, ended: bool, nextSeq: nat, ack: nat): Frame {
    Frame(Header(if ended then UDX_HEADER_END else 0, 0, id, TWO_TO_THE_32 - 1, nextSeq, ack), [])
  }

  /**
   What a packet is answered with: an END packet if it ends the stream, and an acknowledgement of
   everything received by then if it is data, which ends the stream too if that is closed.
   */
  lemma IncomingIsAnswered(s: State, f: Frame, now: nat)
    requires s.error.Some? <==> s.phase.IsLocalClosed()
    ensures var s' := HandleIncoming(s, f, now);
      s'.queue == s.queue
        + (if Ends(f) then [BarePacket(s.remoteId, true, s.snd.nextSeq, s.rcv.ack)] else [])
        + (if IsData(f) then [BarePacket(s.remoteId, s.error.Some? || Ends(f), s.snd.nextSeq, s'.rcv.ack)] else [])
  {
    hide TakeSacks, Insert;
    TakeSacksFrame(CountRx(s), f, now);
  }

  // ----- a batch -----

  lemma {:induction false} BatchBecomes(s: State, batch: seq<Frame>, now: nat)
    requires ReceiverInv(s.rcv)
    ensures var s' := HandleAll(s, batch, now);
      && Became(s, s', s.readWaker && NoneEnds(batch) && NoneAwaited(batch, s.rcv.ack), !NoneEnds(batch),
                |batch|, DataBytes(batch))
      && s.rcv.ack <= s'.rcv.ack && (NoneAwaited(batch, s.rcv.ack) ==> s'.rcv.ack == s.rcv.ack)
    decreases |batch|
  {
    hide HandleIncoming, ReceiverInv, Ends, Awaited, DataBytes;
    if batch == [] {
      NoBytes();
    } else {
      var f, rest := batch[0], batch[1..];
      assert batch == [f] + rest;
      IncomingBecomes(s, f, now);
      IncomingGap(s, f, now);
      BatchBecomes(HandleIncoming(s, f, now), rest, now);
      DataBytesConcat([f], rest);
      OneBytes(f);
      assert NoneEnds(batch) <==> !Ends(f) && NoneEnds(rest);
      assert NoneAwaited(batch, s.rcv.ack) <==> !Awaited(f, s.rcv.ack) && NoneAwaited(rest, s.rcv.ack);
    }
  }

  lemma NoBytes()
    ensures DataBytes([]) == 0
  {
  }

  lemma OneBytes(f: Frame)
    ensures DataBytes([f]) == if IsData(f) then |f.body| else 0
  {
    assert [f][..0] == [];
  }

  // ----- a poll -----

  /** The driver goes on: it has not completed and does not complete now. */
  predicate Running(s: State) {
    !s.finished && !ClosedAndDrained(s.(driveWaker := false))
  }

  /** How a poll ends, and whether the driver is parked after it. */
  lemma PollEnds(s: State, batch: seq<Frame>, hungUp: bool, timer: bool, now: nat)
    ensures var d := Drive(s, batch, hungUp, timer, now);
      && (d.outcome.Finished? <==> !Running(s))
      && (d.outcome == Aborted(BrokenPipe) <==> Running(s) && hungUp)
      && (d.outcome == Aborted(TimedOut) ==> Running(s) && !hungUp)
      && (d.outcome.Aborted? ==> d.outcome.error.BrokenPipe? || d.outcome.error.TimedOut?)
      && (!s.finished ==> (d.s.driveWaker <==> d.outcome.Parked?))
      && (d.outcome.Parked? ==> d.s.queue == [])
  {
    hide HandleAll, Received, CheckTimeouts, Flush;
  }

  lemma RetransmitRest(s: State, timer: bool, now: nat)
    ensures var d := Retransmit(s, timer, now);
      if d.outcome.Aborted?
      then Became(s, d.s.(error := s.error, phase := s.phase), false, false, 0, 0) && d.outcome == Aborted(TimedOut)
           && d.s.error == Some(TimedOut) && d.s.phase == s.phase.CloseLocal() && d.s.rcv == s.rcv
      else Became(s, d.s, s.readWaker, false, 0, 0) && d.outcome == Parked && d.s.rcv == s.rcv
  {
    hide CheckTimeouts, FlushStop, WaitingFrames, MarkSent;
  }

  lemma ReceivedRest(s: State, batch: seq<Frame>, now: nat)
    ensures var all, received := HandleAll(s, batch, now), Received(s, batch, now);
      Became(all, received, all.readWaker, false, 0, 0) && received.rcv == all.rcv
  {
    hide HandleAll;
  }

  /** What a poll of a driver that goes on has done, whatever arrived and however it ends. */
  lemma PollBecomes(s: State, batch: seq<Frame>, hungUp: bool, timer: bool, now: nat)
    requires ReceiverInv(s.rcv) && Running(s)
    ensures var d := Drive(s, batch, hungUp, timer, now);
      && d.s.rcv.ack >= s.rcv.ack && (NoneAwaited(batch, s.rcv.ack) ==> d.s.rcv.ack == s.rcv.ack)
      && d.s.readWaker == (s.readWaker && NoneEnds(batch) && NoneAwaited(batch, s.rcv.ack) && !d.outcome.Aborted?)
      && d.s.error == (if d.outcome.Aborted? then Some(d.outcome.error)
                       else if NoneEnds(batch) then s.error else Some(UnexpectedEof))
      && d.s.phase == (if !NoneEnds(batch) then BothClosed
                       else if d.outcome.Aborted? then s.phase.CloseLocal() else s.phase)
      && d.s.onClose == s.onClose && d.s.finished == s.finished
      && d.s.counters.rxPackets == s.counters.rxPackets + |batch|
      && d.s.counters.rxBytes == s.counters.rxBytes + DataBytes(batch)
  {
    hide HandleAll, Received, Retransmit, ReceiverInv, NoneEnds, NoneAwaited, DataBytes;
    var awake := s.(driveWaker := false);
    BatchBecomes(awake, batch, now);
    if !hungUp {
      ReceivedRest(awake, batch, now);
      RetransmitRest(Received(awake, batch, now), timer, now);
    }
  }
}
