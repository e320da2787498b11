/**
 Who waits, and whether somebody will wake them (src/stream.rs:100-105, 322-334, 550-554,
 745-747, 776-838). Wakers are kept as booleans.
 */
module Parking {
  import opened Constants
  import opened Wire
  import opened Ledger
  import opened StreamModel
  import opened StreamInvariant
  import opened Retransmission

  /** A parked writer has data in flight, whose acknowledgement will wake it. */
  ghost predicate WriterCared(s: State) {
    s.writeWaker ==> |s.snd.outgoing| > 0
  }

  predicate NoSacks(a: Action) {
    a.DriveOnce? ==> forall i :: 0 <= i < |a.batch| ==> NoSack(a.batch[i])
  }

  lemma InFlightMeansOutstanding(snd: Sender)
    requires Conserved(snd) && snd.inflight > 0
    ensures |snd.outgoing| > 0
  {
    if |snd.outgoing| == 0 {
      TotalZero(InFlight, snd.outgoing, 0, snd.nextSeq);
    }
  }

  lemma ParkedWriterHasData(s: State, buf: seq<Byte>)
    requires Inv(s) && WriterCared(s)
    ensures WriterCared(PollWrite(s, buf).0)
  {
    if s.error.None? && buf != [] {
      SendChunksAdds(s, buf);
      if SendChunks(s, buf).1 == 0 {
        assert SendChunks(s, buf).0 == s;
        InFlightMeansOutstanding(s.snd);
      } else {
        SendChunksKeepsWaker(s, buf);
        if s.writeWaker {
          SendChunksOutstanding(s, buf);
        }
      }
    }
  }

  lemma {:induction false} SendChunksKeepsWaker(s: State, buf: seq<Byte>)
    ensures SendChunks(s, buf).0.writeWaker == s.writeWaker
    decreases |buf|
  {
    var len := Min(|buf|, UDX_MAX_DATA_SIZE);
    if buf != [] && s.snd.inflight + len <= s.snd.cwnd {
      SendChunksKeepsWaker(SendData(s, buf[..len]), buf[len..]);
    }
  }

  lemma SendChunksOutstanding(s: State, buf: seq<Byte>)
    requires Inv(s) && s.error.None? && |s.snd.outgoing| > 0
    ensures |SendChunks(s, buf).0.snd.outgoing| > 0
  {
    SendChunksAdds(s, buf);
    var k :| k in s.snd.outgoing;
    assert k in SendChunks(s, buf).0.snd.outgoing;
  }

  /** An acknowledgement that leaves nothing outstanding wakes the writer. */
  lemma EmptyingAckWakes(s: State, ack: nat, now: nat)
    requires Inv(s) && s.snd.remoteAcked < ack && |HandleAck(s, ack, now).snd.outgoing| == 0
    ensures !HandleAck(s, ack, now).writeWaker
  {
    HandleAckInv(s, ack, now);
    var snd := HandleAck(s, ack, now).snd;
    TotalZero(InFlight, snd.outgoing, 0, snd.nextSeq);
  }

  lemma PollCares(s: State, a: Action)
    requires Inv(s) && WriterCared(s) && a.DriveOnce? && NoSacks(a)
    ensures WriterCared(Apply(s, a))
  {
    var awake := s.(driveWaker := false);
    var all := HandleAll(awake, a.batch, a.now);
    HandleAllInv(awake, a.batch, a.now);
    HandleAllFrame(awake, a.batch, a.now);
    assert WriterCared(all);
    if all.snd.remoteAcked < MaxAck(a.batch) && |HandleAck(all, MaxAck(a.batch), a.now).snd.outgoing| == 0 {
      EmptyingAckWakes(all, MaxAck(a.batch), a.now);
    }
    var received := Received(awake, a.batch, a.now);
    assert WriterCared(received);
    RetransmitCares(received, a.timer, a.now);
  }

  lemma RetransmitCares(s: State, timer: bool, now: nat)
    requires WriterCared(s)
    ensures WriterCared(Retransmit(s, timer, now).s)
  {
    var snd := CheckTimeouts(s.snd, timer).0;
    assert snd.outgoing.Keys == s.snd.outgoing.Keys;
    var flushed := Flush(CheckTimer(s, timer, now).0);
    assert flushed.snd.outgoing.Keys == snd.outgoing.Keys;
    assert |snd.outgoing| == |snd.outgoing.Keys| && |flushed.snd.outgoing| == |flushed.snd.outgoing.Keys|;
  }

  lemma StepCares(s: State, a: Action)
    requires Inv(s) && WriterCared(s) && NoSacks(a)
    ensures WriterCared(Apply(s, a))
  {
    if a.DriveOnce? {
      PollCares(s, a);
    } else if a.Write? {
      ParkedWriterHasData(s, a.buf);
    } else {
      OthersCare(s, a);
    }
  }

  lemma OthersCare(s: State, a: Action)
    requires WriterCared(s) && !a.DriveOnce? && !a.Write?
    ensures WriterCared(Apply(s, a))
  {
    hide Drive, PollWrite, ReadNext;
    if a.StampSent? {
      assert Stamp(s, a.k, a.at).snd.outgoing.Keys == s.snd.outgoing.Keys;
    }
  }

  /**
   Over every run without SACKs, a parked writer always has outstanding data; a `TimedOut` poll
   wakes it outright.
   */
  lemma {:induction false} ParkedWriterIsNeverStranded(remoteId: nat, acts: seq<Action>)
    requires forall i :: 0 <= i < |acts| ==> NoSacks(acts[i])
    ensures WriterCared(Run(Connect(remoteId), acts))
  {
    hide Inv, Apply, WriterCared;
    if acts == [] {
      NobodyParkedAtStart(remoteId);
    } else {
      var init := acts[..|acts| - 1];
      ParkedWriterIsNeverStranded(remoteId, init);
      InvAlways(remoteId, init);
      StepCares(Run(Connect(remoteId), init), acts[|acts| - 1]);
    }
  }

  lemma NobodyParkedAtStart(remoteId: nat)
    ensures WriterCared(Connect(remoteId))
  {
  }

  lemma AbortWakes(s: State, a: Action)
    requires a.DriveOnce? && Drive(s, a.batch, a.hungUp, a.timer, a.now).outcome.Aborted?
    ensures !Apply(s, a).writeWaker && !Apply(s, a).readWaker
  {
  }

  /**
   A poll that learns of a new acknowledgement, and is not told of an end, wakes a parked writer exactly
   if there is room for a full packet with its header then.
   */
  lemma ProgressWakesWriter(s: State, batch: seq<Frame>, now: nat)
    requires s.snd.remoteAcked < MaxAck(batch) && s.writeWaker && NoneEnds(batch)
    ensures var received := Received(s, batch, now);
      received.writeWaker <==> received.snd.inflight + UDX_MTU > received.snd.cwnd
  {
    hide HandleAll, Samples, Total;
    BatchSacks(s, batch, now);
    HandleAllFrame(s, batch, now);
  }

  /** A writer that is woken like this does not wake in vain: its next write is accepted, in part at least. */
  lemma WokenWriterWrites(s: State, buf: seq<Byte>)
    requires s.error.None? && s.snd.inflight + UDX_MTU <= s.snd.cwnd && buf != []
    ensures var r := PollWrite(s, buf).1; r.Ready? && r.value >= Min(|buf|, UDX_MAX_DATA_SIZE)
  {
    hide SendData;
    assert s.snd.inflight + Min(|buf|, UDX_MAX_DATA_SIZE) <= s.snd.cwnd;
  }

  // ----- SACKs -----

  ghost predicate Covered(k: nat, blocks: seq<(nat, nat)>) {
    exists i :: 0 <= i < |blocks| && blocks[i].0 <= k < blocks[i].1
  }

  lemma {:induction false} RetireBlocksExact(snd: Sender, blocks: seq<(nat, nat)>, now: nat)
    ensures forall k :: k in RetireBlocks(snd, blocks, now).outgoing <==> k in snd.outgoing && !Covered(k, blocks)
    decreases |blocks|
  {
    if blocks != [] {
      var rest := blocks[1..];
      RetireBlocksExact(Retire(snd, blocks[0].0, blocks[0].1, now), rest, now);
      forall k ensures Covered(k, blocks) <==> blocks[0].0 <= k < blocks[0].1 || Covered(k, rest) {
        if i :| 0 <= i < |blocks| && blocks[i].0 <= k < blocks[i].1 {
          assert i > 0 ==> rest[i - 1] == blocks[i];
        }
        if i :| 0 <= i < |rest| && rest[i].0 <= k < rest[i].1 {
          assert blocks[i + 1] == rest[i];
        }
      }
    }
  }

  predicate Ends(f: Frame) {
    HasType(f.header.typ, UDX_HEADER_END)
  }

  /** A SACK packet with a block for `k`. */
  ghost predicate Sacks(f: Frame, k: nat) {
    HasType(f.header.typ, UDX_HEADER_SACK) && Covered(k, SackBlocks(f.body, 0))
  }

  ghost predicate SackedBy(k: nat, batch: seq<Frame>) {
    exists i :: 0 <= i < |batch| && Sacks(batch[i], k)
  }

  ghost predicate NoneEnds(batch: seq<Frame>) {
    forall i :: 0 <= i < |batch| ==> !Ends(batch[i])
  }

  lemma IncomingWaker(s: State, f: Frame, now: nat)
    ensures HandleIncoming(s, f, now).writeWaker == (s.writeWaker && !Ends(f))
  {
    hide TakeSacks, Insert;
    TakeSacksFrame(CountRx(s), f, now);
  }

  lemma IncomingSacks(s: State, f: Frame, now: nat)
    ensures forall k :: k in HandleIncoming(s, f, now).snd.outgoing <==> k in s.snd.outgoing && !Sacks(f, k)
  {
    hide HandleIncoming, SackBlocks, RetireBlocks;
    IncomingSender(s, f, now);
    RetireBlocksExact(s.snd, SackBlocks(f.body, 0), now);
  }

  /** What a whole batch takes out of `outgoing`, and when it leaves the writer parked. */
  lemma {:induction false} BatchSacks(s: State, batch: seq<Frame>, now: nat)
    ensures var s' := HandleAll(s, batch, now);
      && s'.writeWaker == (s.writeWaker && NoneEnds(batch))
      && forall k :: k in s'.snd.outgoing <==> k in s.snd.outgoing && !SackedBy(k, batch)
    decreases |batch|
  {
    hide HandleIncoming, Sacks, Ends;
    if batch != [] {
      var rest := batch[1..];
      IncomingWaker(s, batch[0], now);
      IncomingSacks(s, batch[0], now);
      BatchSacks(HandleIncoming(s, batch[0], now), rest, now);
      SackedByFront(batch);
      assert NoneEnds(batch) <==> !Ends(batch[0]) && NoneEnds(rest) by {
        assert forall i :: 0 < i < |batch| ==> rest[i - 1] == batch[i];
      }
    }
  }

  lemma SackedByFront(batch: seq<Frame>)
    requires batch != []
    ensures forall k :: SackedBy(k, batch) <==> Sacks(batch[0], k) || SackedBy(k, batch[1..])
  {
    hide Sacks;
    var rest := batch[1..];
    assert forall i :: 0 < i < |batch| ==> rest[i - 1] == batch[i];
    assert forall i :: 0 <= i < |rest| ==> rest[i] == batch[i + 1];
  }

  lemma EmptyRetransmit(s: State, timer: bool, now: nat)
    requires s.snd.outgoing == map[]
    ensures var s' := Retransmit(s, timer, now).s; s'.snd.outgoing == map[] && s'.writeWaker == s.writeWaker
  {
    hide FlushStop, WaitingFrames, Total;
    BeforeFirstExhausted(s.snd.outgoing, s.snd.remoteAcked, s.snd.nextSeq);
  }

  lemma StrandedAfterAck(s: State, ack: nat, now: nat)
    requires Inv(s)
    ensures var s' := HandleAck(s, ack, now);
      s'.writeWaker && s'.snd.outgoing == map[] <==>
      s.writeWaker && s.snd.outgoing == map[] && ack <= s.snd.remoteAcked
  {
    if s.snd.remoteAcked < ack && HandleAck(s, ack, now).snd.outgoing == map[] {
      EmptyingAckWakes(s, ack, now);
    }
  }

  lemma StrandedAfterRetransmit(s: State, timer: bool, now: nat)
    ensures !WriterCared(Retransmit(s, timer, now).s) <==> s.writeWaker && s.snd.outgoing == map[]
  {
    hide Retransmit;
    if s.snd.outgoing == map[] {
      EmptyRetransmit(s, timer, now);
    } else {
      var k :| k in s.snd.outgoing;
      assert |s.snd.outgoing| > 0;
      RetransmitCares(s, timer, now);
    }
  }

  /**
   The blocks of a SACK body of `n` bytes: one for every eight bytes that are followed by another byte,
   each with its start and its end as two little-endian words.
   */
  lemma {:induction false} SackBlocksExact(buf: seq<Byte>, i: nat)
    ensures var blocks := SackBlocks(buf, i);
      && |blocks| == (if i + 8 < |buf| then (|buf| - i - 1) / 8 else 0)
      && forall j :: 0 <= j < |blocks| ==>
           && i + 8 * j + 8 < |buf|
           && blocks[j].0 == ReadU32Le(buf[i + 8 * j..i + 8 * j + 4])
           && blocks[j].1 == ReadU32Le(buf[i + 8 * j + 4..i + 8 * j + 8])
    decreases |buf| - i
  {
    hide ReadU32Le;
    if i + 8 < |buf| {
      SackBlocksExact(buf, i + 8);
      var rest, blocks := SackBlocks(buf, i + 8), SackBlocks(buf, i);
      forall j | 0 < j < |blocks|
        ensures i + 8 * j + 8 < |buf| && blocks[j].0 == ReadU32Le(buf[i + 8 * j..i + 8 * j + 4])
        ensures blocks[j].1 == ReadU32Le(buf[i + 8 * j + 4..i + 8 * j + 8])
      {
        assert blocks[j] == rest[j - 1] && i + 8 + 8 * (j - 1) == i + 8 * j;
      }
    }
  }

  /**
   Selective acknowledgements wake nobody. A poll leaves a parked writer without outstanding data
   exactly when SACK blocks of its packets cover everything outstanding, none of them acknowledges
   anything new and none of them ends the stream.
   */
  lemma SackStrandsWriter(s: State, batch: seq<Frame>, timer: bool, now: nat)
    requires Inv(s) && s.writeWaker && !s.finished && !ClosedAndDrained(s.(driveWaker := false))
    ensures !WriterCared(Apply(s, DriveOnce(batch, false, timer, now))) <==>
      && (forall k :: k in s.snd.outgoing ==> SackedBy(k, batch))
      && MaxAck(batch) <= s.snd.remoteAcked && NoneEnds(batch)
  {
    hide HandleAll, HandleAck, Retransmit, SackedBy, NoneEnds, WriterCared, PollRead, PollWrite;
    var awake := s.(driveWaker := false);
    var all := HandleAll(awake, batch, now);
    BatchSacks(awake, batch, now);
    HandleAllFrame(awake, batch, now);
    HandleAllInv(awake, batch, now);
    StrandedAfterAck(all, MaxAck(batch), now);
    StrandedAfterRetransmit(Received(awake, batch, now), timer, now);
    assert all.snd.outgoing == map[] <==> forall k :: k in s.snd.outgoing ==> SackedBy(k, batch);
  }

  /** A write that fills the first window, and another that parks. */
  lemma FullWindow(buf: seq<Byte>)
    requires |buf| == 2 * UDX_MAX_DATA_SIZE
    ensures var s := Run(Connect(1), [Write(buf), Write([7])]);
      s.writeWaker && !s.finished && s.snd.outgoing.Keys == {0, 1}
  {
    hide Drive, PollRead;
    var n := UDX_MAX_DATA_SIZE;
    var one := SendData(Connect(1), buf[..n]);
    var two := SendData(one, buf[n..]);
    assert two.snd.outgoing.Keys == {0, 1};
    assert buf[n..][..n] == buf[n..] && buf[n..][n..] == [];
    assert SendChunks(two, []) == (two, 0);
    assert SendChunks(one, buf[n..]) == (two, n);
    assert SendChunks(Connect(1), buf) == (two, n + n);
    assert SendChunks(two, [7]) == (two, 0);
    var acts := [Write(buf), Write([7])];
    assert acts[..1] == [Write(buf)] && acts[..1][..0] == [];
    assert Run(Connect(1), acts[..1]) == two;
  }

  /** A block for `[0, 2)`, followed by a byte without which it would not be read. */
  const SACK_BOTH: Frame := Frame(Header(UDX_HEADER_SACK, 0, 0, 0, 0, 0), [0, 0, 0, 0, 2, 0, 0, 0, 0])

  lemma SackBothCovers(k: nat)
    requires k < 2
    ensures SackedBy(k, [SACK_BOTH]) && NoneEnds([SACK_BOTH]) && MaxAck([SACK_BOTH]) == 0
  {
    var body := SACK_BOTH.body;
    assert body[0..4] == [0, 0, 0, 0] && body[4..8] == [2, 0, 0, 0];
    assert SackBlocks(body, 8) == [];
    assert SackBlocks(body, 0) == [(0, 2)];
    assert [(0, 2)][0] == (0, 2);
    assert Sacks([SACK_BOTH][0], k);
    assert [SACK_BOTH][..0] == [];
  }

  /** One such run: two writes, of which the second parks, and a poll with one SACK. */
  lemma SackStrandsWriterExample(buf: seq<Byte>)
    requires |buf| == 2 * UDX_MAX_DATA_SIZE
    ensures var s := Run(Connect(1), [Write(buf), Write([7])]);
      WriterCared(s) && !WriterCared(Apply(s, DriveOnce([SACK_BOTH], false, false, 0)))
  {
    hide Run, Apply, SackedBy, NoneEnds, MaxAck, Inv;
    FullWindow(buf);
    var acts := [Write(buf), Write([7])];
    var s := Run(Connect(1), acts);
    InvAlways(1, acts);
    SackBothCovers(0);
    SackBothCovers(1);
    assert 0 in s.snd.outgoing;
    assert |s.snd.outgoing| > 0;
    SackStrandsWriter(s, [SACK_BOTH], false, 0);
  }

  // ----- the reader -----

  /**
   `poll_read` may park a reader whose buffer it has just put bytes into. It does so exactly when
   an open stream's next packet holds more unread bytes than the non-empty buffer has room for.
   */
  lemma ReadParksWithBytes(s: State, room: nat)
    requires Inv(s)
    ensures var r := PollRead(s, room);
      (r.poll.Pending? && r.bytes != []) <==>
      (s.error.None? && s.rcv.readCursor < s.rcv.ack
       && var p := s.rcv.incoming[s.rcv.readCursor]; 0 < room < |p.buf| - p.readOffset)
  {
    var c := s.rcv.readCursor;
    assert c < s.rcv.ack <==> c in s.rcv.incoming;
  }

  /** A packet with two bytes. */
  const TWO_BYTES: Frame := Frame(Header(UDX_HEADER_DATA, 0, 1, 0, 0, 0), [7, 8])

  lemma TwoBytesArrive(s: State)
    requires s.rcv == Receiver(0, 0, map[]) && s.error.None? && !s.finished
    ensures var s' := Apply(s, DriveOnce([TWO_BYTES], false, false, 0));
      && s'.error.None? && s'.rcv.readCursor == 0
      && s'.rcv.incoming == map[0 := InPacket(TWO_BYTES.header, TWO_BYTES.body, 0)]
  {
    hide HandleIncoming, CheckTimeouts, Flush, PollRead, PollWrite;
    var awake, f := s.(driveWaker := false), TWO_BYTES;
    var handled := HandleIncoming(awake, f, 0);
    assert [f][1..] == [];
    assert HandleAll(awake, [f], 0) == HandleAll(handled, [], 0) == handled;
    DataStores(awake, f);
    FlushKeepsReceiver(Received(awake, [f], 0));
  }

  lemma DataStores(s: State, f: Frame)
    requires f.header.typ == UDX_HEADER_DATA
    ensures HandleIncoming(s, f, 0).rcv == Insert(s.rcv, f) && HandleIncoming(s, f, 0).error == s.error
  {
    hide Insert;
  }

  lemma FlushKeepsReceiver(s: State)
    ensures var s' := Retransmit(s, false, 0).s; s'.rcv == s.rcv && s'.error == s.error
  {
    hide FlushStop, WaitingFrames;
  }

  /** Two bytes arrive and the reader has room for one: it gets that byte and is parked. */
  lemma ReadParksWithBytesExample()
    ensures var s := Run(Connect(1), [DriveOnce([TWO_BYTES], false, false, 0)]);
      var r := PollRead(s, 1);
      r.poll.Pending? && r.bytes == [7]
  {
    hide Apply;
    var open, act := Connect(1), DriveOnce([TWO_BYTES], false, false, 0);
    assert [act][..0] == [] && Run(open, []) == open;
    TwoBytesArrive(open);
    var body := TWO_BYTES.body;
    assert body[0..] == [7, 8] && body[0..][..1] == [7];
  }
}
