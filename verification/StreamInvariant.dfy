/**
 What holds of one stream after any run, whatever its peer sends: the scalar `inflight` and
 the statistics are exact sums over `outgoing`, the reassembly buffer has its shape, and the
 close discipline is kept.
 */
module StreamInvariant {
  import opened Constants
  import opened Wire
  import opened Ledger
  import opened StreamModel

  const MOST_TRANSMITS: nat := UDX_MAX_TRANSMITS + 1

  ghost predicate PacketOk(p: OutPacket, k: nat, body: seq<Byte>) {
    && p.header.seqno == k
    && p.header.typ == UDX_HEADER_DATA
    && p.body == body
    && 1 <= |body| <= UDX_MAX_DATA_SIZE
    && p.transmits <= MOST_TRANSMITS && (p.waiting ==> p.transmits >= 1)
    && p.queued == 1 + p.transmits - (if p.waiting then 1 else 0)
  }

  ghost predicate PacketsOk(snd: Sender) {
    && |snd.log| == snd.nextSeq
    && forall k :: k in snd.outgoing ==> k < snd.nextSeq && PacketOk(snd.outgoing[k], k, snd.log[k])
  }

  /** No byte is counted twice and none is forgotten. */
  ghost predicate Conserved(snd: Sender) {
    && snd.inflight == Total(InFlight, snd.outgoing, 0, snd.nextSeq)
    && snd.inflightPackets == Total(Count, snd.outgoing, 0, snd.nextSeq)
    && snd.inflightBytes == Total(Body, snd.outgoing, 0, snd.nextSeq)
  }

  ghost predicate SenderInv(snd: Sender) {
    PacketsOk(snd) && Conserved(snd) && snd.cwnd >= UDX_MTU
  }

  ghost predicate InPacketOk(p: InPacket, k: nat, readCursor: nat) {
    p.header.seqno == k && readCursor <= k && (p.readOffset > 0 ==> k == readCursor)
  }

  /** Everything between the cursor and `ack` is held, `ack` is the first gap, nothing older is kept. */
  ghost predicate ReceiverInv(rcv: Receiver) {
    && rcv.readCursor <= rcv.ack
    && (forall k :: rcv.readCursor <= k < rcv.ack ==> k in rcv.incoming)
    && rcv.ack !in rcv.incoming
    && (forall k :: k in rcv.incoming ==> InPacketOk(rcv.incoming[k], k, rcv.readCursor))
    && (forall k :: k in rcv.incoming && rcv.incoming[k].readOffset > 0 ==> k < rcv.ack)
  }

  ghost predicate Inv(s: State) {
    && SenderInv(s.snd)
    && ReceiverInv(s.rcv)
    && (s.error.Some? <==> s.phase.IsLocalClosed())
    && (s.driveWaker ==> s.queue == [])
    && s.counters.txBytes == |Flatten(s.snd.log)|
  }

  // ----- sums under the three updates -----

  lemma RetireInv(snd: Sender, lo: nat, hi: nat, now: nat)
    requires SenderInv(snd)
    ensures SenderInv(Retire(snd, lo, hi, now))
  {
    TotalWithout(InFlight, snd.outgoing, lo, hi, snd.nextSeq);
    TotalWithout(Count, snd.outgoing, lo, hi, snd.nextSeq);
    TotalWithout(Body, snd.outgoing, lo, hi, snd.nextSeq);
  }

  lemma {:induction false} RetireBlocksInv(snd: Sender, blocks: seq<(nat, nat)>, now: nat)
    requires SenderInv(snd)
    ensures SenderInv(RetireBlocks(snd, blocks, now))
    ensures var r := RetireBlocks(snd, blocks, now);
      && r.nextSeq == snd.nextSeq && r.log == snd.log && r.remoteAcked == snd.remoteAcked
      && r.cwnd == snd.cwnd
      && forall k :: k in r.outgoing ==> k in snd.outgoing && r.outgoing[k] == snd.outgoing[k]
    decreases |blocks|
  {
    if blocks != [] {
      RetireInv(snd, blocks[0].0, blocks[0].1, now);
      RetireBlocksInv(Retire(snd, blocks[0].0, blocks[0].1, now), blocks[1..], now);
    }
  }

  lemma {:induction false} BeforeFirstExhausted(out: Packets, lo: nat, hi: nat)
    ensures var e := FirstExhausted(out, lo, hi);
      && e <= hi && (lo <= hi ==> lo <= e)
      && (forall k :: lo <= k < e && k in out ==> !Exhausted(out[k]))
      && (e < hi ==> e in out && Exhausted(out[e]))
    decreases hi - lo
  {
    if lo < hi && !(lo in out && Exhausted(out[lo])) {
      BeforeFirstExhausted(out, lo + 1, hi);
    }
  }

  lemma MarkLostInv(snd: Sender, lo: nat, hi: nat)
    requires SenderInv(snd) && hi <= snd.nextSeq
    requires forall k :: lo <= k < hi && k in snd.outgoing ==> !Exhausted(snd.outgoing[k])
    ensures SenderInv(MarkLost(snd, lo, hi))
  {
    var out, out', n := snd.outgoing, MarkLost(snd, lo, hi).outgoing, snd.nextSeq;
    TotalAgree(Count, out, out', 0, n);
    TotalAgree(Body, out, out', 0, n);
    if lo >= hi {
      TotalAgree(InFlight, out, out', 0, n);
    } else {
      TotalSetAside(InFlight, out, out', lo, hi, n);
      TotalZero(InFlight, out', lo, hi);
    }
  }

  lemma TimeoutInv(snd: Sender, timer: bool)
    requires SenderInv(snd)
    ensures SenderInv(CheckTimeouts(snd, timer).0)
  {
    BeforeFirstExhausted(snd.outgoing, snd.remoteAcked, snd.nextSeq);
    var shrunk := snd.(cwnd := Max(UDX_MTU, snd.cwnd / 2));
    MarkLostInv(shrunk, snd.remoteAcked, if Fires(snd, timer)
      then FirstExhausted(snd.outgoing, snd.remoteAcked, snd.nextSeq) else 0);
  }

  lemma {:induction false} RequeuedTotal(snd: Sender, lo: nat, mid: nat, hi: nat)
    requires mid <= hi
    ensures Total(InFlight, MarkSent(snd, lo, hi).outgoing, lo, mid)
         == Total(InFlight, snd.outgoing, lo, mid) + Total(Waiting, snd.outgoing, lo, mid)
  {
    if lo < mid {
      RequeuedTotal(snd, lo, mid - 1, hi);
    }
  }

  lemma MarkSentInv(snd: Sender, lo: nat, hi: nat)
    requires SenderInv(snd) && hi <= snd.nextSeq
    ensures SenderInv(MarkSent(snd, lo, hi))
  {
    var out, out', n := snd.outgoing, MarkSent(snd, lo, hi).outgoing, snd.nextSeq;
    TotalAgree(Count, out, out', 0, n);
    TotalAgree(Body, out, out', 0, n);
    if lo >= hi {
      TotalAgree(InFlight, out, out', 0, n);
    } else {
      RequeuedTotal(snd, lo, hi, hi);
      TotalSetAside(InFlight, out, out', lo, hi, n);
    }
  }

  lemma {:induction false} FlushStopInside(out: Packets, lo: nat, hi: nat, inflight: int, cwnd: nat)
    ensures var e := FlushStop(out, lo, hi, inflight, cwnd); e <= hi && (lo <= hi ==> lo <= e)
    decreases hi - lo
  {
    if lo < hi {
      FlushStopInside(out, lo + 1, hi, inflight + WeightAt(Waiting, out, lo), cwnd);
    }
  }

  lemma FlushInv(s: State)
    requires Inv(s.(driveWaker := false))
    ensures Inv(Flush(s).(driveWaker := false))
  {
    FlushStopInside(s.snd.outgoing, s.snd.remoteAcked, s.snd.nextSeq, s.snd.inflight, s.snd.cwnd);
    MarkSentInv(s.snd, s.snd.remoteAcked,
      FlushStop(s.snd.outgoing, s.snd.remoteAcked, s.snd.nextSeq, s.snd.inflight, s.snd.cwnd));
  }

  // ----- writing -----

  lemma SendDataInv(s: State, body: seq<Byte>)
    requires Inv(s) && s.error.None? && 1 <= |body| <= UDX_MAX_DATA_SIZE
    ensures Inv(SendData(s, body)) && SendData(s, body).error.None?
  {
    var s' := SendData(s, body);
    var n, out, out' := s.snd.nextSeq, s.snd.outgoing, s'.snd.outgoing;
    assert s'.snd.log[..n] == s.snd.log;
    TotalAgree(InFlight, out, out', 0, n);
    TotalAgree(Count, out, out', 0, n);
    TotalAgree(Body, out, out', 0, n);
  }

  /** Whatever prefix of the buffer is accepted is logged, chunk by chunk, byte for byte. */
  lemma {:induction false} SendChunksInv(s: State, buf: seq<Byte>)
    requires Inv(s) && s.error.None?
    ensures Inv(SendChunks(s, buf).0) && SendChunks(s, buf).0.error.None?
    decreases |buf|
  {
    var len := Min(|buf|, UDX_MAX_DATA_SIZE);
    if buf != [] && s.snd.inflight + len <= s.snd.cwnd {
      SendDataInv(s, buf[..len]);
      SendChunksInv(SendData(s, buf[..len]), buf[len..]);
    }
  }

  lemma LogGrows(s: State, body: seq<Byte>)
    ensures Flatten(SendData(s, body).snd.log) == Flatten(s.snd.log) + body
  {
    assert (s.snd.log + [body])[..|s.snd.log|] == s.snd.log;
  }

  lemma {:induction false} AcceptedIsLogged(s: State, buf: seq<Byte>)
    ensures Flatten(SendChunks(s, buf).0.snd.log) == Flatten(s.snd.log) + buf[..SendChunks(s, buf).1]
    decreases |buf|
  {
    hide SendData, Flatten;
    var len := Min(|buf|, UDX_MAX_DATA_SIZE);
    if buf == [] || s.snd.inflight + len > s.snd.cwnd {
      assert SendChunks(s, buf) == (s, 0);
    } else {
      var s1 := SendData(s, buf[..len]);
      var n := SendChunks(s1, buf[len..]).1;
      assert SendChunks(s, buf) == (SendChunks(s1, buf[len..]).0, len + n);
      AcceptedIsLogged(s1, buf[len..]);
      LogGrows(s, buf[..len]);
      assert buf[..len] + buf[len..][..n] == buf[..len + n];
    }
  }

  lemma WriteInv(s: State, buf: seq<Byte>)
    requires Inv(s)
    ensures Inv(PollWrite(s, buf).0)
  {
    if s.error.None? {
      SendChunksInv(s, buf);
    }
  }

  // ----- reading -----

  /** Moving the cursor one packet on leaves the tail of what is readable. */
  lemma {:induction false} ReadableIgnoresOlder(rcv: Receiver, rcv': Receiver)
    requires rcv.readCursor == rcv'.readCursor && rcv.ack == rcv'.ack
    requires forall k :: rcv.readCursor <= k < rcv.ack ==>
      (k in rcv.incoming <==> k in rcv'.incoming)
      && (k in rcv.incoming ==> rcv.incoming[k] == rcv'.incoming[k])
    ensures Readable(rcv) == Readable(rcv')
    decreases rcv.ack - rcv.readCursor
  {
    if rcv.readCursor < rcv.ack && rcv.readCursor in rcv.incoming {
      ReadableIgnoresOlder(rcv.(readCursor := rcv.readCursor + 1), rcv'.(readCursor := rcv'.readCursor + 1));
    }
  }

  lemma ReadableStep(rcv: Receiver)
    requires ReceiverInv(rcv) && rcv.readCursor in rcv.incoming
    ensures var c := rcv.readCursor;
      var next := rcv.(incoming := rcv.incoming - {c}, readCursor := c + 1);
      && ReceiverInv(next)
      && Readable(rcv) == rcv.incoming[c].buf[rcv.incoming[c].readOffset..] + Readable(next)
  {
    var c := rcv.readCursor;
    var next := rcv.(incoming := rcv.incoming - {c}, readCursor := c + 1);
    assert c < rcv.ack;
    ReadableIgnoresOlder(rcv.(readCursor := c + 1), next);
  }

  lemma PartialRead(rcv: Receiver, room: nat)
    requires ReceiverInv(rcv) && rcv.readCursor in rcv.incoming
    requires var p := rcv.incoming[rcv.readCursor]; p.readOffset + room < |p.buf|
    ensures var c, p := rcv.readCursor, rcv.incoming[rcv.readCursor];
      var rcv' := rcv.(incoming := rcv.incoming[c := p.(readOffset := p.readOffset + room)]);
      && ReceiverInv(rcv')
      && p.buf[p.readOffset..][..room] + Readable(rcv') == Readable(rcv)
  {
    var c, p := rcv.readCursor, rcv.incoming[rcv.readCursor];
    var kept: InPacket := p.(readOffset := p.readOffset + room);
    var rcv' := rcv.(incoming := rcv.incoming[c := kept]);
    assert c < rcv.ack;
    ReadableIgnoresOlder(rcv.(readCursor := c + 1), rcv'.(readCursor := c + 1));
    var rest := p.buf[p.readOffset..];
    assert rest == rest[..room] + kept.buf[kept.readOffset..];
  }

  ghost predicate ReadOk(rcv: Receiver, room: nat, rcv': Receiver, bytes: seq<Byte>, didRead: bool) {
    && ReceiverInv(rcv') && rcv'.ack == rcv.ack
    && bytes + Readable(rcv') == Readable(rcv)
    && |bytes| == Min(room, |Readable(rcv)|)
    && rcv.readCursor <= rcv'.readCursor
    && (didRead <==> rcv.readCursor < rcv'.readCursor)
    && (forall k :: k in rcv'.incoming ==> k in rcv.incoming && rcv'.incoming[k].buf == rcv.incoming[k].buf)
  }

  lemma ReadOkStep(rcv: Receiver, room: nat, rcv': Receiver, bytes: seq<Byte>, didRead: bool)
    requires ReceiverInv(rcv) && rcv.readCursor in rcv.incoming
    requires |rcv.incoming[rcv.readCursor].buf[rcv.incoming[rcv.readCursor].readOffset..]| <= room
    requires var c := rcv.readCursor;
      var rest := rcv.incoming[c].buf[rcv.incoming[c].readOffset..];
      ReadOk(rcv.(incoming := rcv.incoming - {c}, readCursor := c + 1), room - |rest|, rcv', bytes, didRead)
    ensures var rest := rcv.incoming[rcv.readCursor].buf[rcv.incoming[rcv.readCursor].readOffset..];
      ReadOk(rcv, room, rcv', rest + bytes, true)
  {
    ReadableStep(rcv);
    var rest := rcv.incoming[rcv.readCursor].buf[rcv.incoming[rcv.readCursor].readOffset..];
    assert rest + bytes + Readable(rcv') == rest + (bytes + Readable(rcv'));
  }

  lemma PartialReadOk(rcv: Receiver, room: nat)
    requires ReceiverInv(rcv) && rcv.readCursor in rcv.incoming
    requires var p := rcv.incoming[rcv.readCursor]; p.readOffset + room < |p.buf|
    ensures var (rcv', bytes, didRead) := ReadNext(rcv, room); ReadOk(rcv, room, rcv', bytes, didRead)
  {
    hide Readable;
    PartialRead(rcv, room);
    var c, p := rcv.readCursor, rcv.incoming[rcv.readCursor];
    assert (rcv.incoming - {c})[c := p.(readOffset := p.readOffset + room)]
        == rcv.incoming[c := p.(readOffset := p.readOffset + room)];
  }

  lemma NothingReadable(rcv: Receiver)
    requires rcv.readCursor !in rcv.incoming
    ensures Readable(rcv) == []
  {
  }

  /** Reading consumes exactly as much of what is readable as fits, never passing `ack`. */
  lemma {:induction false} ReadNextInv(rcv: Receiver, room: nat)
    requires ReceiverInv(rcv)
    ensures var (rcv', bytes, didRead) := ReadNext(rcv, room); ReadOk(rcv, room, rcv', bytes, didRead)
    decreases rcv.incoming.Keys
  {
    hide Readable;
    if rcv.readCursor !in rcv.incoming {
      NothingReadable(rcv);
    } else {
      var c := rcv.readCursor;
      var p := rcv.incoming[c];
      var rest := p.buf[p.readOffset..];
      if |rest| > room {
        PartialReadOk(rcv, room);
      } else {
        hide ReadOk;
        ReadableStep(rcv);
        var next := rcv.(incoming := rcv.incoming - {c}, readCursor := c + 1);
        ReadNextInv(next, room - |rest|);
        var (rcv', bytes, didRead) := ReadNext(next, room - |rest|);
        ReadOkStep(rcv, room, rcv', bytes, didRead);
      }
    }
  }

  // ----- receiving -----

  lemma InsertInv(rcv: Receiver, f: Frame)
    requires ReceiverInv(rcv)
    ensures ReceiverInv(Insert(rcv, f)) && rcv.ack <= Insert(rcv, f).ack
  {
  }

  lemma TerminateInv(s: State, e: UdxError)
    requires Inv(s)
    ensures Inv(Terminate(s, e))
  {
  }

  lemma TakeSacksInv(s: State, f: Frame, now: nat)
    requires Inv(s)
    ensures Inv(TakeSacks(s, f, now))
  {
    RetireBlocksInv(s.snd, SackBlocks(f.body, 0), now);
  }

  lemma TakeDataInv(s: State, f: Frame)
    requires Inv(s)
    ensures Inv(TakeData(s, f))
  {
    InsertInv(s.rcv, f);
  }

  lemma TakeEndInv(s: State, f: Frame)
    requires Inv(s)
    ensures Inv(TakeEnd(s, f))
  {
    TerminateInv(s.(phase := s.phase.CloseRemote()), UnexpectedEof);
  }

  lemma TakeAckInv(s: State, f: Frame)
    requires Inv(s)
    ensures Inv(TakeAck(s, f))
  {
  }

  lemma HandleIncomingInv(s: State, f: Frame, now: nat)
    requires Inv(s)
    ensures Inv(HandleIncoming(s, f, now))
  {
    var counted := CountRx(s);
    assert Inv(counted);
    TakeSacksInv(counted, f, now);
    var sacked := TakeSacks(counted, f, now);
    TakeEndInv(sacked, f);
    var ended := TakeEnd(sacked, f);
    TakeDataInv(ended, f);
    TakeAckInv(TakeData(ended, f), f);
  }

  lemma {:induction false} HandleAllInv(s: State, batch: seq<Frame>, now: nat)
    requires Inv(s)
    ensures Inv(HandleAll(s, batch, now))
    decreases |batch|
  {
    if batch != [] {
      HandleIncomingInv(s, batch[0], now);
      HandleAllInv(HandleIncoming(s, batch[0], now), batch[1..], now);
    }
  }

  lemma HandleAckInv(s: State, ack: nat, now: nat)
    requires Inv(s)
    ensures Inv(HandleAck(s, ack, now))
  {
    RetireInv(s.snd, s.snd.remoteAcked, ack, now);
  }

  lemma {:induction false} MaxAckBelow(batch: seq<Frame>, acked: nat)
    requires forall i :: 0 <= i < |batch| ==> batch[i].header.ack <= acked
    ensures MaxAck(batch) <= acked
  {
    if batch != [] {
      MaxAckBelow(batch[..|batch| - 1], acked);
    }
  }

  // ----- what receiving leaves alone -----

  predicate NoSack(f: Frame) {
    !HasType(f.header.typ, UDX_HEADER_SACK)
  }

  /** Everything but the window is the same, and the window has not shrunk. */
  predicate OnlyWiderWindow(snd: Sender, snd': Sender) {
    snd' == snd.(cwnd := snd'.cwnd) && snd.cwnd <= snd'.cwnd
  }

  lemma TakeSacksFrame(s: State, f: Frame, now: nat)
    ensures var s' := TakeSacks(s, f, now);
      && s' == s.(snd := s'.snd) && s'.snd.cwnd == s.snd.cwnd
      && s'.snd.nextSeq == s.snd.nextSeq && s'.snd.log == s.snd.log && s'.snd.remoteAcked == s.snd.remoteAcked
      && (NoSack(f) ==> s' == s)
  {
    RetireBlocksFrame(s.snd, SackBlocks(f.body, 0), now);
  }

  lemma {:induction false} RetireBlocksFrame(snd: Sender, blocks: seq<(nat, nat)>, now: nat)
    ensures var r := RetireBlocks(snd, blocks, now);
      r.nextSeq == snd.nextSeq && r.log == snd.log && r.remoteAcked == snd.remoteAcked && r.cwnd == snd.cwnd
    decreases |blocks|
  {
    if blocks != [] {
      RetireBlocksFrame(Retire(snd, blocks[0].0, blocks[0].1, now), blocks[1..], now);
    }
  }

  lemma EndKeepsSender(s: State, f: Frame)
    ensures TakeEnd(s, f).snd == s.snd
  {
  }

  lemma DataKeepsSender(s: State, f: Frame)
    ensures TakeData(s, f).snd == s.snd
  {
    hide Insert;
  }

  /** Of an incoming packet, the sender sees the SACKs and the acknowledgement. */
  lemma IncomingSender(s: State, f: Frame, now: nat)
    ensures HandleIncoming(s, f, now).snd == GrowWindow(TakeSacks(CountRx(s), f, now).snd, f.header.ack)
  {
    hide TakeSacks, TakeEnd, TakeData, GrowWindow;
    var sacked := TakeSacks(CountRx(s), f, now);
    EndKeepsSender(sacked, f);
    DataKeepsSender(TakeEnd(sacked, f), f);
  }

  lemma HandleIncomingFrame(s: State, f: Frame, now: nat)
    ensures var s' := HandleIncoming(s, f, now);
      && s'.snd.nextSeq == s.snd.nextSeq && s'.snd.log == s.snd.log && s'.snd.remoteAcked == s.snd.remoteAcked
      && s'.finished == s.finished && (s'.writeWaker ==> s.writeWaker)
      && (NoSack(f) ==> OnlyWiderWindow(s.snd, s'.snd))
  {
    hide TakeSacks, Insert, CreateHeader;
    var counted := CountRx(s);
    TakeSacksFrame(counted, f, now);
    var sacked := TakeSacks(counted, f, now);
    var stored := TakeData(TakeEnd(sacked, f), f);
    assert stored.snd == sacked.snd && stored.finished == s.finished;
    assert HandleIncoming(s, f, now) == TakeAck(stored, f);
  }

  lemma {:induction false} HandleAllFrame(s: State, batch: seq<Frame>, now: nat)
    ensures var s' := HandleAll(s, batch, now);
      && s'.snd.nextSeq == s.snd.nextSeq && s'.snd.log == s.snd.log && s'.snd.remoteAcked == s.snd.remoteAcked
      && s'.finished == s.finished && (s'.writeWaker ==> s.writeWaker)
      && ((forall i :: 0 <= i < |batch| ==> NoSack(batch[i])) ==> OnlyWiderWindow(s.snd, s'.snd))
    decreases |batch|
  {
    if batch != [] {
      HandleIncomingFrame(s, batch[0], now);
      HandleAllFrame(HandleIncoming(s, batch[0], now), batch[1..], now);
    }
  }

  // ----- the driver and whole runs -----

  lemma RetransmitInv(s: State, timer: bool, now: nat)
    requires Inv(s) && !s.driveWaker
    ensures Inv(Retransmit(s, timer, now).s)
  {
    TimeoutInv(s.snd, timer);
    var (checked, ok) := CheckTimer(s, timer, now);
    if ok {
      FlushInv(checked);
    } else {
      TerminateInv(checked, TimedOut);
    }
  }

  lemma {:induction false} HandleAllAwake(s: State, batch: seq<Frame>, now: nat)
    requires !s.driveWaker
    ensures !HandleAll(s, batch, now).driveWaker
    decreases |batch|
  {
    if batch != [] {
      HandleAllAwake(HandleIncoming(s, batch[0], now), batch[1..], now);
    }
  }

  lemma ReceivedInv(s: State, batch: seq<Frame>, now: nat)
    requires Inv(s) && !s.driveWaker
    ensures Inv(Received(s, batch, now)) && !Received(s, batch, now).driveWaker
  {
    HandleAllInv(s, batch, now);
    HandleAllAwake(s, batch, now);
    HandleAckInv(HandleAll(s, batch, now), MaxAck(batch), now);
  }

  lemma DriveInv(s: State, batch: seq<Frame>, hungUp: bool, timer: bool, now: nat)
    requires Inv(s)
    ensures Inv(Drive(s, batch, hungUp, timer, now).s)
  {
    var awake := s.(driveWaker := false);
    if !s.finished && !ClosedAndDrained(awake) {
      if hungUp {
        HandleAllInv(awake, batch, now);
        TerminateInv(HandleAll(awake, batch, now), BrokenPipe);
      } else {
        ReceivedInv(awake, batch, now);
        RetransmitInv(Received(awake, batch, now), timer, now);
      }
    }
  }

  lemma StampInv(s: State, k: nat, at: nat)
    requires Inv(s)
    ensures Inv(Stamp(s, k, at))
  {
    if k in s.snd.outgoing {
      var out, out', n := s.snd.outgoing, Stamp(s, k, at).snd.outgoing, s.snd.nextSeq;
      TotalAgree(InFlight, out, out', 0, n);
      TotalAgree(Count, out, out', 0, n);
      TotalAgree(Body, out, out', 0, n);
    }
  }

  lemma ApplyInv(s: State, a: Action)
    requires Inv(s)
    ensures Inv(Apply(s, a))
  {
    match a
    case Write(buf) => WriteInv(s, buf);
    case Read(room) => ReadNextInv(s.rcv, room);
    case CloseStream => TerminateInv(s, ConnectionReset);
    case DriveOnce(batch, hungUp, timer, now) => DriveInv(s, batch, hungUp, timer, now);
    case StampSent(k, at) => StampInv(s, k, at);
  }

  /** The invariant holds after every run, SACKs and nonsensical acknowledgements included. */
  lemma {:induction false} InvAlways(remoteId: nat, acts: seq<Action>)
    ensures var s := Run(Connect(remoteId), acts); Inv(s) && s.snd.inflightPackets == |s.snd.outgoing|
  {
    if acts != [] {
      InvAlways(remoteId, acts[..|acts| - 1]);
      ApplyInv(Run(Connect(remoteId), acts[..|acts| - 1]), acts[|acts| - 1]);
    }
    InvCounts(Run(Connect(remoteId), acts));
  }

  lemma InvCounts(s: State)
    requires Inv(s)
    ensures s.snd.inflightPackets == |s.snd.outgoing|
  {
    CountIsSize(s.snd.outgoing, s.snd.nextSeq);
  }
}
