/**
 `UdxStreamInner` (src/stream.rs) in its own form: an object whose methods update its fields and
 the packets it shares, with the loops of the source. Each method is proved to do to the stream
 what the function of the same purpose in `StreamModel` says.
 */
module Stream {
  import opened Constants
  import opened Wire
  import opened Ledger
  import opened Rto
  import opened Congestion
  import opened StreamModel
  import opened StreamInvariant
  import opened Acknowledgement
  import opened Batching
  import opened PacketObject

  /** A data packet is skipped by the socket exactly when it is no longer outstanding. */
  ghost predicate Tracked(p: Packet, outgoing: map<nat, Packet>, nextSeq: nat)
    reads p
  {
    && p.Sealed() && p.header.seqno < nextSeq
    && (p.skip <==> p.header.seqno !in outgoing)
    && (p.header.seqno in outgoing ==> outgoing[p.header.seqno] == p)
  }

  /**
   `made` holds every data packet object the stream ever created, and `views` the outstanding
   ones as values.
   */
  ghost predicate Coherent(made: set<Packet>, outgoing: map<nat, Packet>, views: Packets, nextSeq: nat)
    reads made
  {
    && (forall p :: p in made ==> Tracked(p, outgoing, nextSeq))
    && views.Keys == outgoing.Keys
    && (forall k :: k in outgoing ==>
          outgoing[k] in made && outgoing[k].header.seqno == k && views[k] == outgoing[k].View())
  }

  ghost predicate QueueOk(q: seq<PacketRef>, made: set<Packet>) {
    AllSealed(q) && forall i :: 0 <= i < |q| && q[i].Shared? ==> q[i].packet in made
  }

  /** Batches as the packet sets handed to the socket. */
  function SetsOf(bs: seq<seq<PacketRef>>): (sets: seq<PacketSet>)
    ensures |sets| == |bs|
  {
    seq(|bs|, i requires 0 <= i < |bs| => PacketSet(bs[i], if bs[i] == [] then 0 else SizeOf(bs[i][0])))
  }

  lemma SetsOfConcat(a: seq<seq<PacketRef>>, b: seq<seq<PacketRef>>)
    ensures SetsOf(a + b) == SetsOf(a) + SetsOf(b)
  {
  }

  /** The events that hand packet sets to the socket. */
  function EventsOf(sets: seq<PacketSet>): (evs: seq<Event>)
    ensures |evs| == |sets|
  {
    seq(|sets|, i requires 0 <= i < |sets| => Event.Transmit(sets[i]))
  }

  function PacketsIn(evs: seq<Event>): seq<PacketRef> {
    if evs == [] then []
    else PacketsIn(evs[..|evs| - 1]) + if evs[|evs| - 1].Transmit? then evs[|evs| - 1].packets.packets else []
  }

  /** A packet set as the socket expects it: sealed packets of the size that the set states. */
  ghost predicate SetOk(ps: PacketSet) {
    && ps.packets != [] && AllSealed(ps.packets)
    && forall i :: 0 <= i < |ps.packets| ==> SizeOf(ps.packets[i]) == ps.segmentSize
  }

  ghost predicate OnlyTransmits(evs: seq<Event>) {
    forall i :: 0 <= i < |evs| ==> evs[i].Transmit? && SetOk(evs[i].packets)
  }

  lemma SetsAreOk(q: seq<PacketRef>, max: nat)
    requires max > 0 && AllSealed(q)
    ensures OnlyTransmits(EventsOf(SetsOf(Greedy(q, SizeOf, max))))
  {
    hide Greedy;
    var bs := Greedy(q, SizeOf, max);
    GreedyIsBatching(q, SizeOf, max);
    forall i | 0 <= i < |bs| ensures SetOk(SetsOf(bs)[i]) {
      FlattenHolds(bs, i);
      assert forall j :: 0 <= j < |bs[i]| ==> bs[i][j] in bs[i] && bs[i][j] in q;
      assert forall j :: 0 <= j < |bs[i]| ==> SizeOf(bs[i][j]) == SizeOf(bs[i][0]);
    }
  }

  lemma {:induction false} PacketsInSets(bs: seq<seq<PacketRef>>)
    ensures PacketsIn(EventsOf(SetsOf(bs))) == Flatten(bs)
  {
    if bs != [] {
      PacketsInSets(bs[..|bs| - 1]);
      assert EventsOf(SetsOf(bs))[..|bs| - 1] == EventsOf(SetsOf(bs[..|bs| - 1]));
    }
  }

  lemma NoFrames()
    ensures FramesOf(PacketsIn([])) == []
  {
  }

  lemma NoFramesInDrop(id: nat)
    ensures FramesOf(PacketsIn([StreamDropped(id)])) == []
  {
    assert [StreamDropped(id)][..0] == [];
  }

  lemma BatchWith(queue: seq<PacketRef>, r: PacketRef, max: nat)
    requires queue == [] || (IsBatch(queue, SizeOf, max) && SizeOf(queue[0]) == SizeOf(r))
    requires |queue| < max
    ensures IsBatch(queue + [r], SizeOf, max) && SizeOf((queue + [r])[0]) == SizeOf(r)
  {
  }

  /** The loop has closed the batches `done` as `sets` and is filling `queue`; `rest` is to come. */
  ghost predicate Cutting(q: seq<PacketRef>, max: nat, done: seq<seq<PacketRef>>, sets: seq<PacketSet>,
                          queue: seq<PacketRef>, segmentSize: nat, rest: seq<PacketRef>)
    requires max > 0
  {
    && (queue == [] || (IsBatch(queue, SizeOf, max) && SizeOf(queue[0]) == segmentSize))
    && sets == SetsOf(done)
    && Greedy(q, SizeOf, max) == done + Greedy(queue + rest, SizeOf, max)
  }

  lemma CloseSet(q: seq<PacketRef>, max: nat, done: seq<seq<PacketRef>>, sets: seq<PacketSet>,
                 queue: seq<PacketRef>, segmentSize: nat, rest: seq<PacketRef>)
    requires max > 0 && Cutting(q, max, done, sets, queue, segmentSize, rest) && queue != []
    requires rest == [] || SizeOf(rest[0]) != segmentSize || |queue| == max
    ensures Cutting(q, max, done + [queue], sets + [PacketSet(queue, segmentSize)], [], segmentSize, rest)
  {
    hide Greedy, IsBatch;
    GreedyTakes(queue, rest, SizeOf, max);
    SetsOfConcat(done, [queue]);
    assert done + ([queue] + Greedy(rest, SizeOf, max)) == (done + [queue]) + Greedy(rest, SizeOf, max);
    assert [] + rest == rest;
  }

  lemma AddToSet(q: seq<PacketRef>, max: nat, done: seq<seq<PacketRef>>, sets: seq<PacketSet>,
                 queue: seq<PacketRef>, segmentSize: nat, rest: seq<PacketRef>)
    requires max > 0 && Cutting(q, max, done, sets, queue, segmentSize, rest) && rest != []
    requires queue == [] || (SizeOf(rest[0]) == segmentSize && |queue| < max)
    ensures Cutting(q, max, done, sets, queue + [rest[0]], SizeOf(rest[0]), rest[1..])
  {
    hide Greedy, IsBatch;
    assert queue + rest == (queue + [rest[0]]) + rest[1..];
    BatchWith(queue, rest[0], max);
  }

  lemma StartCutting(q: seq<PacketRef>, max: nat)
    requires max > 0
    ensures Cutting(q, max, [], [], [], 0, q)
  {
    hide Greedy;
    assert [] + q == q && [] + Greedy(q, SizeOf, max) == Greedy(q, SizeOf, max);
  }

  lemma DoneCutting(q: seq<PacketRef>, max: nat, done: seq<seq<PacketRef>>, sets: seq<PacketSet>, size: nat)
    requires max > 0 && Cutting(q, max, done, sets, [], size, [])
    ensures sets == SetsOf(Greedy(q, SizeOf, max))
  {
    assert Greedy<PacketRef>([] + [], SizeOf, max) == [];
    assert done + [] == done;
  }

  /**
   The batching loop: a set is closed when the next packet has another size or the set is full.
   The sets are those of the optimal batching.
   */
  method CutIntoSets(q: seq<PacketRef>, max: nat) returns (sets: seq<PacketSet>)
    requires max > 0
    ensures sets == SetsOf(Greedy(q, SizeOf, max))
  {
    hide Greedy, IsBatch, SetsOf, Cutting;
    sets := [];
    var segmentSize := 0;
    var queue: seq<PacketRef> := [];
    var rest := q;
    ghost var done: seq<seq<PacketRef>> := [];
    StartCutting(q, max);
    while rest != []
      invariant |queue| <= max
      invariant Cutting(q, max, done, sets, queue, segmentSize, rest)
      decreases |rest|
    {
      var packet := rest[0];
      if packet.packet.Len() != segmentSize || |queue| == max {
        if queue != [] {
          CloseSet(q, max, done, sets, queue, segmentSize, rest);
          done := done + [queue];
          sets := sets + [PacketSet(queue, segmentSize)];
          queue := [];
        }
        AddToSet(q, max, done, sets, queue, segmentSize, rest);
        segmentSize := packet.packet.Len();
      } else {
        AddToSet(q, max, done, sets, queue, segmentSize, rest);
      }
      queue := queue + [packet];
      rest := rest[1..];
    }
    if queue != [] {
      CloseSet(q, max, done, sets, queue, segmentSize, rest);
      done := done + [queue];
      sets := sets + [PacketSet(queue, segmentSize)];
    }
    DoneCutting(q, max, done, sets, segmentSize);
  }

  class UdxStream {
    const remoteId: nat
    const localId: nat

    var nextSeq: nat
    var ack: nat
    var remoteAcked: nat
    var inflight: nat
    var cwnd: Window
    var rtt: Rtt
    var readCursor: nat

    var outgoing: map<nat, Packet>
    var incoming: map<nat, InPacket>
    var sendQueue: seq<PacketRef>

    // The channels from and to the socket.
    var recvRx: seq<Frame>
    var recvClosed: bool
    var sendTx: seq<Event>

    var readWaker: bool
    var writeWaker: bool
    var driveWaker: bool
    var error: Option<UdxError>
    var phase: Phase
    var onClose: bool
    var finished: bool
    var inflightPackets: nat
    var inflightBytes: nat
    var counters: Counters
    var deadline: nat

    /** History: the body of every data packet, and every data packet object ever created. */
    ghost var log: seq<seq<Byte>>
    ghost var made: set<Packet>
    ghost var views: Packets

    ghost predicate Shape()
      reads this, made
    {
      Coherent(made, outgoing, views, nextSeq) && QueueOk(sendQueue, made)
    }

    /** The stream as a value. */
    ghost function Abs(): State
      reads this
    {
      State(remoteId,
            Sender(nextSeq, remoteAcked, views, inflight, cwnd, rtt, inflightPackets, inflightBytes, log),
            Receiver(ack, readCursor, incoming),
            FramesOf(sendQueue), readWaker, writeWaker, driveWaker,
            error, phase, onClose, finished, counters, deadline)
    }

    /** The packet objects of the stream. */
    ghost function Objects(): (set<Packet>, map<nat, Packet>)
      reads this
    {
      (made, outgoing)
    }

    ghost function Channels(): (seq<Frame>, bool, seq<Event>)
      reads this
    {
      (recvRx, recvClosed, sendTx)
    }

    ghost predicate Valid()
      reads this, made
    {
      Shape() && Inv(Abs())
    }

    constructor (remoteId: nat, localId: nat)
      ensures Valid() && Abs() == Connect(remoteId) && made == {}
      ensures recvRx == [] && !recvClosed && sendTx == []
    {
      this.remoteId, this.localId := remoteId, localId;
      nextSeq, ack, remoteAcked, inflight, cwnd, rtt, readCursor := 0, 0, 0, 0, 2 * UDX_MTU, FRESH, 0;
      outgoing, incoming, sendQueue := map[], map[], [];
      recvRx, recvClosed, sendTx := [], false, [];
      readWaker, writeWaker, driveWaker := false, false, false;
      error, phase, onClose, finished := None, Open, false, false;
      inflightPackets, inflightBytes, counters, deadline := 0, 0, Counters(0, 0, 0, 0), ONE_SECOND;
      log, made, views := [], {}, map[];
    }

    // ----- packets the stream creates -----

    method WakeDriver()
      requires Shape()
      modifies this
      ensures Shape() && Abs() == old(Abs()).(driveWaker := false)
      ensures Objects() == old(Objects()) && Channels() == old(Channels())
    {
      hide Coherent, QueueOk, FramesOf;
      driveWaker := false;
    }

    method CountTx(bytes: nat)
      requires Shape()
      modifies this
      ensures Shape() && Objects() == old(Objects()) && Channels() == old(Channels())
      ensures Abs() == old(Abs()).(counters := old(Abs()).counters.(
        txPackets := old(counters).txPackets + 1, txBytes := old(counters).txBytes + bytes))
    {
      hide Coherent, QueueOk, FramesOf;
      counters := counters.(txPackets := counters.txPackets + 1, txBytes := counters.txBytes + bytes);
    }

    method Enqueue(r: PacketRef)
      requires Shape() && r.packet.Sealed() && (r.Shared? ==> r.packet in made)
      modifies this
      ensures Shape() && Abs() == old(Abs()).(queue := old(Abs()).queue + [r.packet.ToFrame()])
      ensures Objects() == old(Objects()) && Channels() == old(Channels())
    {
      hide Coherent;
      ghost var q := FramesOf(sendQueue);
      sendQueue := sendQueue + [r];
      assert FramesOf(sendQueue) == q + [r.packet.ToFrame()];
    }

    function HeaderFor(typ: nat): (h: Header)
      reads this
      ensures h == CreateHeader(Abs(), typ)
    {
      var masked := if !phase.IsLocalClosed() then typ
                    else if HasType(typ, UDX_HEADER_END) then UDX_HEADER_END else 0;
      Header(masked, 0, remoteId, TWO_TO_THE_32 - 1, nextSeq, ack)
    }

    method SendStatePacket()
      requires Shape()
      modifies this
      ensures Shape() && Abs() == SendState(old(Abs()))
      ensures Objects() == old(Objects()) && Channels() == old(Channels())
    {
      hide Shape, Packet.Sealed, CreateHeader, FramesOf;
      ghost var s0 := Abs();
      var typ := if error.Some? then UDX_HEADER_END else 0;
      var packet := new Packet(HeaderFor(typ), []);
      assert packet.ToFrame() == Frame(CreateHeader(s0, typ), []);
      Enqueue(Owned(packet));
      WakeDriver();
      CountTx(0);
    }

    method MarkClosed(e: UdxError)
      requires Shape()
      modifies this
      ensures Shape() && Abs() == old(Abs()).(error := Some(e), phase := old(phase).CloseLocal())
      ensures Objects() == old(Objects()) && Channels() == old(Channels())
    {
      hide Coherent, QueueOk, FramesOf;
      error := Some(e);
      phase := phase.CloseLocal();
    }

    method WakeBoth()
      requires Shape()
      modifies this
      ensures Shape() && Abs() == old(Abs()).(readWaker := false, writeWaker := false)
      ensures Objects() == old(Objects()) && Channels() == old(Channels())
    {
      hide Coherent, QueueOk, FramesOf;
      readWaker := false;
      writeWaker := false;
    }

    method Terminate(e: UdxError)
      requires Shape()
      modifies this
      ensures Shape() && Abs() == StreamModel.Terminate(old(Abs()), e)
      ensures Objects() == old(Objects()) && Channels() == old(Channels())
    {
      assert phase == Abs().phase;
      hide Shape, SendState, FramesOf;
      MarkClosed(e);
      SendStatePacket();
      WakeBoth();
    }

    method Close()
      requires Valid()
      modifies this
      ensures Valid() && Abs() == StreamModel.Close(old(Abs()))
      ensures Objects() == old(Objects()) && Channels() == old(Channels())
    {
      hide Coherent, QueueOk, FramesOf, StreamModel.Terminate;
      TerminateInv(Abs(), ConnectionReset);
      Terminate(ConnectionReset);
      onClose := true;
    }

    // ----- writing -----

    /** Makes a new packet outstanding. */
    method Register(packet: Packet)
      requires Shape() && packet.Sealed() && packet.header.seqno == nextSeq && packet !in made
      requires !packet.skip && !packet.waiting && packet.transmits == 0 && packet.timeSent.None?
      modifies this, packet
      ensures Shape() && made == old(made) + {packet} && Channels() == old(Channels())
      ensures var s := old(Abs());
        Abs() == s.(snd := s.snd.(
          nextSeq := s.snd.nextSeq + 1,
          outgoing := s.snd.outgoing[s.snd.nextSeq := OutPacket(packet.header, packet.Body(), false, 0, None, 1)],
          log := s.snd.log + [packet.Body()]))
    {
      hide Packet.Sealed, FramesOf, Coherent, QueueOk;
      packet.queued := 1;
      CoherentWith(made, outgoing, views, nextSeq, packet);
      QueueOkWith(sendQueue, made, packet);
      log := log + [packet.Body()];
      views := views[nextSeq := packet.View()];
      outgoing := outgoing[nextSeq := packet];
      made := made + {packet};
      nextSeq := nextSeq + 1;
    }

    /** Counts a packet as in flight. */
    method Launch(packet: Packet)
      requires Shape()
      modifies this
      ensures Shape() && Objects() == old(Objects()) && Channels() == old(Channels())
      ensures var s := old(Abs());
        Abs() == s.(snd := s.snd.(
          inflight := s.snd.inflight + |packet.buf|,
          inflightPackets := s.snd.inflightPackets + 1,
          inflightBytes := s.snd.inflightBytes + packet.DataLen()))
    {
      hide Coherent, QueueOk, FramesOf;
      inflightBytes := inflightBytes + packet.DataLen();
      inflightPackets := inflightPackets + 1;
      inflight := inflight + packet.Len();
    }

    method SendBody(body: seq<Byte>)
      requires Shape()
      modifies this
      ensures Shape() && fresh(made - old(made)) && old(made) <= made && Channels() == old(Channels())
      ensures Abs() == SendData(old(Abs()), body)
    {
      hide Shape, FramesOf, Packet.Sealed, CreateHeader;
      HeaderSeq(Abs(), UDX_HEADER_DATA);
      var packet := new Packet(HeaderFor(UDX_HEADER_DATA), body);
      assert packet.Body() == body && packet.DataLen() == |body| && |packet.buf| == UDX_HEADER_SIZE + |body|;
      Register(packet);
      Launch(packet);
      Enqueue(Shared(packet));
      WakeDriver();
      CountTx(|body|);
    }

    method SendDataPacket(buf: seq<Byte>) returns (n: nat)
      requires Valid() && error.None? && buf != []
      modifies this
      ensures Valid() && fresh(made - old(made)) && old(made) <= made && Channels() == old(Channels())
      ensures var len := Min(|buf|, UDX_MAX_DATA_SIZE);
        if old(inflight) + len > old(cwnd) then n == 0 && Abs() == old(Abs()) && made == old(made)
        else n == len && Abs() == SendData(old(Abs()), buf[..len])
    {
      hide Inv, Shape, FramesOf, SendData;
      var len := Min(|buf|, UDX_MAX_DATA_SIZE);
      if inflight + len > cwnd {
        return 0;
      }
      SendDataInv(Abs(), buf[..len]);
      SendBody(buf[..len]);
      n := len;
    }

    method Park()
      requires Valid()
      modifies this
      ensures Valid() && Abs() == old(Abs()).(writeWaker := true)
      ensures Objects() == old(Objects()) && Channels() == old(Channels())
    {
      hide Coherent, QueueOk, FramesOf;
      writeWaker := true;
    }

    method PollWrite(buf: seq<Byte>) returns (r: Poll<nat>)
      requires Valid()
      modifies this
      ensures Valid() && fresh(made - old(made)) && old(made) <= made && Channels() == old(Channels())
      ensures (Abs(), r) == StreamModel.PollWrite(old(Abs()), buf)
    {
      hide Inv, Shape, FramesOf, SendData, SendChunks;
      if error.Some? {
        return Failed(error.value);
      }
      if buf == [] {
        return Ready(0);
      }
      ghost var s0 := Abs();
      var written := 0;
      assert buf[0..] == buf;
      while written < |buf|
        invariant written <= |buf| && Valid() && error.None? && Channels() == old(Channels())
        invariant fresh(made - old(made)) && old(made) <= made
        invariant SendChunks(s0, buf) == Later(SendChunks(Abs(), buf[written..]), written)
      {
        SendChunksStep(Abs(), buf[written..]);
        var n := SendDataPacket(buf[written..]);
        if n == 0 {
          if written == 0 {
            Park();
            return Pending;
          }
          return Ready(written);
        }
        assert buf[written..][n..] == buf[written + n..];
        written := written + n;
      }
      SendChunksStep(Abs(), []);
      return Ready(written);
    }

    // ----- acknowledgements -----

    /** The estimator update, step by step (section 2 of RFC 6298). */
    method UpdateRtt(sample: nat)
      modifies this
      ensures Abs() == old(Abs()).(snd := old(Abs()).snd.(rtt := Sample(old(rtt), sample)))
      ensures Objects() == old(Objects()) && Channels() == old(Channels()) && sendQueue == old(sendQueue)
    {
      hide FramesOf;
      var srtt, rttvar := rtt.srtt, rtt.rttvar;
      if srtt == 0 {
        srtt := sample;
        rttvar := sample / 2;
      } else {
        var delta := if sample < srtt then srtt - sample else sample - srtt;
        rttvar := (3 * rttvar + delta) / 4;
        srtt := (7 * srtt + sample) / 8;
      }
      rtt := Rtt(srtt, rttvar, Max(ONE_SECOND, srtt + Max(UDX_CLOCK_GRANULARITY, 4 * rttvar)));
    }

    method TakeOutOfFlight(packet: Packet)
      requires packet.waiting || packet.Len() <= inflight
      requires packet.DataLen() <= inflightBytes && 1 <= inflightPackets
      modifies this
      ensures var snd := old(Abs()).snd;
        Abs() == old(Abs()).(snd := snd.(
          inflight := snd.inflight - (if packet.waiting then 0 else packet.Len()),
          inflightPackets := snd.inflightPackets - 1,
          inflightBytes := snd.inflightBytes - packet.DataLen()))
      ensures Objects() == old(Objects()) && Channels() == old(Channels()) && sendQueue == old(sendQueue)
    {
      hide FramesOf;
      if !packet.waiting {
        inflight := inflight - packet.Len();
      }
      inflightBytes := inflightBytes - packet.DataLen();
      inflightPackets := inflightPackets - 1;
    }

    method HandleRemoteAckForPacket(packet: Packet, now: nat)
      requires packet.waiting || packet.Len() <= inflight
      requires packet.DataLen() <= inflightBytes && 1 <= inflightPackets
      modifies this, packet
      ensures var s := old(Abs()).snd;
        Abs() == old(Abs()).(snd := s.(
          inflight := s.inflight - (if old(packet.waiting) then 0 else packet.Len()),
          inflightPackets := s.inflightPackets - 1,
          inflightBytes := s.inflightBytes - packet.DataLen(),
          rtt := Absorb(s.rtt, SampleOf(old(packet.View()), now))))
      ensures packet.skip && packet.View() == old(packet.View())
      ensures Objects() == old(Objects()) && Channels() == old(Channels()) && sendQueue == old(sendQueue)
    {
      hide FramesOf, Sample, Absorb;
      AbsorbAtMostOne(rtt, SampleOf(packet.View(), now));
      TakeOutOfFlight(packet);
      if packet.timeSent.Some? && packet.transmits == 1 {
        UpdateRtt(if packet.timeSent.value <= now then now - packet.timeSent.value else 0);
      }
      packet.skip := true;
    }

    method Detach(k: nat) returns (packet: Packet)
      requires Shape() && k in outgoing
      modifies this
      ensures made == old(made) && Channels() == old(Channels()) && QueueOk(sendQueue, made)
      ensures k in old(views) && Abs() == old(Abs()).(snd := old(Abs()).snd.(outgoing := old(Abs()).snd.outgoing - {k}))
      ensures Coherent(made - {packet}, outgoing, views, nextSeq) && k !in outgoing
      ensures && packet in made && packet.Sealed() && packet.header.seqno == k < nextSeq
              && packet.View() == old(views[k]) && packet.waiting == old(views[k]).waiting
              && packet.Len() == packet.View().Len() && packet.DataLen() == |packet.View().body|
    {
      hide Coherent, QueueOk, FramesOf, Packet.Sealed;
      CoherentDrop(made, outgoing, views, nextSeq, k);
      packet := outgoing[k];
      outgoing := outgoing - {k};
      views := views - {k};
    }

    /** One packet out of `outgoing`, if it is there: the body of both acknowledgement loops. */
    method Remove(k: nat, now: nat)
      requires Valid()
      modifies this, made
      ensures Valid() && made == old(made) && Channels() == old(Channels())
      ensures Abs() == old(Abs()).(snd := Retire(old(Abs()).snd, k, k + 1, now))
    {
      hide Coherent, QueueOk, FramesOf, Packet.Sealed, Packet.View, Retire, Inv, Absorb, SampleOf;
      RetireOne(Abs(), k, now);
      CoherentKeys(made, outgoing, views, nextSeq);
      if k in outgoing {
        var packet := Detach(k);
        HandleRemoteAckForPacket(packet, now);
        CoherentSkipped(made, outgoing, views, nextSeq, packet);
      }
    }

    method Advance()
      requires Valid()
      modifies this
      ensures Valid() && Abs() == old(Abs()).(snd := old(Abs()).snd.(remoteAcked := old(remoteAcked) + 1))
      ensures Objects() == old(Objects()) && Channels() == old(Channels())
    {
      hide Coherent, QueueOk, FramesOf;
      remoteAcked := remoteAcked + 1;
    }

    method WakeWriterIfRoom()
      requires Valid()
      modifies this
      ensures Valid() && Abs() == old(Abs()).(writeWaker := old(writeWaker) && !(old(inflight) + UDX_MTU <= old(cwnd)))
      ensures Objects() == old(Objects()) && Channels() == old(Channels())
    {
      hide Coherent, QueueOk, FramesOf;
      if inflight + UDX_MTU <= cwnd {
        writeWaker := false;
      }
    }

    /** Sets the retransmission timer. */
    method ResetTimer(at: nat)
      requires Valid()
      modifies this
      ensures Valid() && Abs() == old(Abs()).(deadline := at)
      ensures Objects() == old(Objects()) && Channels() == old(Channels())
    {
      hide Coherent, QueueOk, FramesOf, SenderInv, ReceiverInv;
      deadline := at;
    }

    /** The acknowledgement loop. */
    method RemoveUpTo(ack: nat, now: nat)
      requires Valid() && remoteAcked <= ack
      modifies this, made
      ensures Valid() && made == old(made) && Channels() == old(Channels())
      ensures var s := old(Abs());
        Abs() == s.(snd := Retire(s.snd, s.snd.remoteAcked, ack, now).(remoteAcked := ack))
    {
      hide Inv, Shape, FramesOf, Retire;
      ghost var s0, from := Abs(), remoteAcked;
      RetireNothing(s0.snd, from, now);
      while remoteAcked < ack
        invariant Valid() && made == old(made) && Channels() == old(Channels())
        invariant from <= remoteAcked <= ack
        invariant Abs() == s0.(snd := Retire(s0.snd, from, remoteAcked, now).(remoteAcked := remoteAcked))
      {
        RetireStep(s0.snd, from, remoteAcked, now);
        Advance();
        Remove(remoteAcked - 1, now);
      }
    }

    method HandleIncomingMaxRemoteAck(ack: nat, now: nat)
      requires Valid()
      modifies this, made
      ensures Valid() && made == old(made) && Channels() == old(Channels())
      ensures Abs() == HandleAck(old(Abs()), ack, now)
    {
      hide Inv, Shape, FramesOf, Retire;
      if ack <= remoteAcked {
        return;
      }
      RemoveUpTo(ack, now);
      WakeWriterIfRoom();
      ResetTimer(now + rtt.rto);
    }

    // ----- receiving -----

    method HandleIncomingSacks(buf: seq<Byte>, now: nat)
      requires Valid()
      modifies this, made
      ensures Valid() && made == old(made) && Channels() == old(Channels())
      ensures Abs() == old(Abs()).(snd := RetireBlocks(old(Abs()).snd, SackBlocks(buf, 0), now))
    {
      hide Inv, Shape, FramesOf, Retire, ReadU32Le;
      ghost var s0 := Abs();
      var i := 0;
      while i + 8 < |buf|
        invariant Valid() && made == old(made) && Channels() == old(Channels())
        invariant Abs() == s0.(snd := Abs().snd)
        invariant RetireBlocks(Abs().snd, SackBlocks(buf, i), now) == RetireBlocks(s0.snd, SackBlocks(buf, 0), now)
      {
        var start := ReadU32Le(buf[i..i + 4]);
        var end := ReadU32Le(buf[i + 4..i + 8]);
        assert SackBlocks(buf, i) == [(start, end)] + SackBlocks(buf, i + 8);
        RemoveRange(start, end, now);
        i := i + 8;
      }
    }

    method RemoveRange(start: nat, end: nat, now: nat)
      requires Valid()
      modifies this, made
      ensures Valid() && made == old(made) && Channels() == old(Channels())
      ensures Abs() == old(Abs()).(snd := Retire(old(Abs()).snd, start, end, now))
    {
      hide Inv, Shape, FramesOf, Retire;
      ghost var s0 := Abs();
      RetireNothing(s0.snd, start, now);
      RetireEmpty(s0.snd, start, end, now);
      var j := start;
      while j < end
        invariant Valid() && made == old(made) && Channels() == old(Channels())
        invariant start <= j <= Max(start, end)
        invariant Abs() == s0.(snd := Retire(s0.snd, start, j, now))
      {
        RetireTwice(s0.snd, start, j, j + 1, now);
        Remove(j, now);
        j := j + 1;
      }
    }

    method CountRxPacket()
      requires Shape()
      modifies this
      ensures Shape() && Abs() == CountRx(old(Abs()))
      ensures Objects() == old(Objects()) && Channels() == old(Channels())
    {
      hide Coherent, QueueOk, FramesOf;
      counters := counters.(rxPackets := counters.rxPackets + 1);
    }

    method HandleEnd(f: Frame)
      requires Shape()
      modifies this
      ensures Shape() && Abs() == TakeEnd(old(Abs()), f)
      ensures Objects() == old(Objects()) && Channels() == old(Channels())
    {
      hide Coherent, QueueOk, FramesOf, StreamModel.Terminate;
      if HasType(f.header.typ, UDX_HEADER_END) {
        phase := phase.CloseRemote();
        Terminate(UnexpectedEof);
      }
    }

    /** Moves `ack` to the first gap. */
    method AdvanceAck()
      requires Shape()
      modifies this
      ensures Shape() && Objects() == old(Objects()) && Channels() == old(Channels())
      ensures Abs() == old(Abs()).(rcv := old(Abs()).rcv.(ack := NextGap(old(incoming).Keys, old(ack))))
    {
      hide Coherent, QueueOk, FramesOf, NextGap;
      ghost var from, keys := ack, incoming.Keys;
      while ack in incoming
        invariant Shape() && Objects() == old(Objects()) && Channels() == old(Channels())
        invariant from <= ack <= NextGap(keys, from) && incoming.Keys == keys
        invariant Abs() == old(Abs()).(rcv := old(Abs()).rcv.(ack := ack))
        decreases NextGap(keys, from) - ack
      {
        ack := ack + 1;
      }
    }

    /** Stores a packet at or past the gap and moves the gap over everything now in order. */
    method InsertPacket(f: Frame)
      requires Shape()
      modifies this
      ensures Shape() && Abs() == old(Abs()).(rcv := Insert(old(Abs()).rcv, f))
      ensures Objects() == old(Objects()) && Channels() == old(Channels())
    {
      hide Coherent, QueueOk, FramesOf, NextGap;
      if f.header.seqno >= ack {
        incoming := incoming[f.header.seqno := InPacket(f.header, f.body, 0)];
      }
      AdvanceAck();
    }

    method NoteData(f: Frame)
      requires Shape()
      modifies this
      ensures Shape() && Objects() == old(Objects()) && Channels() == old(Channels())
      ensures Abs() == old(Abs()).(
        readWaker := old(readWaker) && !(f.header.seqno <= old(ack)),
        counters := old(counters).(rxBytes := old(counters).rxBytes + |f.body|))
    {
      hide Coherent, QueueOk, FramesOf;
      counters := counters.(rxBytes := counters.rxBytes + |f.body|);
      if f.header.seqno <= ack {
        readWaker := false;
      }
    }

    method HandleData(f: Frame)
      requires Shape()
      modifies this
      ensures Shape() && Abs() == TakeData(old(Abs()), f)
      ensures Objects() == old(Objects()) && Channels() == old(Channels())
    {
      hide Shape, FramesOf, Insert, SendState;
      if HasType(f.header.typ, UDX_HEADER_DATA) {
        InsertPacket(f);
        NoteData(f);
        SendStatePacket();
      }
    }

    method GrowCwnd(ack: nat)
      requires Shape()
      modifies this
      ensures Shape() && Abs() == old(Abs()).(snd := GrowWindow(old(Abs()).snd, ack))
      ensures Objects() == old(Objects()) && Channels() == old(Channels())
    {
      hide Coherent, QueueOk, FramesOf;
      if ack > nextSeq {
        return;
      }
      if ack > remoteAcked {
        if cwnd < SSTHRESH {
          cwnd := cwnd + UDX_MTU;
        } else {
          cwnd := cwnd + Max(UDX_MTU * UDX_MTU / cwnd, 1);
        }
      }
    }

    method HandleIncoming(f: Frame, now: nat)
      requires Valid()
      modifies this, made
      ensures Valid() && Abs() == StreamModel.HandleIncoming(old(Abs()), f, now)
      ensures made == old(made) && Channels() == old(Channels())
    {
      hide Inv, Shape, FramesOf, CountRx, RetireBlocks, TakeEnd, TakeData, GrowWindow;
      ghost var s0 := Abs();
      HandleIncomingInv(s0, f, now);
      CountRxInv(s0);
      CountRxPacket();
      if HasType(f.header.typ, UDX_HEADER_SACK) {
        HandleIncomingSacks(f.body, now);
      }
      HandleEnd(f);
      HandleData(f);
      GrowCwnd(f.header.ack);
    }

    method NextEvent() returns (f: Frame)
      requires Valid() && recvRx != []
      modifies this
      ensures Valid() && Abs() == old(Abs()) && Objects() == old(Objects())
      ensures recvRx == old(recvRx)[1..] && f == old(recvRx)[0]
      ensures recvClosed == old(recvClosed) && sendTx == old(sendTx)
    {
      hide Coherent, QueueOk, FramesOf, Inv;
      f := recvRx[0];
      recvRx := recvRx[1..];
    }

    /** `poll_incoming`; `false` is the "Socket driver future was dropped" error. */
    method PollIncoming(now: nat) returns (ok: bool)
      requires Valid()
      modifies this, made
      ensures Valid() && made == old(made) && recvRx == [] && recvClosed == old(recvClosed) && sendTx == old(sendTx)
      ensures ok == !recvClosed
      ensures Abs() == if ok then Received(old(Abs()), old(recvRx), now) else HandleAll(old(Abs()), old(recvRx), now)
    {
      hide Inv, Shape, FramesOf, StreamModel.HandleIncoming, HandleAck;
      ghost var s0, batch, n := Abs(), recvRx, 0;
      var remoteAck := 0;
      while recvRx != []
        invariant Valid() && made == old(made) && recvClosed == old(recvClosed) && sendTx == old(sendTx)
        invariant n <= |batch| && recvRx == batch[n..]
        invariant remoteAck == MaxAck(batch[..n])
        invariant HandleAll(Abs(), recvRx, now) == HandleAll(s0, batch, now)
        decreases |recvRx|
      {
        assert batch[..n + 1][..n] == batch[..n];
        ghost var rest := recvRx;
        var f := NextEvent();
        assert rest == [f] + recvRx;
        remoteAck := Max(remoteAck, f.header.ack);
        HandleIncoming(f, now);
        n := n + 1;
      }
      assert batch[..n] == batch;
      if recvClosed {
        return false;
      }
      HandleIncomingMaxRemoteAck(remoteAck, now);
      return true;
    }

    // ----- timeouts and retransmission -----

    method ShrinkWindow()
      requires Valid()
      modifies this
      ensures Valid() && Abs() == old(Abs()).(snd := old(Abs()).snd.(cwnd := Max(UDX_MTU, old(cwnd) / 2)))
      ensures Objects() == old(Objects()) && Channels() == old(Channels())
    {
      hide Coherent, QueueOk, FramesOf;
      cwnd := Max(UDX_MTU, cwnd / 2);
    }

    /** The socket notes, through its reference, when an outstanding packet was handed to the kernel. */
    method StampSent(k: nat, now: nat)
      requires Valid()
      modifies this, made
      ensures Valid() && Objects() == old(Objects()) && Channels() == old(Channels())
      ensures Abs() == Stamp(old(Abs()), k, now)
    {
      hide Coherent, QueueOk, FramesOf, Packet.Sealed, Inv;
      CoherentKeys(made, outgoing, views, nextSeq);
      StampInv(Abs(), k, now);
      if k in outgoing {
        CoherentDrop(made, outgoing, views, nextSeq, k);
        var packet := outgoing[k];
        packet.timeSent := Some(now);
        CoherentPut(made, outgoing, views, nextSeq, k);
        views := views[k := packet.View()];
      }
    }

    /** Declares one packet in flight lost. */
    method LosePacket(k: nat)
      requires Valid() && k in outgoing && !outgoing[k].waiting && outgoing[k].transmits <= UDX_MAX_TRANSMITS
      modifies this, made
      ensures Valid() && Objects() == old(Objects()) && Channels() == old(Channels())
      ensures Abs() == old(Abs()).(snd := MarkLost(old(Abs()).snd, k, k + 1))
    {
      hide Coherent, QueueOk, FramesOf, Packet.Sealed, MarkLost, Inv, Weigh;
      CoherentDrop(made, outgoing, views, nextSeq, k);
      LoseOne(Abs(), k);
      var packet := outgoing[k];
      packet.transmits := packet.transmits + 1;
      packet.waiting := true;
      CoherentPut(made, outgoing, views, nextSeq, k);
      views := views[k := packet.View()];
      inflight := inflight - packet.Len();
    }

    /** The body of the timeout loop; `false` if the packet has been retransmitted too often. */
    method Expire(k: nat) returns (ok: bool)
      requires Valid()
      modifies this, made
      ensures Valid() && Objects() == old(Objects()) && Channels() == old(Channels())
      ensures var snd := old(Abs()).snd;
        && ok == !(k in snd.outgoing && Exhausted(snd.outgoing[k]))
        && Abs() == if ok then old(Abs()).(snd := MarkLost(snd, k, k + 1)) else old(Abs())
    {
      hide Inv, Coherent, QueueOk, FramesOf, MarkLost;
      CoherentKeys(made, outgoing, views, nextSeq);
      MarkLostOther(Abs().snd, k);
      if k in outgoing {
        CoherentView(made, outgoing, views, nextSeq, k);
        if outgoing[k].waiting {
          return true;
        }
        if outgoing[k].transmits > UDX_MAX_TRANSMITS {
          return false;
        }
        LosePacket(k);
      }
      return true;
    }

    /** The timeout loop: everything outstanding is considered lost, up to an exhausted packet. */
    method ExpireAll() returns (ok: bool)
      requires Valid()
      modifies this, made
      ensures Valid() && Objects() == old(Objects()) && Channels() == old(Channels())
      ensures var snd := old(Abs()).snd;
        var stop := FirstExhausted(snd.outgoing, snd.remoteAcked, snd.nextSeq);
        ok == (stop == snd.nextSeq) && Abs() == old(Abs()).(snd := MarkLost(snd, snd.remoteAcked, stop))
    {
      hide Inv, Shape, FramesOf, MarkLost, Exhausted;
      ghost var s0, out, from := Abs(), views, remoteAcked;
      MarkLostEmpty(s0.snd, from, from);
      MarkLostEmpty(s0.snd, from, nextSeq);
      var i := remoteAcked;
      while i < nextSeq
        invariant Valid() && Objects() == old(Objects()) && Channels() == old(Channels())
        invariant from <= i <= Max(from, nextSeq) && nextSeq == s0.snd.nextSeq
        invariant Abs() == s0.(snd := MarkLost(s0.snd, from, i))
        invariant FirstExhausted(out, from, nextSeq) == FirstExhausted(out, i, nextSeq)
        decreases nextSeq - i
      {
        MarkLostStep(s0.snd, from, i);
        var fine := Expire(i);
        if !fine {
          return false;
        }
        i := i + 1;
      }
      return true;
    }

    /** `poll_check_timeouts`; `false` is the "Max retransmits reached without ack" error. */
    method PollCheckTimeouts(timer: bool, now: nat) returns (ok: bool)
      requires Valid()
      modifies this, made
      ensures Valid() && Objects() == old(Objects()) && Channels() == old(Channels())
      ensures (Abs(), ok) == CheckTimer(old(Abs()), timer, now) && driveWaker == old(driveWaker)
    {
      hide Inv, Shape, FramesOf, MarkLost, FirstExhausted;
      if !timer || remoteAcked == nextSeq {
        return true;
      }
      ResetTimer(now + 2 * rtt.rto);
      ShrinkWindow();
      ok := ExpireAll();
    }

    /** Queues one waiting packet again. */
    method RequeuePacket(k: nat)
      requires Valid() && !driveWaker && k in outgoing && outgoing[k].waiting
      modifies this, made
      ensures Valid() && Objects() == old(Objects()) && Channels() == old(Channels())
      ensures var s := old(Abs());
        Abs() == s.(snd := MarkSent(s.snd, k, k + 1), queue := s.queue + WaitingFrames(s.snd.outgoing, k, k + 1))
    {
      hide Coherent, QueueOk, FramesOf, Packet.Sealed, MarkSent, WaitingFrames, Inv;
      CoherentDrop(made, outgoing, views, nextSeq, k);
      RequeueOne(Abs(), k);
      var packet := outgoing[k];
      packet.waiting := false;
      packet.queued := packet.queued + 1;
      CoherentPut(made, outgoing, views, nextSeq, k);
      views := views[k := packet.View()];
      inflight := inflight + packet.Len();
      Enqueue(Shared(packet));
    }

    /** The body of the flush loop; `false` stops it at a packet that does not fit. */
    method FlushOne(k: nat) returns (go: bool)
      requires Valid() && !driveWaker
      modifies this, made
      ensures Valid() && !driveWaker && Objects() == old(Objects()) && Channels() == old(Channels())
      ensures var s := old(Abs());
        && go == !(k in s.snd.outgoing && s.snd.outgoing[k].waiting
                   && s.snd.inflight + s.snd.outgoing[k].Len() > s.snd.cwnd)
        && Abs() == if go
             then s.(snd := MarkSent(s.snd, k, k + 1), queue := s.queue + WaitingFrames(s.snd.outgoing, k, k + 1))
             else s
    {
      hide Inv, Coherent, QueueOk, FramesOf, MarkSent, WaitingFrames;
      CoherentKeys(made, outgoing, views, nextSeq);
      MarkSentOther(Abs(), k);
      if k in outgoing {
        CoherentView(made, outgoing, views, nextSeq, k);
        if !outgoing[k].waiting {
          return true;
        }
        if inflight + outgoing[k].Len() > cwnd {
          return false;
        }
        RequeuePacket(k);
      }
      return true;
    }

    method FlushWaitingPackets()
      requires Valid() && !driveWaker
      modifies this, made
      ensures Valid() && Objects() == old(Objects()) && Channels() == old(Channels())
      ensures Abs() == Flush(old(Abs())) && !driveWaker
    {
      hide Inv, Shape, FramesOf, MarkSent, WaitingFrames;
      ghost var s0, out, from := Abs(), views, remoteAcked;
      MarkSentEmpty(s0, from, from);
      MarkSentEmpty(s0, from, nextSeq);
      var i := remoteAcked;
      while i < nextSeq
        invariant Valid() && !driveWaker && Objects() == old(Objects()) && Channels() == old(Channels())
        invariant from <= i <= Max(from, nextSeq) && nextSeq == s0.snd.nextSeq
        invariant Abs() == s0.(snd := MarkSent(s0.snd, from, i), queue := s0.queue + WaitingFrames(out, from, i))
        invariant FlushStop(out, from, nextSeq, s0.snd.inflight, s0.snd.cwnd)
               == FlushStop(out, i, nextSeq, Abs().snd.inflight, s0.snd.cwnd)
        decreases nextSeq - i
      {
        MarkSentStep(s0, from, i);
        var go := FlushOne(i);
        if !go {
          return;
        }
        i := i + 1;
      }
    }

    /** `poll_transmit`: the whole queue goes to the socket, cut into packet sets. */
    method PollTransmit(gsoSegments: nat)
      requires Valid() && gsoSegments > 0
      modifies this
      ensures Valid() && Abs() == old(Abs()).(queue := []) && Objects() == old(Objects())
      ensures recvRx == old(recvRx) && recvClosed == old(recvClosed) && sendQueue == []
      ensures sendTx == old(sendTx) + EventsOf(SetsOf(Greedy(old(sendQueue), SizeOf, Min(gsoSegments, MAX_SEGMENTS))))
    {
      hide Coherent, Inv, SetsOf, EventsOf, Greedy;
      NoQueueInv(Abs());
      var sets := CutIntoSets(sendQueue, Min(gsoSegments, MAX_SEGMENTS));
      sendQueue := [];
      sendTx := sendTx + EventsOf(sets);
    }

    // ----- reading -----

    /** Reads what fits of the packet at the cursor; `whole` says that the packet is used up. */
    method ReadPacket(room: nat) returns (bytes: seq<Byte>, whole: bool)
      requires Shape() && readCursor in incoming
      modifies this
      ensures Shape() && Objects() == old(Objects()) && Channels() == old(Channels())
      ensures Abs() == old(Abs()).(rcv := Abs().rcv) && ack == old(ack) && old(readCursor) in old(incoming)
      ensures var c, p := old(readCursor), old(incoming)[old(readCursor)];
        var rest := p.buf[p.readOffset..];
        if |rest| > room then
          && !whole && bytes == rest[..room] && readCursor == c
          && incoming == (old(incoming) - {c})[p.header.seqno := p.(readOffset := p.readOffset + room)]
        else
          whole && bytes == rest && readCursor == c + 1 && incoming == old(incoming) - {c}
    {
      hide Coherent, QueueOk, FramesOf;
      var packet := incoming[readCursor];
      incoming := incoming - {readCursor};
      var start := packet.readOffset;
      if |packet.buf| - start > room {
        bytes := packet.buf[start..start + room];
        incoming := incoming[packet.header.seqno := packet.(readOffset := start + room)];
        return bytes, false;
      }
      readCursor := readCursor + 1;
      return packet.buf[start..], true;
    }

    method ReadNext(room: nat) returns (bytes: seq<Byte>, didRead: bool)
      requires Valid()
      modifies this
      ensures Valid() && Objects() == old(Objects()) && Channels() == old(Channels())
      ensures (Abs().rcv, bytes, didRead) == StreamModel.ReadNext(old(Abs()).rcv, room)
      ensures Abs() == old(Abs()).(rcv := Abs().rcv)
    {
      hide Inv, Shape, FramesOf, StreamModel.ReadNext, AfterBytes;
      ghost var s0 := Abs();
      ReadNextKeepsInv(s0, room);
      bytes, didRead := [], false;
      ReadStarts(s0.rcv, room);
      while readCursor in incoming
        invariant Shape() && Objects() == old(Objects()) && Channels() == old(Channels())
        invariant |bytes| <= room && Abs() == s0.(rcv := Abs().rcv)
        invariant StreamModel.ReadNext(s0.rcv, room)
               == AfterBytes(bytes, didRead, StreamModel.ReadNext(Abs().rcv, room - |bytes|))
        decreases incoming.Keys
      {
        ReadTurn(Abs().rcv, room - |bytes|, bytes, didRead);
        var part, whole := ReadPacket(room - |bytes|);
        bytes := bytes + part;
        if !whole {
          return;
        }
        didRead := true;
      }
      ReadTurn(Abs().rcv, room - |bytes|, bytes, didRead);
    }

    method ParkReader()
      requires Valid()
      modifies this
      ensures Valid() && Abs() == old(Abs()).(readWaker := true)
      ensures Objects() == old(Objects()) && Channels() == old(Channels())
    {
      hide Coherent, QueueOk, FramesOf;
      readWaker := true;
    }

    method PollRead(room: nat) returns (bytes: seq<Byte>, poll: Poll<()>)
      requires Valid()
      modifies this
      ensures Valid() && Objects() == old(Objects()) && Channels() == old(Channels())
      ensures ReadResult(Abs(), bytes, poll) == StreamModel.PollRead(old(Abs()), room)
    {
      hide Inv, Shape, FramesOf, StreamModel.ReadNext;
      var didRead;
      bytes, didRead := ReadNext(room);
      if didRead {
        return bytes, Ready(());
      }
      if error.Some? {
        return bytes, Failed(error.value);
      }
      ParkReader();
      return bytes, Pending;
    }

    // ----- the driver -----

    method SetDriveWaker(parked: bool)
      requires Valid() && (parked ==> sendQueue == [])
      modifies this
      ensures Valid() && Abs() == old(Abs()).(driveWaker := parked)
      ensures Objects() == old(Objects()) && Channels() == old(Channels()) && sendQueue == old(sendQueue)
    {
      hide Coherent, QueueOk;
      driveWaker := parked;
    }

    method Finish()
      requires Valid()
      modifies this
      ensures Valid() && Abs() == old(Abs()).(onClose := false, finished := true)
      ensures Objects() == old(Objects()) && recvRx == old(recvRx) && recvClosed == old(recvClosed)
      ensures sendTx == old(sendTx) + [StreamDropped(localId)]
    {
      hide Coherent, QueueOk, FramesOf, SenderInv, ReceiverInv;
      onClose := false;
      sendTx := sendTx + [StreamDropped(localId)];
      finished := true;
    }

    /** Timeout check, flush and transmit; `false` if the timeout check gives up. */
    method CheckFlushTransmit(timer: bool, now: nat, gsoSegments: nat) returns (ok: bool)
      requires Valid() && !driveWaker && gsoSegments > 0
      modifies this, made
      ensures Valid() && Objects() == old(Objects()) && recvRx == old(recvRx) && recvClosed == old(recvClosed)
      ensures old(sendTx) <= sendTx && OnlyTransmits(sendTx[|old(sendTx)|..])
      ensures var (checked, fine) := CheckTimer(old(Abs()), timer, now);
        && ok == fine
        && Abs() == (if fine then Flush(checked).(queue := []) else checked)
        && FramesOf(PacketsIn(sendTx[|old(sendTx)|..])) == (if fine then Flush(checked).queue else [])
      ensures ok ==> sendQueue == []
    {
      hide Inv, Shape, FramesOf, CheckTimer, Flush;
      NoFrames();
      ok := PollCheckTimeouts(timer, now);
      if !ok {
        return;
      }
      FlushWaitingPackets();
      QueueIsSealed();
      ghost var q, max := sendQueue, Min(gsoSegments, MAX_SEGMENTS);
      PollTransmit(gsoSegments);
      PacketsInSets(Greedy(q, SizeOf, max));
      GreedyIsBatching(q, SizeOf, max);
      SetsAreOk(q, max);
      assert sendTx[|old(sendTx)|..] == EventsOf(SetsOf(Greedy(q, SizeOf, max)));
    }

    lemma QueueIsSealed()
      requires Shape()
      ensures AllSealed(sendQueue)
    {
    }

    method PollDrive(timer: bool, now: nat, gsoSegments: nat) returns (err: Option<UdxError>)
      requires Valid() && !driveWaker && gsoSegments > 0
      modifies this, made
      ensures Valid() && made == old(made) && recvRx == [] && recvClosed == old(recvClosed)
      ensures old(sendTx) <= sendTx && OnlyTransmits(sendTx[|old(sendTx)|..])
      ensures err.None? ==> sendQueue == []
      ensures var sent := FramesOf(PacketsIn(sendTx[|old(sendTx)|..]));
        if recvClosed then
          err == Some(BrokenPipe) && Abs() == HandleAll(old(Abs()), old(recvRx), now) && sent == []
        else
          var received := Received(old(Abs()), old(recvRx), now);
          var (checked, fine) := CheckTimer(received, timer, now);
          if fine then err == None && Abs() == Flush(checked).(queue := []) && sent == Flush(checked).queue
          else err == Some(TimedOut) && Abs() == checked && sent == []
    {
      hide Inv, Shape, FramesOf, CheckTimer, Flush, HandleAll, Received;
      NoFrames();
      HandleAllAwake(Abs(), recvRx, now);
      ReceivedInv(Abs(), recvRx, now);
      var ok := PollIncoming(now);
      if !ok {
        return Some(BrokenPipe);
      }
      ok := CheckFlushTransmit(timer, now, gsoSegments);
      return if ok then None else Some(TimedOut);
    }

    /** `closed_and_drained`. */
    predicate IsClosedAndDrained()
      reads this
    {
      error.Some? && sendQueue == [] && |outgoing| == 0
    }

    /**
     `StreamDriver::poll`: what it does to the stream and what it hands to the socket is what
     `Drive` says; a driver that completes tells the socket that the stream is gone. A completed
     driver is not polled again.
     */
    method Poll(timer: bool, now: nat, gsoSegments: nat) returns (outcome: Outcome)
      requires Valid() && !finished && gsoSegments > 0
      modifies this, made
      ensures Valid() && made == old(made) && recvClosed == old(recvClosed) && old(sendTx) <= sendTx
      ensures Driven(Abs(), outcome, FramesOf(PacketsIn(sendTx[|old(sendTx)|..])))
           == Drive(old(Abs()), old(recvRx), recvClosed, timer, now)
      ensures if outcome.Finished? then sendTx == old(sendTx) + [StreamDropped(localId)]
              else OnlyTransmits(sendTx[|old(sendTx)|..])
    {
      hide Inv, Coherent, QueueOk, CheckTimer, Flush, HandleAll, Received, StreamModel.Terminate;
      NoFramesInDrop(localId);
      SetDriveWaker(false);
      DrainedAgrees();
      if IsClosedAndDrained() {
        Finish();
        return Finished;
      }
      var err := PollDrive(timer, now, gsoSegments);
      if err.Some? {
        TerminateInv(Abs(), err.value);
        Terminate(err.value);
        return Aborted(err.value);
      }
      SetDriveWaker(true);
      return Parked;
    }

    lemma DrainedAgrees()
      requires Shape()
      ensures IsClosedAndDrained() <==> ClosedAndDrained(Abs())
    {
      CoherentKeys(made, outgoing, views, nextSeq);
      assert |views| == |views.Keys| && |outgoing| == |outgoing.Keys|;
      assert sendQueue == [] <==> |FramesOf(sendQueue)| == 0;
    }
  }

  lemma CoherentWith(made: set<Packet>, outgoing: map<nat, Packet>, views: Packets, nextSeq: nat, packet: Packet)
    requires Coherent(made, outgoing, views, nextSeq)
    requires packet.Sealed() && packet.header.seqno == nextSeq && !packet.skip
    ensures Coherent(made + {packet}, outgoing[nextSeq := packet], views[nextSeq := packet.View()], nextSeq + 1)
  {
    hide Packet.Sealed;
    forall p | p in made + {packet} ensures Tracked(p, outgoing[nextSeq := packet], nextSeq + 1) {
      assert p in made ==> Tracked(p, outgoing, nextSeq);
    }
  }

  lemma QueueOkWith(q: seq<PacketRef>, made: set<Packet>, packet: Packet)
    requires QueueOk(q, made)
    ensures QueueOk(q, made + {packet})
  {
  }

  function SampleOf(p: OutPacket, now: nat): seq<nat> {
    if p.sentAt.Some? && p.transmits == 1
    then [if p.sentAt.value <= now then now - p.sentAt.value else 0] else []
  }

  lemma AbsorbAtMostOne(t: Rtt, samples: seq<nat>)
    requires |samples| <= 1
    ensures Absorb(t, samples) == if samples == [] then t else Sample(t, samples[0])
  {
    if samples != [] {
      assert samples[..0] == [];
    }
  }

  /** What retiring a single packet number amounts to. */
  lemma RetireSingle(snd: Sender, k: nat, now: nat)
    ensures Retire(snd, k, k + 1, now) ==
      if k !in snd.outgoing then snd
      else
        var p := snd.outgoing[k];
        snd.(outgoing := snd.outgoing - {k},
             inflight := snd.inflight - Weigh(InFlight, p),
             inflightPackets := snd.inflightPackets - 1,
             inflightBytes := snd.inflightBytes - |p.body|,
             rtt := Absorb(snd.rtt, SampleOf(p, now)))
  {
    var out := snd.outgoing;
    assert Total(InFlight, out, k, k + 1) == WeightAt(InFlight, out, k);
    assert Total(Count, out, k, k + 1) == WeightAt(Count, out, k);
    assert Total(Body, out, k, k + 1) == WeightAt(Body, out, k);
    assert Samples(out, k, k, now) == [];
    assert Without(out, k, k + 1) == out - {k};
    assert k !in out ==> out - {k} == out;
  }

  lemma CountRxInv(s: State)
    requires Inv(s)
    ensures Inv(CountRx(s))
  {
  }

  lemma RetireEmpty(snd: Sender, lo: nat, hi: nat, now: nat)
    ensures hi <= lo ==> Retire(snd, lo, hi, now) == snd
  {
    assert hi <= lo ==> Without(snd.outgoing, lo, hi) == snd.outgoing;
  }

  lemma RetireNothing(snd: Sender, lo: nat, now: nat)
    ensures Retire(snd, lo, lo, now) == snd
    ensures Retire(snd, lo, lo, now).(remoteAcked := snd.remoteAcked) == snd
  {
    RetireEmpty(snd, lo, lo, now);
  }

  lemma RetireStep(snd: Sender, lo: nat, k: nat, now: nat)
    requires lo <= k
    ensures Retire(Retire(snd, lo, k, now).(remoteAcked := k + 1), k, k + 1, now)
         == Retire(snd, lo, k + 1, now).(remoteAcked := k + 1)
  {
    RetireTwice(snd, lo, k, k + 1, now);
  }

  /** Why nothing underflows. */
  lemma CountedIn(snd: Sender, k: nat)
    requires SenderInv(snd) && k in snd.outgoing
    ensures var p := snd.outgoing[k];
      Weigh(InFlight, p) <= snd.inflight && 1 <= snd.inflightPackets && |p.body| <= snd.inflightBytes
  {
    var out, n := snd.outgoing, snd.nextSeq;
    assert WeightAt(InFlight, out, k) == Total(InFlight, out, k, k + 1) <= Total(InFlight, out, 0, n) by {
      TotalWithin(InFlight, out, k, k + 1, n);
    }
    assert WeightAt(Count, out, k) == Total(Count, out, k, k + 1) <= Total(Count, out, 0, n) by {
      TotalWithin(Count, out, k, k + 1, n);
    }
    assert WeightAt(Body, out, k) == Total(Body, out, k, k + 1) <= Total(Body, out, 0, n) by {
      TotalWithin(Body, out, k, k + 1, n);
    }
  }

  lemma RetireOne(s: State, k: nat, now: nat)
    requires Inv(s)
    ensures Inv(s.(snd := Retire(s.snd, k, k + 1, now)))
    ensures var snd := s.snd;
      if k !in snd.outgoing then Retire(snd, k, k + 1, now) == snd
      else
        var p := snd.outgoing[k];
        && Weigh(InFlight, p) <= snd.inflight && 1 <= snd.inflightPackets && |p.body| <= snd.inflightBytes
        && Retire(snd, k, k + 1, now) == snd.(
             outgoing := snd.outgoing - {k},
             inflight := snd.inflight - Weigh(InFlight, p),
             inflightPackets := snd.inflightPackets - 1,
             inflightBytes := snd.inflightBytes - |p.body|,
             rtt := Absorb(snd.rtt, SampleOf(p, now)))
  {
    hide Total, SenderInv, Weigh;
    RetireInv(s.snd, k, k + 1, now);
    RetireSingle(s.snd, k, now);
    if k in s.snd.outgoing {
      CountedIn(s.snd, k);
    }
  }

  lemma MarkLostEmpty(snd: Sender, lo: nat, hi: nat)
    ensures hi <= lo ==> MarkLost(snd, lo, hi) == snd
  {
    assert hi <= lo ==> MarkLost(snd, lo, hi).outgoing == snd.outgoing;
  }

  lemma MarkLostOther(snd: Sender, k: nat)
    ensures k !in snd.outgoing || snd.outgoing[k].waiting ==> MarkLost(snd, k, k + 1) == snd
  {
    assert Total(InFlight, snd.outgoing, k, k + 1) == WeightAt(InFlight, snd.outgoing, k);
    if k !in snd.outgoing || snd.outgoing[k].waiting {
      assert MarkLost(snd, k, k + 1).outgoing == snd.outgoing;
    }
  }

  /** The timeout loop one packet further. */
  lemma MarkLostStep(snd: Sender, lo: nat, k: nat)
    requires lo <= k
    ensures var done, next := MarkLost(snd, lo, k), MarkLost(snd, lo, k + 1);
      && done.outgoing.Keys == snd.outgoing.Keys && next.nextSeq == snd.nextSeq
      && (k in snd.outgoing ==> done.outgoing[k] == snd.outgoing[k])
      && next == MarkLost(done, k, k + 1)
  {
    var done := MarkLost(snd, lo, k);
    assert Total(InFlight, done.outgoing, k, k + 1) == WeightAt(InFlight, done.outgoing, k);
    assert MarkLost(done, k, k + 1).outgoing == MarkLost(snd, lo, k + 1).outgoing;
  }

  lemma LoseOne(s: State, k: nat)
    requires Inv(s) && k in s.snd.outgoing && !s.snd.outgoing[k].waiting && !Exhausted(s.snd.outgoing[k])
    ensures Inv(s.(snd := MarkLost(s.snd, k, k + 1)))
    ensures var snd := s.snd;
      && snd.outgoing[k].Len() <= snd.inflight
      && MarkLost(snd, k, k + 1) == snd.(outgoing := snd.outgoing[k := Lose(snd.outgoing[k])],
                                         inflight := snd.inflight - snd.outgoing[k].Len())
  {
    var snd := s.snd;
    CountedIn(snd, k);
    MarkLostInv(snd, k, k + 1);
    assert Total(InFlight, snd.outgoing, k, k + 1) == WeightAt(InFlight, snd.outgoing, k);
    assert MarkLost(snd, k, k + 1).outgoing == snd.outgoing[k := Lose(snd.outgoing[k])];
  }

  lemma MarkSentEmpty(s: State, lo: nat, hi: nat)
    ensures hi <= lo ==> MarkSent(s.snd, lo, hi) == s.snd && WaitingFrames(s.snd.outgoing, lo, hi) == []
  {
    assert hi <= lo ==> MarkSent(s.snd, lo, hi).outgoing == s.snd.outgoing;
  }

  lemma MarkSentOther(s: State, k: nat)
    ensures k !in s.snd.outgoing || !s.snd.outgoing[k].waiting ==>
      MarkSent(s.snd, k, k + 1) == s.snd && s.queue + WaitingFrames(s.snd.outgoing, k, k + 1) == s.queue
  {
    assert Total(Waiting, s.snd.outgoing, k, k + 1) == WeightAt(Waiting, s.snd.outgoing, k);
    assert WaitingFrames(s.snd.outgoing, k, k) == [];
    if k !in s.snd.outgoing || !s.snd.outgoing[k].waiting {
      assert MarkSent(s.snd, k, k + 1).outgoing == s.snd.outgoing;
    }
  }

  /** The flush loop one packet further. */
  lemma MarkSentStep(s: State, lo: nat, k: nat)
    requires lo <= k
    ensures var snd := s.snd;
      var done, next := MarkSent(snd, lo, k), MarkSent(snd, lo, k + 1);
      && done.outgoing.Keys == snd.outgoing.Keys && next.nextSeq == snd.nextSeq && done.cwnd == snd.cwnd
      && (k in snd.outgoing ==> done.outgoing[k] == snd.outgoing[k])
      && next == MarkSent(done, k, k + 1)
      && next.inflight == done.inflight + WeightAt(Waiting, snd.outgoing, k)
      && s.queue + WaitingFrames(snd.outgoing, lo, k) + WaitingFrames(done.outgoing, k, k + 1)
         == s.queue + WaitingFrames(snd.outgoing, lo, k + 1)
  {
    var done := MarkSent(s.snd, lo, k);
    assert Total(Waiting, done.outgoing, k, k + 1) == WeightAt(Waiting, done.outgoing, k);
    assert WaitingFrames(done.outgoing, k, k) == [];
    assert MarkSent(done, k, k + 1).outgoing == MarkSent(s.snd, lo, k + 1).outgoing;
  }

  lemma RequeueOne(s: State, k: nat)
    requires Inv(s) && !s.driveWaker && k in s.snd.outgoing && s.snd.outgoing[k].waiting
    ensures var snd := s.snd;
      && MarkSent(snd, k, k + 1) == snd.(outgoing := snd.outgoing[k := Requeue(snd.outgoing[k])],
                                         inflight := snd.inflight + snd.outgoing[k].Len())
      && WaitingFrames(snd.outgoing, k, k + 1) == [snd.outgoing[k].ToFrame()]
    ensures Inv(s.(snd := MarkSent(s.snd, k, k + 1), queue := s.queue + WaitingFrames(s.snd.outgoing, k, k + 1)))
  {
    var snd := s.snd;
    assert k < snd.nextSeq;
    MarkSentInv(snd, k, k + 1);
    assert Total(Waiting, snd.outgoing, k, k + 1) == WeightAt(Waiting, snd.outgoing, k);
    assert MarkSent(snd, k, k + 1).outgoing == snd.outgoing[k := Requeue(snd.outgoing[k])];
    assert WaitingFrames(snd.outgoing, k, k) == [];
  }

  // ----- coherence of the packet objects -----

  lemma CoherentKeys(made: set<Packet>, outgoing: map<nat, Packet>, views: Packets, nextSeq: nat)
    requires Coherent(made, outgoing, views, nextSeq)
    ensures views.Keys == outgoing.Keys
  {
  }

  lemma CoherentView(made: set<Packet>, outgoing: map<nat, Packet>, views: Packets, nextSeq: nat, k: nat)
    requires Coherent(made, outgoing, views, nextSeq) && k in outgoing
    ensures k in views && views[k].waiting == outgoing[k].waiting && views[k].transmits == outgoing[k].transmits
    ensures views[k].Len() == outgoing[k].Len() && outgoing[k] in made
  {
    assert Tracked(outgoing[k], outgoing, nextSeq);
  }

  /** Without packet `k` the rest is coherent, whatever happens to that packet. */
  lemma CoherentDrop(made: set<Packet>, outgoing: map<nat, Packet>, views: Packets, nextSeq: nat, k: nat)
    requires Coherent(made, outgoing, views, nextSeq) && k in outgoing
    ensures var p := outgoing[k];
      && p in made && p.Sealed() && p.header.seqno == k < nextSeq && !p.skip
      && k in views && views[k] == p.View() && p.Len() == p.View().Len() && p.DataLen() == |p.View().body|
      && (forall p' :: p' in made - {p} ==> p'.header.seqno != k)
      && Coherent(made - {p}, outgoing - {k}, views - {k}, nextSeq)
  {
    var p := outgoing[k];
    assert Tracked(p, outgoing, nextSeq);
    forall p' | p' in made - {p} ensures Tracked(p', outgoing - {k}, nextSeq) && p'.header.seqno != k {
      assert Tracked(p', outgoing, nextSeq);
    }
  }

  /** A packet marked to be skipped is coherent outside `outgoing`. */
  lemma CoherentSkipped(made: set<Packet>, outgoing: map<nat, Packet>, views: Packets, nextSeq: nat, p: Packet)
    requires Coherent(made - {p}, outgoing, views, nextSeq) && p in made
    requires p.Sealed() && p.skip && p.header.seqno < nextSeq && p.header.seqno !in outgoing
    ensures Coherent(made, outgoing, views, nextSeq)
  {
    hide Packet.Sealed, Packet.View;
    forall p' | p' in made ensures Tracked(p', outgoing, nextSeq) {
      assert p' != p ==> p' in made - {p};
    }
  }

  /** A packet whose flags changed is coherent again with its new value. */
  lemma CoherentPut(made: set<Packet>, outgoing: map<nat, Packet>, views: Packets, nextSeq: nat, k: nat)
    requires k in outgoing && outgoing[k] in made && k < nextSeq
    requires Coherent(made - {outgoing[k]}, outgoing - {k}, views - {k}, nextSeq)
    requires var p := outgoing[k]; p.Sealed() && !p.skip && p.header.seqno == k
    requires forall p' :: p' in made - {outgoing[k]} ==> p'.header.seqno != k
    ensures Coherent(made, outgoing, views[k := outgoing[k].View()], nextSeq)
  {
    hide Packet.Sealed, Packet.View;
    var p := outgoing[k];
    var views' := views[k := p.View()];
    forall p' | p' in made ensures Tracked(p', outgoing, nextSeq) {
      if p' != p {
        assert p' in made - {p} && Tracked(p', outgoing - {k}, nextSeq);
      }
    }
    assert forall j :: j in views' <==> j in (views - {k}) || j == k;
    assert forall j :: j in outgoing <==> j in (outgoing - {k}) || j == k;
    forall j | j in outgoing && j != k
      ensures outgoing[j] in made && outgoing[j].header.seqno == j && views'[j] == outgoing[j].View()
    {
      assert j in outgoing - {k} && (views - {k})[j] == views[j];
    }
  }

  /** The result of a read loop that already has `bytes` out. */
  ghost function AfterBytes(bytes: seq<Byte>, didRead: bool, r: (Receiver, seq<Byte>, bool)):
    (Receiver, seq<Byte>, bool)
  {
    (r.0, bytes + r.1, didRead || r.2)
  }

  lemma ReadStarts(rcv: Receiver, room: nat)
    ensures StreamModel.ReadNext(rcv, room) == AfterBytes([], false, StreamModel.ReadNext(rcv, room))
  {
    var r := StreamModel.ReadNext(rcv, room);
    assert [] + r.1 == r.1;
  }

  /** One turn of the read loop. */
  lemma ReadTurn(rcv: Receiver, left: nat, bytes: seq<Byte>, didRead: bool)
    ensures
      if rcv.readCursor !in rcv.incoming then
        AfterBytes(bytes, didRead, StreamModel.ReadNext(rcv, left)) == (rcv, bytes, didRead)
      else
        var c, p := rcv.readCursor, rcv.incoming[rcv.readCursor];
        var rest := p.buf[p.readOffset..];
        AfterBytes(bytes, didRead, StreamModel.ReadNext(rcv, left)) ==
          if |rest| > left then
            (rcv.(incoming := (rcv.incoming - {c})[p.header.seqno := p.(readOffset := p.readOffset + left)]),
             bytes + rest[..left], didRead)
          else
            AfterBytes(bytes + rest, true,
              StreamModel.ReadNext(rcv.(incoming := rcv.incoming - {c}, readCursor := c + 1), left - |rest|))
  {
    if rcv.readCursor !in rcv.incoming {
      assert bytes + [] == bytes;
    } else {
      var c, p := rcv.readCursor, rcv.incoming[rcv.readCursor];
      var rest := p.buf[p.readOffset..];
      if |rest| <= left {
        var r := StreamModel.ReadNext(rcv.(incoming := rcv.incoming - {c}, readCursor := c + 1), left - |rest|);
        assert bytes + (rest + r.1) == (bytes + rest) + r.1;
      }
    }
  }

  lemma NoQueueInv(s: State)
    requires Inv(s)
    ensures Inv(s.(queue := []))
  {
  }

  lemma ReadNextKeepsInv(s: State, room: nat)
    requires Inv(s)
    ensures Inv(s.(rcv := StreamModel.ReadNext(s.rcv, room).0))
  {
    ReadNextInv(s.rcv, room);
  }

  /** The result of a send loop that already has `n` bytes out. */
  ghost function Later(r: (State, nat), n: nat): (State, nat) {
    (r.0, n + r.1)
  }

  lemma SendChunksStep(s: State, buf: seq<Byte>)
    ensures var len := Min(|buf|, UDX_MAX_DATA_SIZE);
      if buf == [] || s.snd.inflight + len > s.snd.cwnd then SendChunks(s, buf) == (s, 0)
      else SendChunks(s, buf) == Later(SendChunks(SendData(s, buf[..len]), buf[len..]), len)
    ensures forall body :: SendData(s, body).error == s.error
  {
  }

  lemma HeaderSeq(s: State, typ: nat)
    ensures CreateHeader(s, typ).seqno == s.snd.nextSeq
  {
  }
}
