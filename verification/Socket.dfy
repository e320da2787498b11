/**
 The socket's side (src/socket.rs): the two parallel send queues of `poll_transmit` and the
 demultiplexing of received datagrams. What the kernel accepts is an input.
 */
module Socket {
  import opened Constants
  import opened Wire
  import opened Ledger
  import opened Path
  import opened Demux
  import opened PacketObject

  const MAX_LOOP: nat := 60

  /** What `poll_send` answers; it never accepts more transmits than it is offered. */
  datatype SendOutcome = Blocked | Overflow | Broken | Accepts(n: nat)

  // ----- the send queue as values -----

  /** A queued transmit and the packet set it was made from; a raw datagram has none. */
  datatype Job = Job(transmit: Path.Transmit, origin: Option<PacketSet>)

  function TransmitsOf(jobs: seq<Job>): (ts: seq<Path.Transmit>)
    ensures |ts| == |jobs|
  {
    seq(|jobs|, i requires 0 <= i < |jobs| => jobs[i].transmit)
  }

  /** The packet sets among the origins, in order. */
  function SetsOf(jobs: seq<Job>): (sets: seq<PacketSet>)
    ensures |sets| <= |jobs|
  {
    if jobs == [] then []
    else
      SetsOf(jobs[..|jobs| - 1]) + if jobs[|jobs| - 1].origin.Some? then [jobs[|jobs| - 1].origin.value] else []
  }

  lemma {:induction false} SetsOfConcat(a: seq<Job>, b: seq<Job>)
    ensures SetsOf(a + b) == SetsOf(a) + SetsOf(b)
  {
    if b == [] {
      assert a + b == a;
    } else {
      SetsOfConcat(a, b[..|b| - 1]);
      assert (a + b)[..|a + b| - 1] == a + b[..|b| - 1];
    }
  }

  ghost predicate OnlySets(jobs: seq<Job>) {
    forall i :: 0 <= i < |jobs| ==> jobs[i].origin.Some?
  }

  ghost predicate OnlyRaw(jobs: seq<Job>) {
    forall i :: 0 <= i < |jobs| ==> jobs[i].origin.None?
  }

  lemma {:induction false} CountSets(jobs: seq<Job>)
    ensures |SetsOf(jobs)| == |jobs| <==> OnlySets(jobs)
    ensures |SetsOf(jobs)| == 0 <==> OnlyRaw(jobs)
  {
    if jobs != [] {
      CountSets(jobs[..|jobs| - 1]);
    }
  }

  lemma CutAt<T>(a: seq<T>, b: seq<T>, c: seq<T>, d: seq<T>, n: nat)
    requires a + b == c + d && n <= |b|
    ensures a + b[..n] == c <==> |a| + n == |c|
  {
    if |a| + n == |c| {
      assert a + b[..n] == (a + b)[..|c|];
      assert c == (c + d)[..|c|];
    }
  }

  /**
   Sending the first `k` queued jobs stamps that many more packet sets, as far as there are any.
   The sets stamped are then those of the jobs sent exactly when there is no set left unsent, or
   when the stamps were not ahead before and no raw datagram was sent.
   */
  lemma StampsExactly(sent: seq<Job>, jobs: seq<Job>, stamped: seq<PacketSet>, sets: seq<PacketSet>, k: nat)
    requires stamped + sets == SetsOf(sent + jobs) && SetsOf(sent) <= stamped && k <= |jobs|
    ensures stamped + sets[..Min(k, |sets|)] == SetsOf(sent + jobs[..k]) <==>
      OnlyRaw(jobs[k..]) || (|stamped| == |SetsOf(sent)| && OnlySets(jobs[..k]))
  {
    hide SetsOf, OnlyRaw, OnlySets;
    var front, back := jobs[..k], jobs[k..];
    SetsInParts(sent, jobs, k);
    CountSets(front);
    CountSets(back);
    CutAt(stamped, sets, SetsOf(sent + front), SetsOf(back), Min(k, |sets|));
    Lengths(|SetsOf(sent)|, |stamped|, |SetsOf(front)|, |SetsOf(back)|, |sets|, k);
  }

  lemma SetsInParts(sent: seq<Job>, jobs: seq<Job>, k: nat)
    requires k <= |jobs|
    ensures SetsOf(sent + jobs) == SetsOf(sent + jobs[..k]) + SetsOf(jobs[k..])
    ensures SetsOf(sent + jobs[..k]) == SetsOf(sent) + SetsOf(jobs[..k])
  {
    hide SetsOf;
    assert sent + jobs == (sent + jobs[..k]) + jobs[k..];
    SetsOfConcat(sent + jobs[..k], jobs[k..]);
    SetsOfConcat(sent, jobs[..k]);
  }

  lemma Lengths(sent: nat, stamped: nat, front: nat, back: nat, sets: nat, k: nat)
    requires stamped + sets == sent + front + back && sent <= stamped && front <= k
    ensures stamped + Min(k, sets) == sent + front <==> back == 0 || (stamped == sent && front == k)
  {
  }

  /** Raw datagrams break the pairing: here the set is stamped though only the datagram went out. */
  lemma RawDatagramMisleadsStamping(ps: PacketSet, t: Path.Transmit, raw: Path.Transmit)
    ensures var jobs := [Job(raw, None), Job(t, Some(ps))];
      SetsOf(jobs) == [ps] && SetsOf(jobs)[..Min(1, |SetsOf(jobs)|)] == [ps] && SetsOf([] + jobs[..1]) == []
  {
    var jobs := [Job(raw, None), Job(t, Some(ps))];
    assert jobs[..1] == [jobs[0]] && jobs[..1][..0] == [] && [] + jobs[..1] == jobs[..1];
  }

  /** What an event adds to the send queue, with the packets as they are when it is taken. */
  ghost function JobsOf(ev: Event): seq<Job>
    reads if ev.Transmit? then ObjectsOf(ev.packets.packets) else {}
  {
    match ev
    case Transmit(ps) => [Job(Path.ToTransmit(EntriesOf(ps.packets), ps.segmentSize), Some(ps))]
    case TransmitDgram(buf) => [Job(Path.Transmit(buf, None), None)]
    case StreamDropped(_) => []
  }

  /** Only `skip` matters of what can change in a packet. */
  twostate lemma SameJobs(ev: Event)
    requires ev.Transmit? ==> forall i :: 0 <= i < |ev.packets.packets| ==>
      ev.packets.packets[i].packet.skip == old(ev.packets.packets[i].packet.skip)
    ensures JobsOf(ev) == old(JobsOf(ev))
  {
    if ev.Transmit? {
      var rs := ev.packets.packets;
      assert forall i :: 0 <= i < |rs| ==> rs[i].packet.ToEntry() == old(rs[i].packet.ToEntry());
      assert EntriesOf(rs) == old(EntriesOf(rs));
    }
  }

  ghost function EventObjects(evs: seq<Event>): set<Packet> {
    set i, p | 0 <= i < |evs| && evs[i].Transmit? && p in ObjectsOf(evs[i].packets.packets) :: p
  }

  ghost function AllJobs(evs: seq<Event>): (js: seq<seq<Job>>)
    reads EventObjects(evs)
    ensures |js| == |evs|
    ensures forall i :: 0 <= i < |js| ==> js[i] == JobsOf(evs[i])
  {
    if evs == [] then []
    else
      var init, last := evs[..|evs| - 1], evs[|evs| - 1];
      assert EventObjects(init) <= EventObjects(evs);
      assert last.Transmit? ==> ObjectsOf(last.packets.packets) <= EventObjects(evs);
      AllJobs(init) + [JobsOf(last)]
  }

  ghost function Dropped(evs: seq<Event>): set<nat> {
    set i | 0 <= i < |evs| && evs[i].StreamDropped? :: evs[i].id
  }

  lemma DroppedOne(ev: Event)
    ensures Dropped([ev]) == if ev.StreamDropped? then {ev.id} else {}
  {
    assert [ev][0] == ev;
  }

  /** Taking `k` jobs off the front of the queue keeps the books of the two queues. */
  lemma DrainKeeps(sent: seq<Job>, jobs: seq<Job>, stamped: seq<PacketSet>, sets: seq<PacketSet>, k: nat)
    requires stamped + sets == SetsOf(sent + jobs)
    requires SetsOf(sent) <= stamped && |stamped| <= |sent| && k <= |jobs|
    ensures var n := Min(k, |sets|);
      && stamped + sets[..n] + sets[n..] == SetsOf(sent + jobs[..k] + jobs[k..])
      && SetsOf(sent + jobs[..k]) <= stamped + sets[..n]
      && |stamped + sets[..n]| <= |sent + jobs[..k]|
  {
    hide SetsOf;
    var front, back, n := jobs[..k], jobs[k..], Min(k, |sets|);
    assert sent + front + back == sent + jobs;
    assert stamped + sets[..n] + sets[n..] == stamped + sets;
    SetsOfConcat(sent + front, back);
    SetsOfConcat(sent, front);
    PrefixesOfOne(SetsOf(sent + front), SetsOf(back), stamped + sets[..n], sets[n..]);
  }

  lemma PrefixesOfOne<T>(a: seq<T>, b: seq<T>, c: seq<T>, d: seq<T>)
    requires a + b == c + d && |a| <= |c|
    ensures a <= c
  {
    assert forall i :: 0 <= i < |a| ==> a[i] == (a + b)[i] == (c + d)[i] == c[i];
  }

  /** As long as no raw datagram is sent, exactly the sets of the transmits sent are stamped. */
  lemma StampedAreSent(sent: seq<Job>, stamped: seq<PacketSet>)
    requires SetsOf(sent) <= stamped && |stamped| <= |sent| && OnlySets(sent)
    ensures stamped == SetsOf(sent)
  {
    CountSets(sent);
  }

  /**
   The channel went from `evs0` to `evs`, and what the events taken stand for, `made`, went to the
   end of the queue in order.
   */
  ghost predicate Taken(evs0: seq<Event>, evs: seq<Event>, made: seq<seq<Job>>, jobs0: seq<Job>, jobs: seq<Job>,
                        streams0: map<nat, Inbox>, streams: map<nat, Inbox>)
  {
    && |evs| <= |evs0| == |made|
    && var n := |evs0| - |evs|;
      && evs == evs0[n..]
      && jobs == jobs0 + Flatten(made[..n])
      && streams == streams0 - Dropped(evs0[..n])
  }

  lemma TakenOneMore(evs0: seq<Event>, evs: seq<Event>, made: seq<seq<Job>>, jobs0: seq<Job>, jobs: seq<Job>,
                     streams0: map<nat, Inbox>, streams: map<nat, Inbox>)
    requires Taken(evs0, evs, made, jobs0, jobs, streams0, streams) && evs != []
    ensures |evs| <= |evs0|
    ensures var n := |evs0| - |evs|;
      && evs[0] == evs0[n]
      && Taken(evs0, evs[1..], made, jobs0, jobs + made[n], streams0, streams - Dropped([evs[0]]))
  {
    var n := |evs0| - |evs|;
    assert made[..n + 1][..n] == made[..n];
    assert jobs0 + Flatten(made[..n]) + made[n] == jobs0 + (Flatten(made[..n]) + made[n]);
    DroppedOne(evs[0]);
    assert Dropped(evs0[..n + 1]) == Dropped(evs0[..n]) + Dropped([evs0[n]]) by {
      assert evs0[..n + 1][n] == evs0[n];
    }
  }

  lemma TakenNone(evs: seq<Event>, made: seq<seq<Job>>, jobs: seq<Job>, streams: map<nat, Inbox>)
    requires |made| == |evs|
    ensures Taken(evs, evs, made, jobs, jobs, streams, streams)
  {
    assert made[..0] == [] && evs[..0] == [];
  }

  /** How many of the offered transmits leave. */
  function Accepted(outcome: SendOutcome, offered: nat): nat {
    if outcome.Accepts? then Min(outcome.n, offered) else 0
  }

  /** What `poll_transmit` answers: `None` for an error, `Some(true)` to be polled again at once. */
  function Answer(outcome: SendOutcome, offered: nat, batchSize: nat): Option<bool> {
    if offered > 0 && outcome.Broken? then None
    else Some(offered > 0 && outcome.Accepts? && offered >= batchSize)
  }

  // ----- the socket -----

  ghost function SharedIn(rs: seq<PacketRef>): set<Packet> {
    set i | 0 <= i < |rs| && rs[i].Shared? :: rs[i].packet
  }

  ghost function SharedInAll(sets: seq<PacketSet>): set<Packet> {
    set i, p | 0 <= i < |sets| && p in SharedIn(sets[i].packets) :: p
  }

  ghost predicate EventOk(ev: Event, packets: set<Packet>) {
    ev.Transmit? ==> AllSealed(ev.packets.packets) && SharedIn(ev.packets.packets) <= packets
  }

  ghost predicate EventsOk(evs: seq<Event>, packets: set<Packet>) {
    forall i :: 0 <= i < |evs| ==> EventOk(evs[i], packets)
  }

  lemma SharedInMore(sets: seq<PacketSet>, ps: PacketSet)
    ensures SharedInAll(sets + [ps]) == SharedInAll(sets) + SharedIn(ps.packets)
  {
    assert (sets + [ps])[|sets|] == ps;
    assert forall i :: 0 <= i < |sets| ==> (sets + [ps])[i] == sets[i];
  }

  lemma SharedInNone()
    ensures SharedInAll([]) == {}
  {
  }

  lemma SharedInParts(sets: seq<PacketSet>, n: nat)
    requires n <= |sets|
    ensures SharedInAll(sets[..n]) <= SharedInAll(sets)
    ensures SharedInAll(sets[n..]) <= SharedInAll(sets)
  {
  }

  /** Stamps the shared packets of one set. */
  method StampSet(ps: PacketSet, now: nat)
    modifies SharedIn(ps.packets)`timeSent
    ensures forall p :: p in SharedIn(ps.packets) ==> p.timeSent == Some(now)
  {
    for i := 0 to |ps.packets|
      invariant forall p :: p in SharedIn(ps.packets[..i]) ==> p.timeSent == Some(now)
    {
      if ps.packets[i].Shared? {
        ps.packets[i].packet.timeSent := Some(now);
      }
    }
    assert ps.packets[..|ps.packets|] == ps.packets;
  }

  method StampSets(sets: seq<PacketSet>, now: nat)
    modifies SharedInAll(sets)`timeSent
    ensures forall p :: p in SharedInAll(sets) ==> p.timeSent == Some(now)
  {
    for i := 0 to |sets|
      invariant forall p :: p in SharedInAll(sets[..i]) ==> p.timeSent == Some(now)
    {
      assert forall p :: p in SharedIn(sets[i].packets) ==> p in SharedInAll(sets);
      StampSet(sets[i], now);
      assert forall p :: p in SharedInAll(sets[..i + 1]) ==>
        p in SharedInAll(sets[..i]) || p in SharedIn(sets[i].packets);
    }
    assert sets[..|sets|] == sets;
  }

  class UdxSocket {
    const batchSize: nat
    var streams: map<nat, Inbox>
    var sendRx: seq<Event>
    var outgoingTransmits: seq<Path.Transmit>
    var outgoingPacketSets: seq<PacketSet>
    var overflowTimer: bool
    var recvDgrams: seq<seq<Byte>>
    var recvWaker: bool
    var rxDgrams: nat
    var rxBytes: nat

    /** History: the jobs sent, the jobs still queued and the packet sets stamped, all in order. */
    ghost var sent: seq<Job>
    ghost var jobs: seq<Job>
    ghost var stamped: seq<PacketSet>

    /** The packets that streams share with the socket. */
    ghost var packets: set<Packet>

    /**
     Both queues come from the same jobs, in order. Every packet set is stamped once or still
     queued, and no set of a sent transmit is still to be stamped.
     */
    ghost predicate Valid()
      reads this
    {
      && 0 < batchSize && |jobs| <= batchSize
      && outgoingTransmits == TransmitsOf(jobs)
      && stamped + outgoingPacketSets == SetsOf(sent + jobs)
      && SetsOf(sent) <= stamped && |stamped| <= |sent|
      && EventsOk(sendRx, packets) && SharedInAll(outgoingPacketSets) <= packets
      && |recvDgrams| <= RECV_QUEUE_MAX_LEN
    }

    constructor (batchSize: nat)
      requires 0 < batchSize
      ensures Valid() && sent == jobs == [] && sendRx == [] && streams == map[] && recvDgrams == []
      ensures stamped == [] && packets == {} && this.batchSize == batchSize
    {
      this.batchSize := batchSize;
      streams, sendRx, outgoingTransmits, outgoingPacketSets, recvDgrams := map[], [], [], [], [];
      overflowTimer, recvWaker, rxDgrams, rxBytes := false, false, 0, 0;
      jobs, sent, stamped, packets := [], [], [], {};
    }

    method PushJob(t: Path.Transmit, origin: Option<PacketSet>)
      requires Valid() && |jobs| < batchSize
      requires origin.Some? ==> SharedIn(origin.value.packets) <= packets
      modifies `outgoingTransmits, `outgoingPacketSets, `jobs
      ensures Valid() && jobs == old(jobs) + [Job(t, origin)]
    {
      ghost var job := Job(t, origin);
      ghost var all := sent + jobs;
      outgoingTransmits := outgoingTransmits + [t];
      if origin.Some? {
        SharedInMore(outgoingPacketSets, origin.value);
        outgoingPacketSets := outgoingPacketSets + [origin.value];
      }
      jobs := jobs + [job];
      assert sent + jobs == all + [job];
      assert (all + [job])[..|all|] == all;
      assert TransmitsOf(jobs) == TransmitsOf(old(jobs)) + [t];
    }

    /** Takes one event off the channel. */
    method TakeEvent()
      requires Valid() && sendRx != [] && |jobs| < batchSize
      modifies `outgoingTransmits, `outgoingPacketSets, `jobs, `sendRx, `streams
      ensures Valid() && sendRx == old(sendRx)[1..]
      ensures jobs == old(jobs) + old(JobsOf(sendRx[0]))
      ensures streams == old(streams) - Dropped([old(sendRx)[0]])
    {
      hide TransmitsOf, SetsOf, AllSealed, EntriesOf, Path.ToTransmit, SharedIn, SharedInAll;
      var event := sendRx[0];
      DroppedOne(event);
      assert EventOk(event, packets);
      sendRx := sendRx[1..];
      match event {
        case StreamDropped(id) =>
          streams := streams - {id};
        case TransmitDgram(buf) =>
          PushJob(Path.Transmit(buf, None), None);
        case Transmit(packets) =>
          var t := PacketObject.ToTransmit(packets);
          SameJobs(event);
          PushJob(t, Some(packets));
      }
    }

    lemma QueueLength()
      requires Valid()
      ensures |outgoingTransmits| == |jobs| <= batchSize && 0 < batchSize
    {
    }

    /** Fills the queue up to `BATCH_SIZE`; `pending` says that the channel ran dry before. */
    method Fill() returns (pending: bool)
      requires Valid()
      modifies `outgoingTransmits, `outgoingPacketSets, `jobs, `sendRx, `streams
      ensures Valid() && (pending ==> sendRx == []) && (pending <==> |jobs| < batchSize)
      ensures Taken(old(sendRx), sendRx, old(AllJobs(sendRx)), old(jobs), jobs, old(streams), streams)
    {
      hide Valid, Taken, JobsOf;
      ghost var made := AllJobs(sendRx);
      pending := false;
      TakenNone(sendRx, made, jobs, streams);
      QueueLength();
      while |outgoingTransmits| < batchSize && !pending
        invariant Valid() && |outgoingTransmits| == |jobs| <= batchSize
        invariant pending ==> sendRx == [] && |jobs| < batchSize
        invariant Taken(old(sendRx), sendRx, made, old(jobs), jobs, old(streams), streams)
        decreases |sendRx|, !pending
      {
        if sendRx == [] {
          pending := true;
        } else {
          TakenOneMore(old(sendRx), sendRx, made, old(jobs), jobs, old(streams), streams);
          SameJobs(sendRx[0]);
          TakeEvent();
          QueueLength();
        }
      }
    }

    /** An event arrives on the channel. */
    method Enqueue(event: Event)
      requires Valid() && (event.Transmit? ==> AllSealed(event.packets.packets))
      modifies `sendRx, `packets
      ensures Valid() && sendRx == old(sendRx) + [event]
      ensures packets == old(packets) + if event.Transmit? then SharedIn(event.packets.packets) else {}
    {
      hide TransmitsOf, SetsOf, AllSealed, SharedIn, SharedInAll;
      sendRx := sendRx + [event];
      packets := packets + if event.Transmit? then SharedIn(event.packets.packets) else {};
    }

    /** The kernel took the first `k` transmits: they leave, and the packets of the first sets are stamped. */
    method Drain(k: nat, now: nat)
      requires Valid() && k <= |jobs|
      modifies `outgoingTransmits, `outgoingPacketSets, `jobs, `sent, `stamped, packets`timeSent
      ensures Valid() && sent == old(sent) + old(jobs)[..k] && jobs == old(jobs)[k..]
      ensures old(stamped) <= stamped && |stamped| == Min(|old(stamped)| + k, |SetsOf(sent + jobs)|)
      ensures StampedNow(old(stamped), now)
    {
      hide SetsOf, SharedInAll, AllSealed;
      var n := Min(k, |outgoingPacketSets|);
      DrainKeeps(sent, jobs, stamped, outgoingPacketSets, k);
      SharedInParts(outgoingPacketSets, n);
      assert TransmitsOf(jobs)[k..] == TransmitsOf(jobs[k..]);
      StampSets(outgoingPacketSets[..n], now);
      outgoingTransmits := outgoingTransmits[k..];
      stamped := stamped + outgoingPacketSets[..n];
      outgoingPacketSets := outgoingPacketSets[n..];
      sent, jobs := sent + jobs[..k], jobs[k..];
    }

    /** The sets stamped since are stamped at `now`; every other packet keeps its time. */
    twostate predicate StampedNow(stamped0: seq<PacketSet>, now: nat)
      reads this, packets
    {
      && stamped0 <= stamped && packets == old(packets)
      && var touched := SharedInAll(stamped[|stamped0|..]);
        forall p :: p in packets ==> p.timeSent == if p in touched then Some(now) else old(p.timeSent)
    }

    /**
     One `poll_transmit`. Whatever the kernel answers, the transmits sent and queued are what they
     were, followed by those of the events taken: none is lost, sent twice or overtaken. Unless the
     kernel refuses, events are left on the channel only if the socket asks to be polled again at once.
     */
    method PollTransmit(outcome: SendOutcome, now: nat) returns (res: Option<bool>)
      requires Valid()
      modifies `outgoingTransmits, `outgoingPacketSets, `jobs, `sendRx, `streams, `sent, `stamped, `overflowTimer,
               packets`timeSent
      ensures Valid() && old(sent) <= sent
      ensures var queue := (sent + jobs)[|old(sent)|..];
        && Taken(old(sendRx), sendRx, old(AllJobs(sendRx)), old(jobs), queue, old(streams), streams)
        && (sendRx == [] || |queue| == batchSize)
        && |sent| == |old(sent)| + Accepted(outcome, |queue|)
        && res == Answer(outcome, |queue|, batchSize)
        && overflowTimer == (old(overflowTimer) || (outcome.Overflow? && queue != []))
      ensures |stamped| == Min(|old(stamped)| + (|sent| - |old(sent)|), |SetsOf(sent + jobs)|)
      ensures StampedNow(old(stamped), now)
      ensures res == Some(false) && sendRx != [] ==> !outcome.Accepts?
    {
      hide Valid, Taken, AllJobs, SetsOf, SharedInAll;
      var pending := Fill();
      QueueLength();
      StampedBound();
      assert (sent + jobs)[|sent|..] == jobs;
      assert stamped[|stamped|..] == [] && SharedInAll([]) == {} by {
        SharedInNone();
      }
      if |outgoingTransmits| == 0 {
        return Some(false);
      }
      match outcome {
        case Blocked =>
          return Some(false);
        case Overflow =>
          ArmOverflowTimer();
          return Some(false);
        case Broken =>
          return None;
        case Accepts(n) =>
          ghost var queue := jobs;
          Drain(Min(n, |outgoingTransmits|), now);
          assert (sent + jobs)[|old(sent)|..] == queue;
          return Some(!pending);
      }
    }

    method ArmOverflowTimer()
      requires Valid()
      modifies `overflowTimer
      ensures Valid() && overflowTimer
    {
      hide TransmitsOf, SetsOf, EventsOk, SharedInAll;
      overflowTimer := true;
    }

    lemma StampedBound()
      requires Valid()
      ensures |stamped| <= |SetsOf(sent + jobs)|
    {
    }

    /** The receiving side as a value. */
    ghost function Receiving(): Table
      reads this
    {
      Table(streams, recvDgrams)
    }

    /** `process_packet`; `false` hands the datagram back. */
    method ProcessPacket(data: seq<Byte>) returns (taken: bool)
      requires Valid()
      modifies `streams, `rxDgrams, `rxBytes
      ensures Valid() && rxDgrams == old(rxDgrams) + 1 && rxBytes == old(rxBytes) + |data|
      ensures (streams, !taken) == Process(old(streams), data)
    {
      hide TransmitsOf, SetsOf, EventsOk, SharedInAll;
      rxBytes := rxBytes + |data|;
      rxDgrams := rxDgrams + 1;
      var header := Decode(data);
      if header.None? {
        return false;
      }
      var id := header.value.streamId;
      if id !in streams {
        return false;
      }
      var frame := Frame(header.value, data[UDX_HEADER_SIZE..]);
      if streams[id].open {
        streams := streams[id := streams[id].(frames := streams[id].frames + [frame])];
      } else {
        streams := streams - {id};
      }
      return true;
    }

    method OnRecvDgram(data: seq<Byte>)
      requires Valid()
      modifies `recvDgrams, `recvWaker
      ensures Valid() && recvWaker == (old(recvWaker) && |old(recvDgrams)| >= RECV_QUEUE_MAX_LEN)
      ensures recvDgrams == if |old(recvDgrams)| < RECV_QUEUE_MAX_LEN then old(recvDgrams) + [data] else old(recvDgrams)
    {
      hide TransmitsOf, SetsOf, EventsOk, SharedInAll;
      if |recvDgrams| < RECV_QUEUE_MAX_LEN {
        recvDgrams := recvDgrams + [data];
        recvWaker := false;
      }
    }

    /** The datagrams of one receive call. */
    method ProcessBatch(batch: seq<seq<Byte>>)
      requires Valid()
      modifies `streams, `recvDgrams, `recvWaker, `rxDgrams, `rxBytes
      ensures Valid() && Receiving() == RouteAll(old(Receiving()), batch) && rxDgrams == old(rxDgrams) + |batch|
    {
      hide Valid, Process;
      for i := 0 to |batch|
        invariant Valid() && Receiving() == RouteAll(old(Receiving()), batch[..i]) && rxDgrams == old(rxDgrams) + i
      {
        var taken := ProcessPacket(batch[i]);
        if !taken {
          OnRecvDgram(batch[i]);
        }
        assert batch[..i + 1][..i] == batch[..i];
      }
      assert batch[..|batch|] == batch;
    }

    /**
     `poll_recv`, where the kernel hands out `batches` and then fails or blocks. At most
     `MAX_LOOP - 1` of them are taken; all datagrams in these are routed in order.
     */
    method PollRecv(batches: seq<seq<seq<Byte>>>, fails: bool) returns (res: Option<bool>)
      requires Valid()
      modifies `streams, `recvDgrams, `recvWaker, `rxDgrams, `rxBytes
      ensures var n := Min(|batches|, MAX_LOOP - 1);
        Valid() && Receiving() == RouteAll(old(Receiving()), Flatten(batches[..n]))
      ensures res == if |batches| >= MAX_LOOP - 1 then Some(true) else if fails then None else Some(false)
    {
      hide Valid, RouteAll;
      var iters, i := 0, 0;
      RouteNothing(Receiving());
      assert batches[..0] == [];
      while true
        invariant 0 <= i == iters < MAX_LOOP && i <= |batches| && Valid()
        invariant Receiving() == RouteAll(old(Receiving()), Flatten(batches[..i]))
        decreases MAX_LOOP - iters
      {
        iters := iters + 1;
        if iters == MAX_LOOP {
          return Some(true);
        }
        if i == |batches| {
          return if fails then None else Some(false);
        }
        RouteAllConcat(old(Receiving()), Flatten(batches[..i]), batches[i]);
        assert batches[..i + 1][..i] == batches[..i];
        ProcessBatch(batches[i]);
        i := i + 1;
      }
    }
  }

  /** Of a raw datagram and a packet set, both are taken if there is room for two. */
  lemma BothTaken(evs: seq<Event>, rest: seq<Event>, made: seq<seq<Job>>, queue: seq<Job>, streams: map<nat, Inbox>,
                  streams': map<nat, Inbox>, raw: Job, job: Job)
    requires |evs| == 2 && made == [[raw], [job]] && Taken(evs, rest, made, [], queue, streams, streams')
    requires rest == [] || |queue| == 2
    ensures queue == [raw, job]
  {
    hide Dropped;
    var n := 2 - |rest|;
    assert made[..0] == [] && made[..1] == [[raw]] && made[..1][..0] == [];
    assert made[..2][..1] == [[raw]] && made[..2] == made;
    assert Flatten(made[..1]) == [raw] && Flatten(made) == [raw] + [job];
  }

  lemma SetsOfTwo(raw: Job, job: Job)
    requires raw.origin.None? && job.origin.Some?
    ensures SetsOf([raw, job]) == [job.origin.value]
  {
    assert [raw, job][..1] == [raw] && [raw][..0] == [];
    assert SetsOf([raw]) == [];
  }

  lemma SharedInOne(packet: Packet, size: nat)
    ensures SharedIn([Shared(packet)]) == {packet}
    ensures SharedInAll([PacketSet([Shared(packet)], size)]) == {packet}
  {
    var rs := [Shared(packet)];
    assert rs[0] == Shared(packet);
    var sets := [PacketSet(rs, size)];
    assert sets[0].packets == rs;
  }

  lemma JobsOfTwo(a: Event, b: Event)
    ensures AllJobs([a, b]) == [JobsOf(a), JobsOf(b)]
  {
    assert [a, b][..1] == [a] && [a][..0] == [];
    assert AllJobs([a]) == [JobsOf(a)];
  }

  /** A socket that has taken a raw datagram and a packet set, in this order, from its channel. */
  method QueueBoth(raw: seq<Byte>, ps: PacketSet) returns (socket: UdxSocket)
    requires AllSealed(ps.packets)
    ensures fresh(socket) && socket.Valid() && socket.batchSize == 2
    ensures socket.sent == socket.jobs == [] && socket.stamped == [] && socket.packets == SharedIn(ps.packets)
    ensures socket.sendRx == [TransmitDgram(raw), Event.Transmit(ps)]
  {
    socket := new UdxSocket(2);
    socket.Enqueue(TransmitDgram(raw));
    socket.Enqueue(Event.Transmit(ps));
  }

  /**
   Raw datagrams break the pairing: a raw datagram and a packet set are queued, the kernel takes one
   transmit, and the packet is stamped though only the datagram went out.
   */
  method RawDatagramIsMistaken(raw: seq<Byte>, packet: Packet, now: nat) returns (socket: UdxSocket)
    requires packet.Sealed()
    modifies packet`timeSent
    ensures fresh(socket) && socket.Valid()
    ensures socket.sent == [Job(Path.Transmit(raw, None), None)]
    ensures |socket.jobs| == 1 && socket.jobs[0].origin == Some(PacketSet([Shared(packet)], packet.Len()))
    ensures packet.timeSent == Some(now)
  {
    hide SetsOf, TransmitsOf, AllJobs, EventsOk, SharedIn, SharedInAll, EntriesOf, Taken, Path.ToTransmit;
    var ps := PacketSet([Shared(packet)], packet.Len());
    socket := QueueBoth(raw, ps);
    SharedInOne(packet, packet.Len());
    ghost var evs, streams := socket.sendRx, socket.streams;
    ghost var raws, sets := JobsOf(evs[0]), JobsOf(evs[1]);
    assert raws == [Job(Path.Transmit(raw, None), None)] && sets[0].origin == Some(ps);
    JobsOfTwo(evs[0], evs[1]);
    ghost var made := AllJobs(evs);
    var _ := socket.PollTransmit(Accepts(1), now);
    ghost var queue := socket.sent + socket.jobs;
    assert queue[0..] == queue;
    BothTaken(evs, socket.sendRx, made, queue, streams, socket.streams, raws[0], sets[0]);
    SetsOfTwo(raws[0], sets[0]);
    assert socket.sent == queue[..1] && socket.jobs == queue[1..];
    assert socket.stamped[0..] == socket.stamped == [ps];
  }
}
