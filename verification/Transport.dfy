/**
 From one stream's driver to the other stream's channel: what a poll hands to its socket
 (src/stream.rs:454-482) is put into transmits, sent as datagrams, and sorted by the receiving socket
 (src/socket.rs:293-318, 403-450) into the inbox of exactly the stream it is meant for.
 */
module Transport {
  import opened Constants
  import opened Wire
  import opened Ledger
  import opened StreamModel
  import opened StreamInvariant
  import opened Path
  import opened Demux
  import opened PacketObject
  import opened Addressing
  import Stream
  import Socket

  /** The datagrams that go out for the transmits of the jobs. */
  function DatagramsOf(jobs: seq<Socket.Job>): seq<seq<Byte>> {
    if jobs == [] then []
    else
      var t := jobs[|jobs| - 1].transmit;
      DatagramsOf(jobs[..|jobs| - 1]) + if t.segmentSize == Some(0) then [] else Datagrams(t)
  }

  /** What goes out for the events of a stream, with the packets as they are when they are taken. */
  ghost function OnTheWire(evs: seq<Event>): seq<seq<Byte>>
    reads Socket.EventObjects(evs)
  {
    DatagramsOf(Flatten(Socket.AllJobs(evs)))
  }

  /** The packet fits the wire and is meant for stream `id`. */
  ghost predicate MeantFor(r: PacketRef, id: nat) {
    FitsWire(r.packet.header) && r.packet.header.streamId == id
  }

  ghost predicate AllMeantFor(rs: seq<PacketRef>, id: nat) {
    forall i :: 0 <= i < |rs| ==> MeantFor(rs[i], id)
  }

  lemma EntriesConcat(a: seq<PacketRef>, b: seq<PacketRef>)
    ensures EntriesOf(a + b) == EntriesOf(a) + EntriesOf(b)
  {
    var es := EntriesOf(a + b);
    assert forall i :: 0 <= i < |a| ==> (a + b)[i] == a[i];
    assert forall i :: |a| <= i < |a + b| ==> (a + b)[i] == b[i - |a|];
  }

  lemma FramesConcat(a: seq<Entry>, b: seq<Entry>)
    ensures Frames(a + b) == Frames(a) + Frames(b)
  {
  }

  /** One packet set, through the wire, into the inbox it is meant for. */
  lemma SetReaches(ps: PacketSet, t: Table, id: nat)
    requires Stream.SetOk(ps) && AllMeantFor(ps.packets, id) && id in t.streams && t.streams[id].open
    ensures ps.segmentSize > 0
    ensures var es := EntriesOf(ps.packets);
      var t' := RouteAll(t, Datagrams(Path.ToTransmit(es, ps.segmentSize)));
      OthersKept(t, t', id) && t'.streams[id] == Inbox(true, t.streams[id].frames + Frames(Unskipped(es)))
  {
    hide Unskipped, RouteAll, Datagrams, Encode, OthersKept, Frames;
    var es := EntriesOf(ps.packets);
    forall i | 0 <= i < |es|
      ensures |es[i].Bytes()| == ps.segmentSize && FitsWire(es[i].header) && es[i].header.streamId == id
    {
      var r := ps.packets[i];
      assert MeantFor(r, id) && SizeOf(r) == ps.segmentSize && r.packet.Sealed();
      assert es[i] == r.packet.ToEntry();
    }
    assert SizeOf(ps.packets[0]) == ps.segmentSize && ps.packets[0].packet.Sealed();
    SetReachesStream(es, ps.segmentSize, t, id);
  }

  /** The inbox of the stream has got these packets, and no other inbox has changed. */
  ghost predicate Got(t: Table, t': Table, id: nat, fs: seq<Frame>) {
    && id in t.streams && t.streams[id].open && OthersKept(t, t', id)
    && t'.streams[id] == Inbox(true, t.streams[id].frames + fs)
  }

  lemma GotMore(t: Table, t1: Table, t2: Table, id: nat, fs: seq<Frame>, gs: seq<Frame>)
    requires Got(t, t1, id, fs) && Got(t1, t2, id, gs)
    ensures Got(t, t2, id, fs + gs)
  {
    assert t.streams[id].frames + fs + gs == t.streams[id].frames + (fs + gs);
  }

  lemma OneMoreOnTheWire(evs: seq<Event>, ps: PacketSet)
    requires ps.segmentSize > 0
    ensures OnTheWire(evs + [Event.Transmit(ps)])
         == OnTheWire(evs) + Datagrams(Path.ToTransmit(EntriesOf(ps.packets), ps.segmentSize))
  {
    hide Datagrams, EntriesOf;
    var ev := Event.Transmit(ps);
    var all := evs + [ev];
    var jobs, made := Socket.AllJobs(evs), Socket.AllJobs(all);
    assert forall i :: 0 <= i < |evs| ==> all[i] == evs[i] && made[i] == jobs[i];
    assert made == jobs + [Socket.JobsOf(ev)];
    assert made[..|made| - 1] == jobs;
    var js := Flatten(made);
    assert js == Flatten(jobs) + Socket.JobsOf(ev);
    assert js[..|js| - 1] == Flatten(jobs);
  }

  lemma OneMoreInside(evs: seq<Event>, ps: PacketSet)
    ensures Stream.PacketsIn(evs + [Event.Transmit(ps)]) == Stream.PacketsIn(evs) + ps.packets
  {
    assert (evs + [Event.Transmit(ps)])[..|evs|] == evs;
  }

  /**
   Whatever packet sets a stream hands over, if all packets are meant for stream `id` they reach its
   inbox, the skipped ones left out, in order and unchanged, and nothing reaches any other.
   */
  lemma {:induction false} EventsReach(evs: seq<Event>, t: Table, id: nat)
    requires Stream.OnlyTransmits(evs) && AllMeantFor(Stream.PacketsIn(evs), id)
    requires id in t.streams && t.streams[id].open
    ensures Got(t, RouteAll(t, OnTheWire(evs)), id, Frames(Unskipped(EntriesOf(Stream.PacketsIn(evs)))))
  {
    hide Got, Stream.SetOk, MeantFor, EntriesOf, Unskipped, Frames, OnTheWire, Datagrams, RouteAll;
    if evs == [] {
      NothingReaches(t, id);
    } else {
      var init, ps := evs[..|evs| - 1], evs[|evs| - 1].packets;
      assert evs == init + [Event.Transmit(ps)];
      OneMoreInside(init, ps);
      var before := Stream.PacketsIn(init);
      InPart(before, ps.packets, id);
      EventsReach(init, t, id);
      var t1 := RouteAll(t, OnTheWire(init));
      GotIsOpen(t, t1, id, Frames(Unskipped(EntriesOf(before))));
      SetReaches(ps, t1, id);
      var es, ds := EntriesOf(ps.packets), Datagrams(Path.ToTransmit(EntriesOf(ps.packets), ps.segmentSize));
      IsGot(t1, RouteAll(t1, ds), id, Frames(Unskipped(es)));
      OneMoreOnTheWire(init, ps);
      RouteAllConcat(t, OnTheWire(init), ds);
      GotMore(t, t1, RouteAll(t1, ds), id, Frames(Unskipped(EntriesOf(before))), Frames(Unskipped(es)));
      EntriesConcat(before, ps.packets);
      UnskippedConcat(EntriesOf(before), es);
      FramesConcat(Unskipped(EntriesOf(before)), Unskipped(es));
    }
  }

  lemma InPart(a: seq<PacketRef>, b: seq<PacketRef>, id: nat)
    requires AllMeantFor(a + b, id)
    ensures AllMeantFor(a, id) && AllMeantFor(b, id)
  {
    assert forall i :: 0 <= i < |a| ==> (a + b)[i] == a[i];
    assert forall i :: 0 <= i < |b| ==> (a + b)[|a| + i] == b[i];
  }

  lemma GotIsOpen(t: Table, t': Table, id: nat, fs: seq<Frame>)
    requires Got(t, t', id, fs)
    ensures id in t'.streams && t'.streams[id].open
  {
  }

  lemma IsGot(t: Table, t': Table, id: nat, fs: seq<Frame>)
    requires id in t.streams && t.streams[id].open && OthersKept(t, t', id)
    requires t'.streams[id] == Inbox(true, t.streams[id].frames + fs)
    ensures Got(t, t', id, fs)
  {
  }

  lemma NothingReaches(t: Table, id: nat)
    requires id in t.streams && t.streams[id].open
    ensures Got(t, RouteAll(t, OnTheWire([])), id, Frames(Unskipped(EntriesOf(Stream.PacketsIn([])))))
  {
    RouteNothing(t);
    assert Socket.AllJobs([]) == [] && OnTheWire([]) == [];
    assert EntriesOf(Stream.PacketsIn([])) == [] && Frames(Unskipped([])) == [];
    assert t.streams[id].frames + [] == t.streams[id].frames;
  }

  /** The packets of the frames a stream sends are meant for its peer. */
  lemma ProperIsMeant(rs: seq<PacketRef>, s: State)
    requires AllProper(FramesOf(rs), s)
    requires s.remoteId < TWO_TO_THE_32 && s.snd.nextSeq < TWO_TO_THE_32 && s.rcv.ack < TWO_TO_THE_32
    ensures AllMeantFor(rs, s.remoteId)
  {
    var fs := FramesOf(rs);
    forall i | 0 <= i < |rs| ensures MeantFor(rs[i], s.remoteId) {
      assert Proper(fs[i], s.remoteId, s.snd.nextSeq, s.rcv.ack, s.error.Some?);
      assert fs[i].header == rs[i].packet.header;
    }
  }

  /**
   A poll of a stream that was connected to stream `id` of its peer and has been used in any way since:
   what it hands over is what the model says, and reaches the inbox of stream `id` and no other, as long
   as sequence numbers have not outgrown the wire.
   */
  method PollReachesPeer(stream: Stream.UdxStream, id: nat, ghost acts: seq<Action>, ghost t: Table,
                         timer: bool, now: nat, gsoSegments: nat)
    returns (outcome: Outcome)
    requires stream.Valid() && !stream.finished && gsoSegments > 0 && stream.Abs() == Run(Connect(id), acts)
    requires id in t.streams && t.streams[id].open
    modifies stream, stream.made
    ensures stream.Valid() && old(stream.sendTx) <= stream.sendTx
    ensures stream.Abs() == Run(Connect(id), acts + [DriveOnce(old(stream.recvRx), stream.recvClosed, timer, now)])
    ensures var evs := stream.sendTx[|old(stream.sendTx)|..];
      && FramesOf(Stream.PacketsIn(evs))
         == Drive(Run(Connect(id), acts), old(stream.recvRx), stream.recvClosed, timer, now).sent
      && (!outcome.Finished? && id < TWO_TO_THE_32 && stream.nextSeq < TWO_TO_THE_32 && stream.ack < TWO_TO_THE_32 ==>
          Got(t, RouteAll(t, OnTheWire(evs)), id, Frames(Unskipped(EntriesOf(Stream.PacketsIn(evs))))))
  {
    hide Run, Drive, Inv, Addressed, AllProper, Got, OnTheWire, AllMeantFor, Stream.OnlyTransmits, FramesOf, Unskipped;
    ghost var s, batch := stream.Abs(), stream.recvRx;
    EveryPacketIsAddressed(id, acts, batch, stream.recvClosed, timer, now);
    outcome := stream.Poll(timer, now, gsoSegments);
    ghost var a := DriveOnce(batch, stream.recvClosed, timer, now);
    RunOneMore(Connect(id), acts, a);
    ghost var evs := stream.sendTx[|old(stream.sendTx)|..];
    if !outcome.Finished? && id < TWO_TO_THE_32 && stream.nextSeq < TWO_TO_THE_32 && stream.ack < TWO_TO_THE_32 {
      ProperIsMeant(Stream.PacketsIn(evs), stream.Abs());
      EventsReach(evs, t, id);
    }
  }

  lemma RunOneMore(s: State, acts: seq<Action>, a: Action)
    ensures Run(s, acts + [a]) == Apply(Run(s, acts), a)
  {
    hide Apply;
    assert (acts + [a])[..|acts|] == acts;
  }
}
