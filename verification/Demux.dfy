/**
 What the socket does with received datagrams (src/socket.rs:360-451), as values: each goes to the
 stream its header names, or to the queue of stray datagrams.
 */
module Demux {
  import opened Constants
  import opened Ledger
  import opened Path

  const RECV_QUEUE_MAX_LEN: nat := 1024

  /** The channel to a stream: closed once the stream is dropped. */
  datatype Inbox = Inbox(open: bool, frames: seq<Frame>)

  datatype Table = Table(streams: map<nat, Inbox>, strays: seq<seq<Byte>>)

  /** `process_packet`: the new streams, and whether the datagram is handed back. */
  function Process(streams: map<nat, Inbox>, d: seq<Byte>): (map<nat, Inbox>, bool) {
    var f := Parse(d);
    if f.None? || f.value.header.streamId !in streams then (streams, true)
    else
      var id := f.value.header.streamId;
      var inbox := streams[id];
      if inbox.open
      then (streams[id := inbox.(frames := inbox.frames + [f.value])], false)
      else (streams - {id}, false)
  }

  function Route(t: Table, d: seq<Byte>): Table {
    var (streams, stray) := Process(t.streams, d);
    Table(streams, if stray && |t.strays| < RECV_QUEUE_MAX_LEN then t.strays + [d] else t.strays)
  }

  function RouteAll(t: Table, ds: seq<seq<Byte>>): Table {
    if ds == [] then t else Route(RouteAll(t, ds[..|ds| - 1]), ds[|ds| - 1])
  }

  lemma RouteNothing(t: Table)
    ensures RouteAll(t, []) == t
  {
  }

  lemma {:induction false} RouteAllConcat(t: Table, a: seq<seq<Byte>>, b: seq<seq<Byte>>)
    ensures RouteAll(t, a + b) == RouteAll(RouteAll(t, a), b)
  {
    hide Route;
    if b == [] {
      assert a + b == a;
    } else {
      RouteAllConcat(t, a, b[..|b| - 1]);
      assert (a + b)[..|a + b| - 1] == a + b[..|b| - 1];
    }
  }

  /** The frames that the datagrams carry for one stream, in order. */
  function FramesFor(ds: seq<seq<Byte>>, id: nat): seq<Frame> {
    if ds == [] then []
    else
      FramesFor(ds[..|ds| - 1], id)
      + (var f := Parse(ds[|ds| - 1]);
         if f.Some? && f.value.header.streamId == id then [f.value] else [])
  }

  /** Whether a datagram that comes after `ds` finds no stream: a dropped one takes only its first frame. */
  predicate IsStray(streams: map<nat, Inbox>, ds: seq<seq<Byte>>, d: seq<Byte>) {
    var f := Parse(d);
    || f.None?
    || f.value.header.streamId !in streams
    || (!streams[f.value.header.streamId].open && FramesFor(ds, f.value.header.streamId) != [])
  }

  /** The datagrams that no stream of the table takes, in order. */
  function StraysIn(streams: map<nat, Inbox>, ds: seq<seq<Byte>>): seq<seq<Byte>> {
    if ds == [] then []
    else
      var init, last := ds[..|ds| - 1], ds[|ds| - 1];
      StraysIn(streams, init) + if IsStray(streams, init, last) then [last] else []
  }

  /**
   A stream gets exactly its own frames, in the order of arrival, whatever arrives for others. If
   it was dropped, the first frame for it only takes it out of the table.
   */
  lemma {:induction false} StreamGetsItsFrames(t: Table, ds: seq<seq<Byte>>, id: nat)
    ensures var t' := RouteAll(t, ds);
      if id !in t.streams then id !in t'.streams
      else if t.streams[id].open
      then id in t'.streams && t'.streams[id] == Inbox(true, t.streams[id].frames + FramesFor(ds, id))
      else if FramesFor(ds, id) == [] then id in t'.streams && t'.streams[id] == t.streams[id]
      else id !in t'.streams
  {
    hide Parse;
    if ds != [] {
      StreamGetsItsFrames(t, ds[..|ds| - 1], id);
    }
  }

  /** The strays are queued in order up to the limit; later ones are dropped. */
  lemma {:induction false} StraysAreQueued(t: Table, ds: seq<seq<Byte>>)
    requires |t.strays| <= RECV_QUEUE_MAX_LEN
    ensures var all := t.strays + StraysIn(t.streams, ds);
      RouteAll(t, ds).strays == all[..Min(|all|, RECV_QUEUE_MAX_LEN)]
  {
    hide Parse, IsStray;
    if ds != [] {
      var init, last := ds[..|ds| - 1], ds[|ds| - 1];
      StraysAreQueued(t, init);
      StrayIsHandedBack(t, init, last);
    }
  }

  lemma StrayIsHandedBack(t: Table, ds: seq<seq<Byte>>, d: seq<Byte>)
    ensures Process(RouteAll(t, ds).streams, d).1 == IsStray(t.streams, ds, d)
  {
    hide Parse, RouteAll, FramesFor;
    var f := Parse(d);
    if f.Some? {
      StreamGetsItsFrames(t, ds, f.value.header.streamId);
    }
  }

  ghost predicate AllFor(fs: seq<Frame>, id: nat) {
    forall i :: 0 <= i < |fs| ==> fs[i].header.streamId == id
  }

  lemma {:induction false} ParseAllLast(ds: seq<seq<Byte>>)
    requires ds != []
    ensures var f := Parse(ds[|ds| - 1]);
      ParseAll(ds) == ParseAll(ds[..|ds| - 1]) + if f.Some? then [f.value] else []
  {
    hide Parse;
    if |ds| > 1 {
      ParseAllLast(ds[1..]);
      assert ds[1..][..|ds| - 2] == ds[..|ds| - 1][1..];
    } else {
      assert ds[1..] == [] && ds[..0] == [];
    }
  }

  lemma {:induction false} FramesForOne(ds: seq<seq<Byte>>, id: nat)
    requires AllFor(ParseAll(ds), id)
    ensures FramesFor(ds, id) == ParseAll(ds)
  {
    hide Parse;
    if ds != [] {
      ParseAllLast(ds);
      var init, all := ParseAll(ds[..|ds| - 1]), ParseAll(ds);
      assert forall i :: 0 <= i < |init| ==> init[i] == all[i];
      assert Parse(ds[|ds| - 1]).Some? ==> all[|init|] == Parse(ds[|ds| - 1]).value;
      FramesForOne(ds[..|ds| - 1], id);
    }
  }

  lemma {:induction false} NoFramesForOthers(ds: seq<seq<Byte>>, id: nat, k: nat)
    requires AllFor(ParseAll(ds), id) && k != id
    ensures FramesFor(ds, k) == []
  {
    hide Parse;
    if ds != [] {
      ParseAllLast(ds);
      var init, all := ParseAll(ds[..|ds| - 1]), ParseAll(ds);
      assert forall i :: 0 <= i < |init| ==> init[i] == all[i];
      assert Parse(ds[|ds| - 1]).Some? ==> all[|init|] == Parse(ds[|ds| - 1]).value;
      NoFramesForOthers(ds[..|ds| - 1], id, k);
    }
  }

  /** All streams but one are as they were. */
  ghost predicate OthersKept(t: Table, t': Table, id: nat) {
    && t'.streams.Keys == t.streams.Keys
    && forall k :: k in t.streams && k != id ==> t'.streams[k] == t.streams[k]
  }

  lemma OnlyOneStreamGets(t: Table, ds: seq<seq<Byte>>, id: nat)
    requires AllFor(ParseAll(ds), id) && id in t.streams && t.streams[id].open
    ensures var t' := RouteAll(t, ds);
      OthersKept(t, t', id) && t'.streams[id] == Inbox(true, t.streams[id].frames + ParseAll(ds))
  {
    hide ParseAll, RouteAll, FramesFor, AllFor;
    var t' := RouteAll(t, ds);
    FramesForOne(ds, id);
    StreamGetsItsFrames(t, ds, id);
    forall k: nat
      ensures k in t'.streams <==> k in t.streams
      ensures k in t.streams && k != id ==> t'.streams[k] == t.streams[k]
    {
      if k != id {
        StreamGetsItsFrames(t, ds, k);
        NoFramesForOthers(ds, id, k);
      }
    }
  }

  lemma UnskippedFor(es: seq<Entry>, id: nat)
    requires forall i :: 0 <= i < |es| ==> es[i].header.streamId == id
    ensures AllFor(Frames(Unskipped(es)), id)
  {
    UnskippedOf(es);
    var us := Unskipped(es);
    assert forall e :: e in us ==> e.header.streamId == id;
    assert forall i :: 0 <= i < |us| ==> us[i] in us && Frames(us)[i] == us[i].ToFrame();
  }

  /**
   From one stream's packet set to the other stream's channel: the unskipped packets of the set
   arrive there, in order and unchanged, and nothing else does.
   */
  lemma SetReachesStream(es: seq<Entry>, size: nat, t: Table, id: nat)
    requires |es| > 0 && size > 0 && SameSize(es, size) && AllFit(es)
    requires forall i :: 0 <= i < |es| ==> es[i].header.streamId == id
    requires id in t.streams && t.streams[id].open
    ensures var t' := RouteAll(t, Datagrams(ToTransmit(es, size)));
      OthersKept(t, t', id) && t'.streams[id] == Inbox(true, t.streams[id].frames + Frames(Unskipped(es)))
  {
    hide Datagrams, NumSegments, ParseAll, RouteAll, SameSize, AllFit, Frames, AllFor, Unskipped;
    WirePathIsIdentity(es, size);
    UnskippedFor(es, id);
    OnlyOneStreamGets(t, Datagrams(ToTransmit(es, size)), id);
  }
}
