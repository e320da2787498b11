/**
 The way of a packet set through the wire: one concatenated buffer (src/packet.rs:99-147), cut
 at the segment size into datagrams, each decoded and stripped of its header at the other end
 (src/socket.rs:403-434).
 */
module Path {
  import opened Constants
  import opened Arithmetic
  import opened Wire
  import opened Ledger
  import opened Batching

  /** A queued packet and its `skip` flag at the moment its set is turned into a transmit. */
  datatype Entry = Entry(header: Header, body: seq<Byte>, skip: bool) {
    function Bytes(): (b: seq<Byte>)
      ensures |b| == UDX_HEADER_SIZE + |body|
    {
      Encode(header) + body
    }

    function ToFrame(): Frame {
      Frame(header, body)
    }
  }

  /** `Transmit` (udx-udp/src/proto.rs:5-17), without the addressing fields. */
  datatype Transmit = Transmit(contents: seq<Byte>, segmentSize: Option<nat>)

  function NumSegments(t: Transmit): nat
    requires t.segmentSize.Some? ==> t.segmentSize.value > 0
  {
    match t.segmentSize
    case None => 1
    case Some(size) => |t.contents| / size
  }

  function Contents(es: seq<Entry>): seq<Byte> {
    if es == [] then []
    else Contents(es[..|es| - 1]) + if es[|es| - 1].skip then [] else es[|es| - 1].Bytes()
  }

  /** `PacketSet::to_transmit`. */
  function ToTransmit(es: seq<Entry>, segmentSize: nat): Transmit {
    Transmit(Contents(es), if |es| == 1 then None else Some(segmentSize))
  }

  /** What goes out for a transmit: its contents, cut at the segment size if it has one. */
  function Datagrams(t: Transmit): seq<seq<Byte>>
    requires t.segmentSize.Some? ==> t.segmentSize.value > 0
  {
    match t.segmentSize
    case None => [t.contents]
    case Some(size) => Cut(t.contents, size)
  }

  function Cut(bytes: seq<Byte>, size: nat): seq<seq<Byte>>
    requires size > 0
    decreases |bytes|
  {
    if bytes == [] then []
    else if |bytes| <= size then [bytes]
    else [bytes[..size]] + Cut(bytes[size..], size)
  }

  /** The header decoded and cut off, or the datagram rejected. */
  function Parse(d: seq<Byte>): Option<Frame> {
    var h := Decode(d);
    if h.None? then None else Some(Frame(h.value, d[UDX_HEADER_SIZE..]))
  }

  function ParseAll(ds: seq<seq<Byte>>): seq<Frame> {
    if ds == [] then []
    else (var f := Parse(ds[0]); if f.Some? then [f.value] else []) + ParseAll(ds[1..])
  }

  function Unskipped(es: seq<Entry>): seq<Entry> {
    if es == [] then []
    else Unskipped(es[..|es| - 1]) + if es[|es| - 1].skip then [] else [es[|es| - 1]]
  }

  function Frames(es: seq<Entry>): (fs: seq<Frame>)
    ensures |fs| == |es|
  {
    seq(|es|, i requires 0 <= i < |es| => es[i].ToFrame())
  }

  ghost predicate SameSize(es: seq<Entry>, size: nat) {
    forall i :: 0 <= i < |es| ==> |es[i].Bytes()| == size
  }

  ghost predicate AllFit(es: seq<Entry>) {
    forall i :: 0 <= i < |es| ==> FitsWire(es[i].header)
  }

  lemma {:induction false} UnskippedOf(es: seq<Entry>)
    ensures forall e :: e in Unskipped(es) <==> e in es && !e.skip
  {
    if es != [] {
      UnskippedOf(es[..|es| - 1]);
      assert es == es[..|es| - 1] + [es[|es| - 1]];
    }
  }

  lemma {:induction false} UnskippedConcat(a: seq<Entry>, b: seq<Entry>)
    ensures Unskipped(a + b) == Unskipped(a) + Unskipped(b)
  {
    if b == [] {
      assert a + b == a;
    } else {
      UnskippedConcat(a, b[..|b| - 1]);
      assert (a + b)[..|a + b| - 1] == a + b[..|b| - 1];
    }
  }

  /** The buffer is the unskipped packets, one after the other. */
  lemma {:induction false} ContentsOfUnskipped(es: seq<Entry>)
    ensures Contents(es) == Contents(Unskipped(es))
  {
    hide Entry.Bytes;
    if es != [] {
      var init, last := es[..|es| - 1], es[|es| - 1];
      ContentsOfUnskipped(init);
      if last.skip {
        assert Unskipped(es) == Unskipped(init);
      } else {
        assert Unskipped(es)[..|Unskipped(init)|] == Unskipped(init);
      }
    }
  }

  lemma {:induction false} ContentsFront(e: Entry, es: seq<Entry>)
    requires !e.skip
    ensures Contents([e] + es) == e.Bytes() + Contents(es)
  {
    hide Entry.Bytes;
    if es == [] {
      assert [e] + es == [e] && [e][..0] == [];
    } else {
      var init, all := es[..|es| - 1], [e] + es;
      ContentsFront(e, init);
      assert all[..|all| - 1] == [e] + init && all[|all| - 1] == es[|es| - 1];
      var last := if es[|es| - 1].skip then [] else es[|es| - 1].Bytes();
      assert Contents(all) == (e.Bytes() + Contents(init)) + last;
      assert (e.Bytes() + Contents(init)) + last == e.Bytes() + (Contents(init) + last);
    }
  }

  lemma ParseBytes(e: Entry)
    requires FitsWire(e.header)
    ensures Parse(e.Bytes()) == Some(e.ToFrame())
  {
    EncodeThenDecode(e.header, e.body);
    assert e.Bytes()[UDX_HEADER_SIZE..] == e.body;
  }

  /** Cutting the buffer at the common size and parsing the pieces gives the packets back. */
  lemma {:induction false} CutAndParse(es: seq<Entry>, size: nat)
    requires size > 0 && SameSize(es, size) && AllFit(es)
    requires forall i :: 0 <= i < |es| ==> !es[i].skip
    ensures |Cut(Contents(es), size)| == |es|
    ensures ParseAll(Cut(Contents(es), size)) == Frames(es)
    decreases |es|
  {
    hide Entry.Bytes, Parse;
    if es != [] {
      var e, rest := es[0], es[1..];
      assert es == [e] + rest;
      ContentsFront(e, rest);
      CutAndParse(rest, size);
      CutFront(e.Bytes(), Contents(rest), size);
      ParseBytes(e);
      assert Frames(es) == [e.ToFrame()] + Frames(rest);
    }
  }

  lemma {:induction false} ContentsLength(es: seq<Entry>, size: nat)
    requires SameSize(es, size) && forall i :: 0 <= i < |es| ==> !es[i].skip
    ensures |Contents(es)| == |es| * size
  {
    hide Entry.Bytes;
    if es != [] {
      var init := es[..|es| - 1];
      ContentsLength(init, size);
      assert |es[|es| - 1].Bytes()| == size;
      MulSuccessor(|init|, size);
    }
  }

  lemma CutFront(piece: seq<Byte>, rest: seq<Byte>, size: nat)
    requires size > 0 && |piece| == size
    ensures Cut(piece + rest, size) == [piece] + Cut(rest, size)
  {
    hide Encode;
    if rest == [] {
      assert piece + rest == piece;
    } else {
      assert (piece + rest)[..size] == piece && (piece + rest)[size..] == rest;
    }
  }

  lemma {:induction false} UnskippedKeeps(es: seq<Entry>, size: nat)
    requires SameSize(es, size) && AllFit(es)
    ensures SameSize(Unskipped(es), size) && AllFit(Unskipped(es))
    ensures forall i :: 0 <= i < |Unskipped(es)| ==> !Unskipped(es)[i].skip
  {
    UnskippedOf(es);
    var us := Unskipped(es);
    forall i | 0 <= i < |us|
      ensures |us[i].Bytes()| == size && FitsWire(us[i].header) && !us[i].skip
    {
      assert us[i] in us;
    }
  }

  lemma SetOfMany(es: seq<Entry>, size: nat)
    requires |es| >= 2 && size > 0 && SameSize(es, size) && AllFit(es)
    ensures var t := ToTransmit(es, size);
      && ParseAll(Datagrams(t)) == Frames(Unskipped(es))
      && |Datagrams(t)| == NumSegments(t) == |Unskipped(es)|
  {
    var us := Unskipped(es);
    UnskippedKeeps(es, size);
    ContentsOfUnskipped(es);
    CutAndParse(us, size);
    ContentsLength(us, size);
    assert (|us| * size) / size == |us| by {
      MulThenDiv(|us|, size);
    }
  }

  lemma EmptyIsRejected()
    ensures Parse([]) == None
  {
  }

  lemma SetOfOne(es: seq<Entry>, size: nat)
    requires |es| == 1 && AllFit(es)
    ensures var t := ToTransmit(es, size);
      && ParseAll(Datagrams(t)) == Frames(Unskipped(es))
      && |Datagrams(t)| == NumSegments(t) == 1
      && |Unskipped(es)| == if es[0].skip then 0 else 1
  {
    hide Entry.Bytes, Parse;
    var e := es[0];
    assert es[..0] == [];
    assert Contents(es[..0]) == [] && Unskipped(es[..0]) == [];
    assert Contents(es) == if e.skip then [] else e.Bytes();
    var t := ToTransmit(es, size);
    assert Datagrams(t)[1..] == [];
    if e.skip {
      EmptyIsRejected();
    } else {
      ParseBytes(e);
      assert Frames(Unskipped(es)) == [e.ToFrame()];
    }
  }

  /**
   The wire path is the identity: whatever packet set the stream hands over, parsing its
   datagrams yields the headers and bodies of its unskipped packets, in order. Each datagram is
   one of them, and `num_segments` counts them, exactly unless the set is a lone skipped packet,
   which goes out as an empty datagram.
   */
  lemma WirePathIsIdentity(es: seq<Entry>, size: nat)
    requires |es| > 0 && size > 0 && SameSize(es, size) && AllFit(es)
    ensures var t := ToTransmit(es, size);
      && ParseAll(Datagrams(t)) == Frames(Unskipped(es))
      && |Datagrams(t)| == NumSegments(t)
      && (NumSegments(t) == |Unskipped(es)| <==> !(|es| == 1 && es[0].skip))
  {
    if |es| == 1 {
      SetOfOne(es, size);
    } else {
      SetOfMany(es, size);
    }
  }

  // ----- the whole queue -----

  function Size(e: Entry): nat {
    |e.Bytes()|
  }

  /** What arrives when every set is transmitted and nothing is lost. */
  function Arrivals(sets: seq<seq<Entry>>): seq<Frame> {
    if sets == [] then []
    else
      Arrivals(sets[..|sets| - 1])
      + (var es := sets[|sets| - 1];
         if es == [] then [] else ParseAll(Datagrams(ToTransmit(es, Max(Size(es[0]), 1)))))
  }

  lemma {:induction false} SetsArrive(sets: seq<seq<Entry>>, max: nat)
    requires forall i :: 0 <= i < |sets| ==> IsBatch(sets[i], Size, max) && AllFit(sets[i])
    ensures Arrivals(sets) == Frames(Unskipped(Flatten(sets)))
  {
    hide Entry.Bytes, ParseAll, Datagrams, ToTransmit;
    if sets != [] {
      var init, es := sets[..|sets| - 1], sets[|sets| - 1];
      SetsArrive(init, max);
      assert forall i :: 0 <= i < |es| ==> Size(es[i]) == Size(es[0]);
      WirePathIsIdentity(es, Size(es[0]));
      UnskippedConcat(Flatten(init), es);
      assert Frames(Unskipped(Flatten(init)) + Unskipped(es))
          == Frames(Unskipped(Flatten(init))) + Frames(Unskipped(es));
    }
  }

  /** Queue, batches, buffers, datagrams and parsing together deliver the unskipped queue in order. */
  lemma QueueArrives(q: seq<Entry>, max: nat)
    requires max > 0 && AllFit(q)
    ensures Arrivals(Greedy(q, Size, max)) == Frames(Unskipped(q))
  {
    GreedyIsBatching(q, Size, max);
    var sets := Greedy(q, Size, max);
    forall i | 0 <= i < |sets| ensures AllFit(sets[i]) {
      FlattenHolds(sets, i);
      forall j | 0 <= j < |sets[i]| ensures FitsWire(sets[i][j].header) {
        assert sets[i][j] in sets[i];
        assert sets[i][j] in q;
      }
    }
    SetsArrive(sets, max);
  }
}
