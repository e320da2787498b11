/**
 Packets as the shared, mutable objects they are (src/packet.rs:32-244): a stream keeps one in
 `outgoing` while its send queue, and later the socket, hold references to the same object.
 */
module PacketObject {
  import opened Constants
  import opened Wire
  import opened Ledger
  import opened Path

  class Packet {
    const header: Header
    const buf: seq<Byte>
    var waiting: bool
    var skip: bool
    var timeSent: Option<nat>
    var transmits: nat
    ghost var queued: nat

    /** The buffer starts with the encoded header. */
    ghost predicate Sealed() {
      UDX_HEADER_SIZE <= |buf| && buf[..UDX_HEADER_SIZE] == Encode(header)
    }

    /** `Packet::new`: allocates the buffer, encodes the header in place and copies the body behind it. */
    constructor (header: Header, body: seq<Byte>)
      ensures this.header == header && buf == Encode(header) + body && Sealed()
      ensures !waiting && !skip && timeSent.None? && transmits == 0 && queued == 0
    {
      var bytes := new Byte[UDX_HEADER_SIZE + |body|](_ => 0);
      var _ := EncodeInto(header, bytes);
      forall i | 0 <= i < |body| {
        bytes[UDX_HEADER_SIZE + i] := body[i];
      }
      assert bytes[..UDX_HEADER_SIZE] == Encode(header);
      assert bytes[UDX_HEADER_SIZE..] == body;
      assert bytes[..] == bytes[..UDX_HEADER_SIZE] + bytes[UDX_HEADER_SIZE..];
      this.header, buf := header, bytes[..];
      waiting, skip, timeSent, transmits, queued := false, false, None, 0, 0;
    }

    function Len(): nat {
      |buf|
    }

    /** `data_len`, which saturates. */
    function DataLen(): nat {
      if |buf| < UDX_HEADER_SIZE then 0 else |buf| - UDX_HEADER_SIZE
    }

    ghost function Body(): seq<Byte> {
      if |buf| < UDX_HEADER_SIZE then [] else buf[UDX_HEADER_SIZE..]
    }

    ghost function ToFrame(): Frame {
      Frame(header, Body())
    }

    /** The packet as a value. */
    ghost function View(): OutPacket
      reads this
    {
      OutPacket(header, Body(), waiting, transmits, timeSent, queued)
    }

    ghost function ToEntry(): Entry
      reads this
    {
      Entry(header, Body(), skip)
    }
  }

  datatype PacketRef = Owned(packet: Packet) | Shared(packet: Packet)

  function SizeOf(r: PacketRef): nat {
    r.packet.Len()
  }

  ghost predicate AllSealed(rs: seq<PacketRef>) {
    forall i :: 0 <= i < |rs| ==> rs[i].packet.Sealed()
  }

  ghost function FramesOf(rs: seq<PacketRef>): (fs: seq<Frame>)
    ensures |fs| == |rs|
  {
    seq(|rs|, i requires 0 <= i < |rs| => rs[i].packet.ToFrame())
  }

  ghost function ObjectsOf(rs: seq<PacketRef>): set<Packet> {
    set i | 0 <= i < |rs| :: rs[i].packet
  }

  ghost function EntriesOf(rs: seq<PacketRef>): (es: seq<Entry>)
    reads ObjectsOf(rs)
    ensures |es| == |rs|
    ensures forall i :: 0 <= i < |rs| ==> es[i] == rs[i].packet.ToEntry()
  {
    if rs == [] then []
    else
      var init := rs[..|rs| - 1];
      assert ObjectsOf(init) <= ObjectsOf(rs);
      assert rs[|rs| - 1].packet in ObjectsOf(rs);
      EntriesOf(init) + [rs[|rs| - 1].packet.ToEntry()]
  }

  datatype PacketSet = PacketSet(packets: seq<PacketRef>, segmentSize: nat)

  /** What streams and their users send to the socket (src/socket.rs). */
  datatype Event = Transmit(packets: PacketSet) | TransmitDgram(buf: seq<Byte>) | StreamDropped(id: nat)

  /** `PacketSet::to_transmit`: appends every packet not marked to be skipped at this moment. */
  method ToTransmit(ps: PacketSet) returns (t: Path.Transmit)
    requires AllSealed(ps.packets)
    ensures t == Path.ToTransmit(EntriesOf(ps.packets), ps.segmentSize)
  {
    ghost var es := EntriesOf(ps.packets);
    var buf: seq<Byte> := [];
    for i := 0 to |ps.packets|
      invariant buf == Contents(es[..i])
    {
      var p := ps.packets[i].packet;
      assert es[..i + 1][..i] == es[..i];
      assert p.buf == es[i].Bytes() by {
        assert p.buf == p.buf[..UDX_HEADER_SIZE] + p.buf[UDX_HEADER_SIZE..];
      }
      if !p.skip {
        buf := buf + p.buf;
      }
    }
    assert es[..|es|] == es;
    t := Path.Transmit(buf, if |ps.packets| == 1 then None else Some(ps.segmentSize));
  }
}
