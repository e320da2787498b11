/**
 The 20-byte packet header (src/packet.rs:302-362): its byte layout, the in-place
 encoder, and the proof that decoding inverts it exactly on headers whose fields fit
 their wire width.
 */
module Wire {
  import opened Constants

  /** `seqno` is the source's `seq`, a reserved word here. */
  datatype Header = Header(
    typ: nat, dataOffset: nat, streamId: nat, recvWin: nat, seqno: nat, ack: nat)

  /** What every field must satisfy to survive the trip through its wire slot. */
  predicate FitsWire(h: Header) {
    && h.typ < 256 && h.dataOffset < 256
    && h.streamId < TWO_TO_THE_32 && h.recvWin < TWO_TO_THE_32
    && h.seqno < TWO_TO_THE_32 && h.ack < TWO_TO_THE_32
  }

  /** Type words are bit sets; `flag` is a power of two. */
  predicate HasType(typ: nat, flag: nat)
    requires flag > 0
  {
    (typ / flag) % 2 == 1
  }

  lemma Bits(d: nat, e: nat, k: nat, rest: nat)
    requires d < 2 && e < 2 && k < 2
    ensures var n := d + 2 * e + 4 * k + 8 * rest; n % 2 == d && (n / 2) % 2 == e && (n / 4) % 2 == k
  {
    var n := d + 2 * e + 4 * k + 8 * rest;
    assert n / 2 == e + 2 * (k + 2 * rest);
    assert n / 4 == k + 2 * rest;
  }

  /** Of a type word put together from flags, each flag is read back on its own, whatever the others are. */
  lemma TypeBits(data: bool, end: bool, sack: bool, rest: nat)
    ensures
      var typ := (if data then UDX_HEADER_DATA else 0) + (if end then UDX_HEADER_END else 0)
               + (if sack then UDX_HEADER_SACK else 0) + 8 * rest;
      && (HasType(typ, UDX_HEADER_DATA) <==> data)
      && (HasType(typ, UDX_HEADER_END) <==> end)
      && (HasType(typ, UDX_HEADER_SACK) <==> sack)
  {
    Bits(if data then 1 else 0, if end then 1 else 0, if sack then 1 else 0, rest);
  }

  /** `u32::to_le_bytes`, taking a value modulo 2^32. */
  function LeBytes(x: nat): (b: seq<Byte>)
    ensures |b| == 4
  {
    [x % 256, (x / 256) % 256, (x / 65536) % 256, (x / 16777216) % 256]
  }

  /** `read_u32_le`. */
  function ReadU32Le(b: seq<Byte>): (x: nat)
    requires |b| == 4
    ensures x < TWO_TO_THE_32
  {
    var b0: int, b1: int, b2: int, b3: int := b[0], b[1], b[2], b[3];
    b0 + 256 * b1 + 65536 * b2 + 16777216 * b3
  }

  lemma LeBytesThenRead(x: nat)
    ensures ReadU32Le(LeBytes(x)) == x % TWO_TO_THE_32
  {
    var q1, q2, q3, q4 := x / 256, x / 65536, x / 16777216, x / TWO_TO_THE_32;
    assert x == 256 * q1 + x % 256;
    assert q2 == q1 / 256 && q1 == 256 * q2 + q1 % 256;
    assert q3 == q2 / 256 && q2 == 256 * q3 + q2 % 256;
    assert q4 == q3 / 256 && q3 == 256 * q4 + q3 % 256;
    assert x == TWO_TO_THE_32 * q4 + x % TWO_TO_THE_32;
  }

  lemma ReadThenLeBytes(b: seq<Byte>)
    requires |b| == 4
    ensures LeBytes(ReadU32Le(b)) == b
  {
    var x := ReadU32Le(b);
    var b0: int, b1: int, b2: int, b3: int := b[0], b[1], b[2], b[3];
    assert x / 256 == b1 + 256 * b2 + 65536 * b3;
    assert x / 65536 == b2 + 256 * b3;
    assert x / 16777216 == b3;
  }

  function Encode(h: Header): (b: seq<Byte>)
    ensures |b| == UDX_HEADER_SIZE
  {
    [UDX_MAGIC_BYTE, UDX_VERSION, h.typ % 256, h.dataOffset % 256]
    + LeBytes(h.streamId) + LeBytes(h.recvWin) + LeBytes(h.seqno) + LeBytes(h.ack)
  }

  /** `Header::from_bytes`; `None` is the "Bad header" error. */
  function Decode(b: seq<Byte>): Option<Header> {
    if |b| < UDX_HEADER_SIZE || b[0] != UDX_MAGIC_BYTE || b[1] != UDX_VERSION then
      None
    else
      Some(Header(b[2], b[3], ReadU32Le(b[4..8]), ReadU32Le(b[8..12]),
                  ReadU32Le(b[12..16]), ReadU32Le(b[16..20])))
  }

  lemma EncodedSlots(h: Header, body: seq<Byte>)
    ensures var b := Encode(h) + body;
      && b[..4] == [UDX_MAGIC_BYTE, UDX_VERSION, h.typ % 256, h.dataOffset % 256]
      && b[4..8] == LeBytes(h.streamId) && b[8..12] == LeBytes(h.recvWin)
      && b[12..16] == LeBytes(h.seqno) && b[16..20] == LeBytes(h.ack)
  {
  }

  /** What is left of a header after each field is cut to its wire width. */
  function Truncate(h: Header): Header {
    Header(h.typ % 256, h.dataOffset % 256, h.streamId % TWO_TO_THE_32, h.recvWin % TWO_TO_THE_32,
           h.seqno % TWO_TO_THE_32, h.ack % TWO_TO_THE_32)
  }

  lemma DecodedSlots(h: Header, body: seq<Byte>)
    ensures Decode(Encode(h) + body) == Some(Truncate(h))
  {
    var b := Encode(h) + body;
    EncodedSlots(h, body);
    assert b[..4][0] == b[0] && b[..4][1] == b[1] && b[..4][2] == b[2] && b[..4][3] == b[3];
    LeBytesThenRead(h.streamId);
    LeBytesThenRead(h.recvWin);
    LeBytesThenRead(h.seqno);
    LeBytesThenRead(h.ack);
  }

  lemma TruncateKeeps(h: Header)
    ensures Truncate(h) == h <==> FitsWire(h)
  {
  }

  /** A header survives encoding, whatever body follows it, exactly when its fields fit. */
  lemma EncodeThenDecode(h: Header, body: seq<Byte>)
    ensures Decode(Encode(h) + body) == Some(h) <==> FitsWire(h)
  {
    TruncateKeeps(h);
    var d := Decode(Encode(h) + body);
    assert d == Some(Truncate(h)) by {
      DecodedSlots(h, body);
    }
  }

  /** Every accepted datagram is the encoding of what was decoded from it, plus its body. */
  lemma DecodeThenEncode(b: seq<Byte>)
    requires Decode(b).Some?
    ensures FitsWire(Decode(b).value)
    ensures b == Encode(Decode(b).value) + b[UDX_HEADER_SIZE..]
  {
    ReadThenLeBytes(b[4..8]);
    ReadThenLeBytes(b[8..12]);
    ReadThenLeBytes(b[12..16]);
    ReadThenLeBytes(b[16..20]);
    assert b[..4] == [UDX_MAGIC_BYTE, UDX_VERSION, b[2], b[3]];
    assert b[..20] == b[..4] + b[4..8] + b[8..12] + b[12..16] + b[16..20];
    assert b == b[..20] + b[20..];
  }

  /** One `copy_from_slice` of four little-endian bytes. */
  method PutU32Le(buf: array<Byte>, at: nat, x: nat)
    requires at + 4 <= buf.Length
    modifies buf
    ensures buf[..] == old(buf[..at]) + LeBytes(x) + old(buf[at + 4..])
  {
    buf[at], buf[at + 1] := x % 256, (x / 256) % 256;
    buf[at + 2], buf[at + 3] := (x / 65536) % 256, (x / 16777216) % 256;
  }

  /** `Header::encode`: refuses a short buffer untouched, else overwrites its first 20 bytes. */
  method EncodeInto(h: Header, buf: array<Byte>) returns (ok: bool)
    modifies buf
    ensures ok == (UDX_HEADER_SIZE <= buf.Length)
    ensures buf[..] == if ok then Encode(h) + old(buf[UDX_HEADER_SIZE..]) else old(buf[..])
  {
    if buf.Length < UDX_HEADER_SIZE {
      return false;
    }
    ghost var rest := buf[UDX_HEADER_SIZE..];
    buf[0], buf[1], buf[2], buf[3] := UDX_MAGIC_BYTE, UDX_VERSION, h.typ % 256, h.dataOffset % 256;
    ghost var done := [UDX_MAGIC_BYTE, UDX_VERSION, h.typ % 256, h.dataOffset % 256];
    assert buf[..4] == done && buf[20..] == rest;
    PutU32Le(buf, 4, h.streamId);
    assert buf[..8] == done + LeBytes(h.streamId) && buf[20..] == rest;
    PutU32Le(buf, 8, h.recvWin);
    assert buf[..12] == done + LeBytes(h.streamId) + LeBytes(h.recvWin) && buf[20..] == rest;
    PutU32Le(buf, 12, h.seqno);
    assert buf[..16] == done + LeBytes(h.streamId) + LeBytes(h.recvWin) + LeBytes(h.seqno) && buf[20..] == rest;
    PutU32Le(buf, 16, h.ack);
    assert buf[..20] == Encode(h) && buf[20..] == rest;
    assert buf[..] == buf[..20] + buf[20..];
    return true;
  }
}
