/** Protocol constants (src/constants.rs, src/stream.rs:29-30) and the small types every module shares. */
module Constants {

  const UDX_HEADER_DATA: nat := 1
  const UDX_HEADER_END: nat := 2
  const UDX_HEADER_SACK: nat := 4

  /** Cap on the retransmission counter of one packet. */
  const UDX_MAX_TRANSMITS: nat := 5

  const UDX_HEADER_SIZE: nat := 20
  const UDX_MAX_DATA_SIZE: nat := 1380
  const UDX_MTU: nat := 1400
  const SSTHRESH: nat := 0xffff
  const MAX_SEGMENTS: nat := 10

  const UDX_MAGIC_BYTE: Byte := 255
  const UDX_VERSION: Byte := 1

  const TWO_TO_THE_32: nat := 0x1_0000_0000

  /** Durations are whole nanoseconds, the resolution of Rust's `Duration`. */
  const ONE_SECOND: nat := 1_000_000_000
  const UDX_CLOCK_GRANULARITY: nat := 20_000_000

  type Byte = b: int | 0 <= b < 256

  datatype Option<+T> = None | Some(value: T)

  function Max(a: nat, b: nat): nat {
    if a < b then b else a
  }

  function Min(a: nat, b: nat): nat {
    if a < b then a else b
  }

  function Flatten<T>(parts: seq<seq<T>>): seq<T> {
    if parts == [] then [] else Flatten(parts[..|parts| - 1]) + parts[|parts| - 1]
  }

  lemma {:induction false} FlattenConcat<T>(a: seq<seq<T>>, b: seq<seq<T>>)
    ensures Flatten(a + b) == Flatten(a) + Flatten(b)
  {
    if b == [] {
      assert a + b == a;
    } else {
      var last := |b| - 1;
      FlattenConcat(a, b[..last]);
      assert (a + b)[..|a + b| - 1] == a + b[..last];
    }
  }

  lemma FlattenFront<T>(part: seq<T>, parts: seq<seq<T>>)
    ensures Flatten([part] + parts) == part + Flatten(parts)
  {
    FlattenConcat([part], parts);
    assert [part][..0] == [] && Flatten([part]) == part;
  }

  lemma {:induction false} FlattenHolds<T>(parts: seq<seq<T>>, i: nat)
    requires i < |parts|
    ensures forall x :: x in parts[i] ==> x in Flatten(parts)
  {
    if i < |parts| - 1 {
      FlattenHolds(parts[..|parts| - 1], i);
    }
  }
}
