/**
 Reassembly against an arbitrary peer (src/stream.rs:659-673, 708-726): what can be read is never
 taken back or changed by anything that arrives later.
 */
module Reassembly {
  import opened Constants
  import opened Wire
  import opened Ledger
  import opened StreamModel
  import opened StreamInvariant

  /** Everything up to `ack` is as it was, the offset of a partly read packet included. */
  ghost predicate Extends(rcv: Receiver, rcv': Receiver) {
    && rcv'.readCursor == rcv.readCursor && rcv.ack <= rcv'.ack
    && forall k :: rcv.readCursor <= k < rcv.ack && k in rcv.incoming ==>
         k in rcv'.incoming && rcv'.incoming[k] == rcv.incoming[k]
  }

  lemma {:induction false} ReadableIsPrefix(rcv: Receiver, rcv': Receiver)
    requires Extends(rcv, rcv')
    ensures Readable(rcv) <= Readable(rcv')
    decreases rcv.ack - rcv.readCursor
  {
    var c := rcv.readCursor;
    if c < rcv.ack && c in rcv.incoming {
      ReadableIsPrefix(rcv.(readCursor := c + 1), rcv'.(readCursor := c + 1));
    }
  }

  lemma SacksKeepReceiver(s: State, f: Frame, now: nat)
    ensures TakeSacks(s, f, now).rcv == s.rcv
  {
  }

  /** Only the data of a packet reaches the receiver's state. */
  lemma IncomingInserts(s: State, f: Frame, now: nat)
    ensures HandleIncoming(s, f, now).rcv ==
      if HasType(f.header.typ, UDX_HEADER_DATA) then Insert(s.rcv, f) else s.rcv
  {
    hide TakeSacks, Insert, SendState, Terminate;
    SacksKeepReceiver(CountRx(s), f, now);
    var sacked := TakeSacks(CountRx(s), f, now);
    EndKeepsReceiver(sacked, f);
    SendStateKeepsReceiver(Store(TakeEnd(sacked, f), f));
  }

  lemma EndKeepsReceiver(s: State, f: Frame)
    ensures TakeEnd(s, f).rcv == s.rcv
  {
  }

  lemma SendStateKeepsReceiver(s: State)
    ensures SendState(s).rcv == s.rcv
  {
  }

  lemma InsertExtends(rcv: Receiver, f: Frame)
    requires ReceiverInv(rcv)
    ensures Extends(rcv, Insert(rcv, f)) && ReceiverInv(Insert(rcv, f))
  {
    InsertInv(rcv, f);
  }

  lemma IncomingExtends(s: State, f: Frame, now: nat)
    requires ReceiverInv(s.rcv)
    ensures Extends(s.rcv, HandleIncoming(s, f, now).rcv) && ReceiverInv(HandleIncoming(s, f, now).rcv)
  {
    hide HandleIncoming, Insert;
    IncomingInserts(s, f, now);
    InsertExtends(s.rcv, f);
  }

  lemma {:induction false} BatchExtends(s: State, batch: seq<Frame>, now: nat)
    requires ReceiverInv(s.rcv)
    ensures Extends(s.rcv, HandleAll(s, batch, now).rcv)
    decreases |batch|
  {
    hide HandleIncoming, ReceiverInv;
    if batch != [] {
      IncomingExtends(s, batch[0], now);
      BatchExtends(HandleIncoming(s, batch[0], now), batch[1..], now);
    }
  }

  /**
   Whatever packets arrive, duplicates and forgeries included, the bytes that could be read before
   stay at the front of those that can be read afterwards.
   */
  lemma ReadableIsNeverRetracted(s: State, batch: seq<Frame>, now: nat)
    requires ReceiverInv(s.rcv)
    ensures Readable(s.rcv) <= Readable(HandleAll(s, batch, now).rcv)
    ensures Extends(s.rcv, HandleAll(s, batch, now).rcv)
  {
    hide HandleAll, Readable, ReceiverInv, Extends;
    BatchExtends(s, batch, now);
    ReadableIsPrefix(s.rcv, HandleAll(s, batch, now).rcv);
  }
}
