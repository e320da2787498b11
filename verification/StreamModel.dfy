/**
 What every operation of `UdxStreamInner` (src/stream.rs) does to a stream, as functions on
 values. Loops appear here as statements about ranges of sequence numbers; `Stream.dfy` proves
 that the loops themselves compute these functions.
 */
module StreamModel {
  import opened Constants
  import opened Wire
  import opened Ledger
  import opened Rto
  import opened Congestion

  datatype UdxError = ConnectionReset | UnexpectedEof | TimedOut | BrokenPipe

  datatype Phase = Open | LocalClosed | RemoteClosed | BothClosed {
    function CloseLocal(): Phase {
      if RemoteClosed? || BothClosed? then BothClosed else LocalClosed
    }

    function CloseRemote(): Phase {
      if LocalClosed? || BothClosed? then BothClosed else RemoteClosed
    }

    predicate IsLocalClosed() {
      LocalClosed? || BothClosed?
    }
  }

  datatype IncomingPacket = InPacket(header: Header, buf: seq<Byte>, readOffset: nat)

  /** A received packet; reading never moves its offset past its end. */
  type InPacket = p: IncomingPacket | p.readOffset <= |p.buf|
    witness IncomingPacket.InPacket(Header(0, 0, 0, 0, 0, 0), [], 0)

  /** `log` is history: the body of every data packet ever created, by sequence number. */
  datatype Sender = Sender(
    nextSeq: nat, remoteAcked: nat, outgoing: Packets, inflight: int, cwnd: Window, rtt: Rtt,
    inflightPackets: int, inflightBytes: int, log: seq<seq<Byte>>)

  datatype Receiver = Receiver(ack: nat, readCursor: nat, incoming: map<nat, InPacket>)

  datatype Counters = Counters(txPackets: nat, txBytes: nat, rxBytes: nat, rxPackets: nat)

  /**
   A waker is kept only as "someone is parked". `finished` is a completed driver future, and
   `deadline` is what the retransmission timer is set to, counted from the start of the stream.
   */
  datatype State = State(
    remoteId: nat, snd: Sender, rcv: Receiver, queue: seq<Frame>,
    readWaker: bool, writeWaker: bool, driveWaker: bool,
    error: Option<UdxError>, phase: Phase, onClose: bool, finished: bool, counters: Counters, deadline: nat)

  function Connect(remoteId: nat): State {
    State(remoteId,
          Sender(0, 0, map[], 0, 2 * UDX_MTU, FRESH, 0, 0, []),
          Receiver(0, 0, map[]),
          [], false, false, false, None, Open, false, false, Counters(0, 0, 0, 0), ONE_SECOND)
  }

  // ----- packets the stream creates -----

  function CreateHeader(s: State, typ: nat): Header {
    var masked := if !s.phase.IsLocalClosed() then typ
                  else if HasType(typ, UDX_HEADER_END) then UDX_HEADER_END else 0;
    Header(masked, 0, s.remoteId, TWO_TO_THE_32 - 1, s.snd.nextSeq, s.rcv.ack)
  }

  function SendState(s: State): State {
    var typ := if s.error.Some? then UDX_HEADER_END else 0;
    s.(queue := s.queue + [Frame(CreateHeader(s, typ), [])],
       driveWaker := false,
       counters := s.counters.(txPackets := s.counters.txPackets + 1))
  }

  function Terminate(s: State, error: UdxError): State {
    SendState(s.(error := Some(error), phase := s.phase.CloseLocal()))
    .(readWaker := false, writeWaker := false)
  }

  function Close(s: State): State {
    Terminate(s, ConnectionReset).(onClose := true)
  }

  /** The part of `send_data_packet` past its window check. */
  function SendData(s: State, body: seq<Byte>): State {
    var header := CreateHeader(s, UDX_HEADER_DATA);
    var packet := OutPacket(header, body, false, 0, None, 1);
    s.(snd := s.snd.(nextSeq := s.snd.nextSeq + 1,
                     outgoing := s.snd.outgoing[header.seqno := packet],
                     inflight := s.snd.inflight + packet.Len(),
                     inflightPackets := s.snd.inflightPackets + 1,
                     inflightBytes := s.snd.inflightBytes + |body|,
                     log := s.snd.log + [body]),
       queue := s.queue + [Frame(header, body)],
       driveWaker := false,
       counters := s.counters.(txPackets := s.counters.txPackets + 1,
                               txBytes := s.counters.txBytes + |body|))
  }

  /** Sends chunks of `buf` until it is used up or the window is full; also says how much went. */
  function SendChunks(s: State, buf: seq<Byte>): (r: (State, nat))
    ensures r.1 <= |buf|
    decreases |buf|
  {
    var len := Min(|buf|, UDX_MAX_DATA_SIZE);
    if buf == [] || s.snd.inflight + len > s.snd.cwnd then (s, 0)
    else
      var (s', n) := SendChunks(SendData(s, buf[..len]), buf[len..]);
      (s', len + n)
  }

  datatype Poll<+T> = Ready(value: T) | Pending | Failed(error: UdxError)

  function PollWrite(s: State, buf: seq<Byte>): (r: (State, Poll<nat>))
    ensures r.1.Ready? ==> r.1.value <= |buf|
  {
    if s.error.Some? then (s, Failed(s.error.value))
    else if buf == [] then (s, Ready(0))
    else
      var (s', n) := SendChunks(s, buf);
      if n == 0 then (s'.(writeWaker := true), Pending) else (s', Ready(n))
  }

  // ----- acknowledgements -----

  /** Round-trip times of the packets in `[lo, hi)` that count as samples, in order. */
  function Samples(out: Packets, lo: nat, hi: nat, now: nat): seq<nat> {
    if lo >= hi then []
    else
      Samples(out, lo, hi - 1, now)
      + if hi - 1 in out && out[hi - 1].sentAt.Some? && out[hi - 1].transmits == 1
        then [if out[hi - 1].sentAt.value <= now then now - out[hi - 1].sentAt.value else 0]
        else []
  }

  /** Takes the packets numbered `[lo, hi)` out of `outgoing` and out of every sum. */
  function Retire(snd: Sender, lo: nat, hi: nat, now: nat): Sender {
    snd.(outgoing := Without(snd.outgoing, lo, hi),
         inflight := snd.inflight - Total(InFlight, snd.outgoing, lo, hi),
         inflightPackets := snd.inflightPackets - Total(Count, snd.outgoing, lo, hi),
         inflightBytes := snd.inflightBytes - Total(Body, snd.outgoing, lo, hi),
         rtt := Absorb(snd.rtt, Samples(snd.outgoing, lo, hi, now)))
  }

  /** `handle_incoming_max_remote_ack`. */
  function HandleAck(s: State, ack: nat, now: nat): State {
    if ack <= s.snd.remoteAcked then s
    else
      var snd := Retire(s.snd, s.snd.remoteAcked, ack, now).(remoteAcked := ack);
      s.(snd := snd, writeWaker := s.writeWaker && !(snd.inflight + UDX_MTU <= snd.cwnd),
         deadline := now + snd.rtt.rto)
  }

  /** The `[start, end)` blocks of a SACK body; like the source, a block that ends the body is not read. */
  function SackBlocks(buf: seq<Byte>, i: nat): seq<(nat, nat)>
    decreases |buf| - i
  {
    if i + 8 < |buf| then
      [(ReadU32Le(buf[i..i + 4]), ReadU32Le(buf[i + 4..i + 8]))] + SackBlocks(buf, i + 8)
    else []
  }

  function RetireBlocks(snd: Sender, blocks: seq<(nat, nat)>, now: nat): Sender
    decreases |blocks|
  {
    if blocks == [] then snd
    else RetireBlocks(Retire(snd, blocks[0].0, blocks[0].1, now), blocks[1..], now)
  }

  // ----- receiving -----

  /** The first number from `n` on that is not in `keys`. */
  function NextGap(keys: set<nat>, n: nat): (g: nat)
    ensures n <= g && g !in keys
    ensures forall k :: n <= k < g ==> k in keys
    decreases keys
  {
    if n in keys then NextGap(keys - {n}, n + 1) else n
  }

  function Insert(rcv: Receiver, f: Frame): Receiver {
    var incoming := if f.header.seqno >= rcv.ack
                    then rcv.incoming[f.header.seqno := InPacket(f.header, f.body, 0)]
                    else rcv.incoming;
    rcv.(incoming := incoming, ack := NextGap(incoming.Keys, rcv.ack))
  }

  function Store(s: State, f: Frame): State {
    var rcv := Insert(s.rcv, f);
    s.(rcv := rcv,
       readWaker := s.readWaker && !(f.header.seqno <= rcv.ack),
       counters := s.counters.(rxBytes := s.counters.rxBytes + |f.body|))
  }

  function GrowWindow(snd: Sender, ack: nat): Sender {
    if snd.remoteAcked < ack <= snd.nextSeq
    then snd.(cwnd := Grow(snd.cwnd)) else snd
  }

  function CountRx(s: State): State {
    s.(counters := s.counters.(rxPackets := s.counters.rxPackets + 1))
  }

  function TakeSacks(s: State, f: Frame, now: nat): State {
    if HasType(f.header.typ, UDX_HEADER_SACK)
    then s.(snd := RetireBlocks(s.snd, SackBlocks(f.body, 0), now))
    else s
  }

  function TakeEnd(s: State, f: Frame): State {
    if HasType(f.header.typ, UDX_HEADER_END)
    then Terminate(s.(phase := s.phase.CloseRemote()), UnexpectedEof)
    else s
  }

  function TakeData(s: State, f: Frame): State {
    if HasType(f.header.typ, UDX_HEADER_DATA) then SendState(Store(s, f)) else s
  }

  function TakeAck(s: State, f: Frame): State {
    s.(snd := GrowWindow(s.snd, f.header.ack))
  }

  /** `handle_incoming`, its parts in the order the source runs them. */
  function HandleIncoming(s: State, f: Frame, now: nat): State {
    TakeAck(TakeData(TakeEnd(TakeSacks(CountRx(s), f, now), f), f), f)
  }

  function HandleAll(s: State, batch: seq<Frame>, now: nat): State
    decreases |batch|
  {
    if batch == [] then s else HandleAll(HandleIncoming(s, batch[0], now), batch[1..], now)
  }

  function MaxAck(batch: seq<Frame>): nat {
    if batch == [] then 0 else Max(MaxAck(batch[..|batch| - 1]), batch[|batch| - 1].header.ack)
  }

  // ----- reading -----

  /** The bytes between the read cursor and `ack` that have not been read. */
  ghost function Readable(rcv: Receiver): seq<Byte>
    decreases rcv.ack - rcv.readCursor
  {
    if rcv.readCursor >= rcv.ack || rcv.readCursor !in rcv.incoming then []
    else
      var p := rcv.incoming[rcv.readCursor];
      p.buf[p.readOffset..] + Readable(rcv.(readCursor := rcv.readCursor + 1))
  }

  /** `read_next` into a buffer with `room` bytes left: new receiver, bytes appended, `did_read`. */
  function ReadNext(rcv: Receiver, room: nat): (Receiver, seq<Byte>, bool)
    decreases rcv.incoming.Keys
  {
    if rcv.readCursor !in rcv.incoming then (rcv, [], false)
    else
      var p := rcv.incoming[rcv.readCursor];
      var rest := p.buf[p.readOffset..];
      var taken := rcv.incoming - {rcv.readCursor};
      if |rest| > room then
        (rcv.(incoming := taken[p.header.seqno := p.(readOffset := p.readOffset + room)]), rest[..room], false)
      else
        var (rcv', bytes, _) := ReadNext(rcv.(incoming := taken, readCursor := rcv.readCursor + 1), room - |rest|);
        (rcv', rest + bytes, true)
  }

  datatype ReadResult = ReadResult(s: State, bytes: seq<Byte>, poll: Poll<()>)

  function PollRead(s: State, room: nat): ReadResult
  {
    var (rcv, bytes, didRead) := ReadNext(s.rcv, room);
    var s' := s.(rcv := rcv);
    if didRead then ReadResult(s', bytes, Ready(()))
    else if s.error.Some? then ReadResult(s', bytes, Failed(s.error.value))
    else ReadResult(s'.(readWaker := true), bytes, Pending)
  }

  // ----- timeouts and retransmission -----

  predicate Exhausted(p: OutPacket) {
    !p.waiting && p.transmits > UDX_MAX_TRANSMITS
  }

  /** Where the timeout loop over `[lo, hi)` gives up; `hi` if it does not. */
  function FirstExhausted(out: Packets, lo: nat, hi: nat): nat
    decreases hi - lo
  {
    if lo >= hi then hi
    else if lo in out && Exhausted(out[lo]) then lo
    else FirstExhausted(out, lo + 1, hi)
  }

  function Lose(p: OutPacket): OutPacket {
    if p.waiting then p else p.(waiting := true, transmits := p.transmits + 1)
  }

  /** Declares the packets of `[lo, hi)` lost: they wait for retransmission and leave `inflight`. */
  function MarkLost(snd: Sender, lo: nat, hi: nat): Sender {
    snd.(outgoing := map k | k in snd.outgoing ::
                       if lo <= k < hi then Lose(snd.outgoing[k]) else snd.outgoing[k],
         inflight := snd.inflight - Total(InFlight, snd.outgoing, lo, hi))
  }

  /** Whether a ready timer finds anything unacknowledged. */
  predicate Fires(snd: Sender, timer: bool) {
    timer && snd.remoteAcked != snd.nextSeq
  }

  /** What `poll_check_timeouts` does to the sender; `false` is the "Max retransmits reached" error. */
  function CheckTimeouts(snd: Sender, timer: bool): (Sender, bool) {
    if !Fires(snd, timer) then (snd, true)
    else
      var stop := FirstExhausted(snd.outgoing, snd.remoteAcked, snd.nextSeq);
      (MarkLost(snd.(cwnd := Max(UDX_MTU, snd.cwnd / 2)), snd.remoteAcked, stop), stop == snd.nextSeq)
  }

  /** `poll_check_timeouts`, which also sets the timer anew. */
  function CheckTimer(s: State, timer: bool, now: nat): (State, bool) {
    var (snd, ok) := CheckTimeouts(s.snd, timer);
    (s.(snd := snd, deadline := if Fires(s.snd, timer) then now + 2 * s.snd.rtt.rto else s.deadline), ok)
  }

  /** Where the flush loop breaks: at the first waiting packet that does not fit, or at `hi`. */
  function FlushStop(out: Packets, lo: nat, hi: nat, inflight: int, cwnd: nat): nat
    decreases hi - lo
  {
    if lo >= hi then hi
    else if lo in out && out[lo].waiting && inflight + out[lo].Len() > cwnd then lo
    else FlushStop(out, lo + 1, hi, inflight + WeightAt(Waiting, out, lo), cwnd)
  }

  /** The waiting packets of `[lo, hi)`, in order, as they go on the queue. */
  function WaitingFrames(out: Packets, lo: nat, hi: nat): seq<Frame> {
    if lo >= hi then []
    else
      WaitingFrames(out, lo, hi - 1)
      + if hi - 1 in out && out[hi - 1].waiting then [out[hi - 1].ToFrame()] else []
  }

  function Requeue(p: OutPacket): OutPacket {
    if p.waiting then p.(waiting := false, queued := p.queued + 1) else p
  }

  function MarkSent(snd: Sender, lo: nat, hi: nat): Sender {
    snd.(outgoing := map k | k in snd.outgoing ::
                       if lo <= k < hi then Requeue(snd.outgoing[k]) else snd.outgoing[k],
         inflight := snd.inflight + Total(Waiting, snd.outgoing, lo, hi))
  }

  /** `flush_waiting_packets`. */
  function Flush(s: State): State {
    var snd := s.snd;
    var stop := FlushStop(snd.outgoing, snd.remoteAcked, snd.nextSeq, snd.inflight, snd.cwnd);
    s.(snd := MarkSent(snd, snd.remoteAcked, stop),
       queue := s.queue + WaitingFrames(snd.outgoing, snd.remoteAcked, stop))
  }

  // ----- the driver -----

  datatype Outcome = Finished | Parked | Aborted(error: UdxError)

  datatype Driven = Driven(s: State, outcome: Outcome, sent: seq<Frame>)

  predicate ClosedAndDrained(s: State) {
    s.error.Some? && s.queue == [] && |s.snd.outgoing| == 0
  }

  /** The stream after `poll_incoming` and before the timeout check. */
  function Received(s: State, batch: seq<Frame>, now: nat): State {
    HandleAck(HandleAll(s, batch, now), MaxAck(batch), now)
  }

  /** The rest of a poll: the timeout check, the flush and the hand-over to the socket. */
  function Retransmit(s: State, timer: bool, now: nat): Driven {
    var (checked, ok) := CheckTimer(s, timer, now);
    if !ok then Driven(Terminate(checked, TimedOut), Aborted(TimedOut), [])
    else
      var flushed := Flush(checked);
      Driven(flushed.(queue := [], driveWaker := true), Parked, flushed.queue)
  }

  /**
   One poll of `StreamDriver`: `batch` is what the socket delivered, `hungUp` says that the
   socket went away, `timer` that the retransmission timer is ready.
   */
  function Drive(s: State, batch: seq<Frame>, hungUp: bool, timer: bool, now: nat): Driven {
    var awake := s.(driveWaker := false);
    if s.finished then Driven(s, Finished, [])
    else if ClosedAndDrained(awake) then
      Driven(awake.(onClose := false, finished := true), Finished, [])
    else if hungUp then
      Driven(Terminate(HandleAll(awake, batch, now), BrokenPipe), Aborted(BrokenPipe), [])
    else
      Retransmit(Received(awake, batch, now), timer, now)
  }

  /** The socket stamps the send time on a packet it holds a reference to. */
  function Stamp(s: State, k: nat, now: nat): State {
    if k in s.snd.outgoing
    then s.(snd := s.snd.(outgoing := s.snd.outgoing[k := s.snd.outgoing[k].(sentAt := Some(now))]))
    else s
  }

  // ----- runs of one stream -----

  datatype Action =
    | Write(buf: seq<Byte>)
    | Read(room: nat)
    | CloseStream
    | DriveOnce(batch: seq<Frame>, hungUp: bool, timer: bool, now: nat)
    | StampSent(k: nat, at: nat)

  function Apply(s: State, a: Action): State {
    match a
    case Write(buf) => PollWrite(s, buf).0
    case Read(room) => PollRead(s, room).s
    case CloseStream => Close(s)
    case DriveOnce(batch, hungUp, timer, now) => Drive(s, batch, hungUp, timer, now).s
    case StampSent(k, at) => Stamp(s, k, at)
  }

  function Run(s: State, acts: seq<Action>): State {
    if acts == [] then s else Apply(Run(s, acts[..|acts| - 1]), acts[|acts| - 1])
  }
}
