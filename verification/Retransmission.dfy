/**
 Timeouts and retransmission (src/stream.rs:340-437): which packets a flush queues, and what one
 firing of the timer does to the first packet it looks at. The timer looks at the packets from
 `remote_acked` on. A peer that acknowledges what was never sent can leave packets below that
 point outstanding; these stay in flight for good and take up room in the window.
 */
module Retransmission {
  import opened Constants
  import opened Ledger
  import opened StreamModel
  import opened StreamInvariant

  // ----- the flush, exactly -----

  /** A waiting packet is reached exactly when it and every waiting packet before it fit. */
  lemma {:induction false} FlushStopExact(out: Packets, lo: nat, hi: nat, inflight: int, cwnd: nat, k: nat)
    requires lo <= k < hi && k in out && out[k].waiting
    ensures k < FlushStop(out, lo, hi, inflight, cwnd) <==> inflight + Total(Waiting, out, lo, k + 1) <= cwnd
    decreases hi - lo
  {
    TotalSplit(Waiting, out, lo, lo + 1, k + 1);
    assert Total(Waiting, out, lo, lo + 1) == WeightAt(Waiting, out, lo);
    FlushStopInside(out, lo + 1, hi, inflight + WeightAt(Waiting, out, lo), cwnd);
    if k > lo && !(lo in out && out[lo].waiting && inflight + out[lo].Len() > cwnd) {
      FlushStopExact(out, lo + 1, hi, inflight + WeightAt(Waiting, out, lo), cwnd, k);
    }
  }

  /**
   `flush_waiting_packets` queues precisely the longest prefix of waiting packets, by sequence
   number, that fits in the window: packet `k` goes exactly when the waiting bytes up to and
   including it fit beside what is in flight.
   */
  lemma FlushIsExact(s: State, k: nat)
    requires s.snd.remoteAcked <= k < s.snd.nextSeq && k in s.snd.outgoing && s.snd.outgoing[k].waiting
    ensures var p, p' := s.snd.outgoing[k], Flush(s).snd.outgoing[k];
      p' == if s.snd.inflight + Total(Waiting, s.snd.outgoing, s.snd.remoteAcked, k + 1) <= s.snd.cwnd
            then p.(waiting := false, queued := p.queued + 1) else p
  {
    FlushStopExact(s.snd.outgoing, s.snd.remoteAcked, s.snd.nextSeq, s.snd.inflight, s.snd.cwnd, k);
  }

  ghost predicate IsWaitingFrame(f: Frame, out: Packets, lo: nat, hi: nat) {
    && lo <= f.header.seqno < hi && f.header.seqno in out
    && out[f.header.seqno].waiting && f == out[f.header.seqno].ToFrame()
  }

  ghost predicate Ascending(w: seq<Frame>) {
    forall i, j :: 0 <= i < j < |w| ==> w[i].header.seqno < w[j].header.seqno
  }

  /** The queued packets, in increasing sequence order, are exactly the waiting ones of the range. */
  lemma {:induction false} WaitingFramesExact(out: Packets, lo: nat, hi: nat)
    requires forall k :: k in out ==> out[k].header.seqno == k
    ensures Ascending(WaitingFrames(out, lo, hi))
    ensures forall f :: f in WaitingFrames(out, lo, hi) <==> IsWaitingFrame(f, out, lo, hi)
  {
    if lo < hi {
      WaitingFramesExact(out, lo, hi - 1);
      var w0, w := WaitingFrames(out, lo, hi - 1), WaitingFrames(out, lo, hi);
      if hi - 1 in out && out[hi - 1].waiting {
        var last := out[hi - 1].ToFrame();
        assert w == w0 + [last];
        forall i, j | 0 <= i < j < |w| ensures w[i].header.seqno < w[j].header.seqno {
          assert w[i] == w0[i] && w0[i] in w0;
        }
        forall f ensures f in w <==> IsWaitingFrame(f, out, lo, hi) {
          assert f in w <==> f in w0 || f == last;
        }
      } else {
        assert w == w0;
        assert forall f :: IsWaitingFrame(f, out, lo, hi) <==> IsWaitingFrame(f, out, lo, hi - 1);
      }
    }
  }

  // ----- one firing of the timer -----

  ghost predicate KeysInRange(snd: Sender) {
    forall k :: k in snd.outgoing ==> snd.remoteAcked <= k < snd.nextSeq
  }

  /** The first outstanding packet that the timer looks at. */
  ghost predicate FirstDue(snd: Sender, k: nat) {
    k in snd.outgoing && snd.remoteAcked <= k && forall j :: j in snd.outgoing && snd.remoteAcked <= j ==> k <= j
  }

  /** The bytes in flight that no timeout takes out of flight. */
  function OutOfReach(snd: Sender): nat {
    Total(InFlight, snd.outgoing, 0, snd.remoteAcked)
  }

  /** The window after `n` timeouts. */
  function Halved(cwnd: nat, n: nat): nat {
    if n == 0 then cwnd else Max(UDX_MTU, Halved(cwnd, n - 1) / 2)
  }

  lemma {:induction false} HalvedShift(cwnd: nat, n: nat)
    ensures Halved(Halved(cwnd, 1), n) == Halved(cwnd, n + 1)
  {
    if n > 0 {
      HalvedShift(cwnd, n - 1);
    }
  }

  lemma {:induction false} HalvedShrinks(cwnd: nat, m: nat, n: nat)
    requires cwnd >= UDX_MTU && m <= n
    ensures UDX_MTU <= Halved(cwnd, n) <= Halved(cwnd, m)
  {
    if n > 0 {
      HalvedShrinks(cwnd, if m < n then m else n - 1, n - 1);
    }
  }

  lemma {:induction false} HalvedAtFloor(n: nat)
    ensures Halved(UDX_MTU, n) == UDX_MTU
  {
    if n > 0 {
      HalvedAtFloor(n - 1);
    }
  }

  lemma DueIsBelow(snd: Sender, k: nat)
    requires PacketsOk(snd) && FirstDue(snd, k)
    ensures snd.remoteAcked <= k < snd.nextSeq && PacketOk(snd.outgoing[k], k, snd.log[k])
  {
  }

  /** A timeout that goes through takes everything out of flight that is in reach. */
  lemma AllDueLost(snd: Sender)
    requires Conserved(snd) && snd.remoteAcked <= snd.nextSeq
    ensures var lost := MarkLost(snd, snd.remoteAcked, snd.nextSeq);
      lost.inflight == OutOfReach(snd) == OutOfReach(lost)
  {
    var lost := MarkLost(snd, snd.remoteAcked, snd.nextSeq);
    TotalSplit(InFlight, snd.outgoing, 0, snd.remoteAcked, snd.nextSeq);
    TotalAgree(InFlight, snd.outgoing, lost.outgoing, 0, snd.remoteAcked);
  }

  lemma NothingOutOfReach(snd: Sender)
    requires KeysInRange(snd)
    ensures OutOfReach(snd) == 0
  {
    TotalZero(InFlight, snd.outgoing, 0, snd.remoteAcked);
  }

  /** The flush gets to the first due packet before any other. */
  lemma FlushFirst(s: State, k: nat)
    requires PacketsOk(s.snd) && FirstDue(s.snd, k)
    ensures var p := s.snd.outgoing[k];
      Flush(s).snd.outgoing[k] == if s.snd.inflight + p.Len() <= s.snd.cwnd then Requeue(p) else p
  {
    hide FlushStop;
    var out, ra := s.snd.outgoing, s.snd.remoteAcked;
    if out[k].waiting {
      TotalZero(Waiting, out, ra, k);
      FlushIsExact(s, k);
    }
  }

  lemma FlushOutOfReach(s: State)
    ensures OutOfReach(Flush(s).snd) == OutOfReach(s.snd)
  {
    hide FlushStop;
    TotalAgree(InFlight, s.snd.outgoing, Flush(s).snd.outgoing, 0, s.snd.remoteAcked);
  }

  /**
   After a successful timeout the flush of the same poll queues the first due packet exactly when
   it fits the halved window beside what is out of reach.
   */
  lemma TimeoutRestartsFirst(s: State, k: nat)
    requires SenderInv(s.snd) && FirstDue(s.snd, k)
    requires Fires(s.snd, true) && CheckTimeouts(s.snd, true).1
    ensures !Flush(s.(snd := CheckTimeouts(s.snd, true).0)).snd.outgoing[k].waiting <==>
      OutOfReach(s.snd) + s.snd.outgoing[k].Len() <= Halved(s.snd.cwnd, 1)
  {
    hide SenderInv, Flush, Conserved;
    AfterTimeout(s.snd, k);
    var lost := CheckTimeouts(s.snd, true).0;
    FlushFirst(s.(snd := lost), k);
  }

  /** With nothing out of reach it always fits. */
  lemma TimeoutAlwaysRestartsFirst(s: State, k: nat)
    requires SenderInv(s.snd) && KeysInRange(s.snd) && FirstDue(s.snd, k)
    requires Fires(s.snd, true) && CheckTimeouts(s.snd, true).1
    ensures !Flush(s.(snd := CheckTimeouts(s.snd, true).0)).snd.outgoing[k].waiting
  {
    hide Flush, CheckTimeouts;
    TimeoutRestartsFirst(s, k);
    NothingOutOfReach(s.snd);
    DueIsBelow(s.snd, k);
    HalvedShrinks(s.snd.cwnd, 0, 1);
  }

  lemma AfterTimeout(snd: Sender, k: nat)
    requires SenderInv(snd) && FirstDue(snd, k) && Fires(snd, true) && CheckTimeouts(snd, true).1
    ensures var lost := CheckTimeouts(snd, true).0;
      && PacketsOk(lost) && FirstDue(lost, k) && lost.outgoing[k] == Lose(snd.outgoing[k])
      && lost.inflight == OutOfReach(snd) == OutOfReach(lost) && lost.cwnd == Halved(snd.cwnd, 1)
  {
    DueIsBelow(snd, k);
    TimeoutInv(snd, true);
    AllDueLost(snd.(cwnd := Max(UDX_MTU, snd.cwnd / 2)));
    assert Halved(snd.cwnd, 1) == Max(UDX_MTU, Halved(snd.cwnd, 0) / 2);
  }

  // ----- runs in which the peer is silent -----

  /** How many more timeouts a packet can survive. */
  function Patience(p: OutPacket): int {
    MOST_TRANSMITS - p.transmits + (if p.waiting then 1 else 0)
  }

  /** Nothing in the action acknowledges anything new. */
  predicate Silent(a: Action, acked: nat) {
    a.DriveOnce? ==> forall i :: 0 <= i < |a.batch| ==> NoSack(a.batch[i]) && a.batch[i].header.ack <= acked
  }

  ghost predicate AllSilent(acts: seq<Action>, acked: nat) {
    forall i :: 0 <= i < |acts| ==> Silent(acts[i], acked)
  }

  /** The action is a poll in which the timer is found ready with something unacknowledged. */
  predicate Firing(s: State, a: Action) {
    && a.DriveOnce? && !s.finished && !a.hungUp && !ClosedAndDrained(s.(driveWaker := false))
    && Fires(Received(s.(driveWaker := false), a.batch, a.now).snd, a.timer)
  }

  predicate GivesUp(s: State, a: Action) {
    a.DriveOnce? && Drive(s, a.batch, a.hungUp, a.timer, a.now).outcome == Aborted(TimedOut)
  }

  /** How many polls of the run found the timer ready with something unacknowledged. */
  function Firings(s: State, acts: seq<Action>): nat {
    if acts == [] then 0
    else
      var init := acts[..|acts| - 1];
      Firings(s, init) + if Firing(Run(s, init), acts[|acts| - 1]) then 1 else 0
  }

  ghost predicate NeverGivesUp(s: State, acts: seq<Action>) {
    acts != [] ==>
      && NeverGivesUp(s, acts[..|acts| - 1])
      && !GivesUp(Run(s, acts[..|acts| - 1]), acts[|acts| - 1])
  }

  /** Silent packets leave the sender alone, its window included. */
  lemma SilentReceived(s: State, batch: seq<Frame>, now: nat)
    requires forall i :: 0 <= i < |batch| ==> NoSack(batch[i]) && batch[i].header.ack <= s.snd.remoteAcked
    ensures Received(s, batch, now).snd == s.snd && Received(s, batch, now).finished == s.finished
  {
    hide HandleAll;
    SilentHandled(s, batch, now);
    HandleAllFrame(s, batch, now);
    MaxAckBelow(batch, s.snd.remoteAcked);
  }

  lemma {:induction false} SilentHandled(s: State, batch: seq<Frame>, now: nat)
    requires forall i :: 0 <= i < |batch| ==> NoSack(batch[i]) && batch[i].header.ack <= s.snd.remoteAcked
    ensures HandleAll(s, batch, now).snd == s.snd
    decreases |batch|
  {
    hide HandleIncoming;
    if batch != [] {
      IncomingSender(s, batch[0], now);
      SilentHandled(HandleIncoming(s, batch[0], now), batch[1..], now);
    }
  }

  lemma SendDataAdds(s: State, body: seq<Byte>)
    requires Inv(s)
    ensures var snd, snd' := s.snd, SendData(s, body).snd;
      && snd'.nextSeq == snd.nextSeq + 1 && snd'.remoteAcked == snd.remoteAcked && snd'.cwnd == snd.cwnd
      && SendData(s, body).finished == s.finished
      && snd'.outgoing.Keys == snd.outgoing.Keys + {snd.nextSeq} && snd.nextSeq !in snd.outgoing
      && forall j :: j in snd.outgoing ==> snd'.outgoing[j] == snd.outgoing[j]
  {
    hide Total;
  }

  lemma {:induction false} SendChunksAdds(s: State, buf: seq<Byte>)
    requires Inv(s) && s.error.None?
    ensures var s' := SendChunks(s, buf).0;
      && s.snd.nextSeq <= s'.snd.nextSeq && s'.snd.remoteAcked == s.snd.remoteAcked && s'.finished == s.finished
      && s'.snd.cwnd == s.snd.cwnd
      && (forall j :: j in s.snd.outgoing ==> j in s'.snd.outgoing && s'.snd.outgoing[j] == s.snd.outgoing[j])
      && (forall j :: j in s'.snd.outgoing && j !in s.snd.outgoing ==> s.snd.nextSeq <= j < s'.snd.nextSeq)
    decreases |buf|
  {
    var len := Min(|buf|, UDX_MAX_DATA_SIZE);
    if buf != [] && s.snd.inflight + len <= s.snd.cwnd {
      hide Inv, Total, CreateHeader, SendData;
      SendDataInv(s, buf[..len]);
      SendDataAdds(s, buf[..len]);
      SendChunksAdds(SendData(s, buf[..len]), buf[len..]);
    }
  }

  /** A stream gives up only when some packet in flight has been queued seven times. */
  lemma GivesUpOnlyAfterSevenSends(s: State, a: Action) returns (k: nat)
    requires Inv(s) && GivesUp(s, a)
    ensures var out := Received(s.(driveWaker := false), a.batch, a.now).snd.outgoing;
      k in out && !out[k].waiting && out[k].queued == 7
  {
    var received := Received(s.(driveWaker := false), a.batch, a.now);
    ReceivedInv(s.(driveWaker := false), a.batch, a.now);
    var snd := received.snd;
    BeforeFirstExhausted(snd.outgoing, snd.remoteAcked, snd.nextSeq);
    k := FirstExhausted(snd.outgoing, snd.remoteAcked, snd.nextSeq);
    assert PacketOk(snd.outgoing[k], k, snd.log[k]);
  }
}
