/**
 When a stream whose peer has gone silent gives up (src/stream.rs:354-437), exactly. It does so
 after at most seven effective firings of the timer unless the first packet the timer looks at
 stops fitting the shrinking window, because of packets in flight that the timer does not reach.
 */
module GivingUp {
  import opened Constants
  import opened Ledger
  import opened StreamModel
  import opened StreamInvariant
  import opened Retransmission
  import opened Rto
  import opened Window
  import opened Wire

  // ----- older packets are tried at least as often -----

  /** `i` has been lost at least as often as `j`, and more often if it waits while `j` does not. */
  predicate TriedBefore(p: OutPacket, q: OutPacket) {
    q.transmits + (if p.waiting && !q.waiting then 1 else 0) <= p.transmits
  }

  ghost predicate InOrder(snd: Sender) {
    forall i, j :: snd.remoteAcked <= i < j && i in snd.outgoing && j in snd.outgoing ==>
      TriedBefore(snd.outgoing[i], snd.outgoing[j])
  }

  /** Fewer packets, or a higher `remote_acked`, cannot break the order. */
  lemma FewerInOrder(snd: Sender, snd': Sender)
    requires InOrder(snd) && snd.remoteAcked <= snd'.remoteAcked
    requires forall k :: k in snd'.outgoing ==>
      k in snd.outgoing && snd'.outgoing[k].transmits == snd.outgoing[k].transmits
      && snd'.outgoing[k].waiting == snd.outgoing[k].waiting
    ensures InOrder(snd')
  {
  }

  lemma SendDataInOrder(s: State, body: seq<Byte>)
    requires Inv(s) && InOrder(s.snd)
    ensures InOrder(SendData(s, body).snd)
  {
    var snd, snd' := s.snd, SendData(s, body).snd;
    forall i, j | snd.remoteAcked <= i < j && i in snd'.outgoing && j in snd'.outgoing
      ensures TriedBefore(snd'.outgoing[i], snd'.outgoing[j])
    {
      assert i in snd.outgoing && PacketOk(snd.outgoing[i], i, snd.log[i]);
    }
  }

  lemma {:induction false} ChunksInOrder(s: State, buf: seq<Byte>)
    requires Inv(s) && s.error.None? && InOrder(s.snd)
    ensures InOrder(SendChunks(s, buf).0.snd)
    decreases |buf|
  {
    hide Inv, SendData, InOrder;
    var len := Min(|buf|, UDX_MAX_DATA_SIZE);
    if buf != [] && s.snd.inflight + len <= s.snd.cwnd {
      SendDataInOrder(s, buf[..len]);
      SendDataInv(s, buf[..len]);
      ChunksInOrder(SendData(s, buf[..len]), buf[len..]);
    }
  }

  lemma {:induction false} BatchInOrder(s: State, batch: seq<Frame>, now: nat)
    requires Inv(s) && InOrder(s.snd)
    ensures InOrder(HandleAll(s, batch, now).snd)
    decreases |batch|
  {
    hide Inv, HandleIncoming, InOrder;
    if batch != [] {
      IncomingInOrder(s, batch[0], now);
      HandleIncomingInv(s, batch[0], now);
      BatchInOrder(HandleIncoming(s, batch[0], now), batch[1..], now);
    }
  }

  lemma IncomingInOrder(s: State, f: Frame, now: nat)
    requires Inv(s) && InOrder(s.snd)
    ensures InOrder(HandleIncoming(s, f, now).snd)
  {
    hide HandleIncoming, RetireBlocks, SackBlocks;
    IncomingSender(s, f, now);
    RetireBlocksInv(s.snd, SackBlocks(f.body, 0), now);
    FewerInOrder(s.snd, HandleIncoming(s, f, now).snd);
  }

  lemma LostInOrder(snd: Sender, hi: nat)
    requires InOrder(snd)
    ensures InOrder(MarkLost(snd, snd.remoteAcked, hi))
  {
  }

  lemma SentInOrder(snd: Sender, hi: nat)
    requires InOrder(snd)
    ensures InOrder(MarkSent(snd, snd.remoteAcked, hi))
  {
  }

  lemma RetransmitInOrder(s: State, timer: bool, now: nat)
    requires InOrder(s.snd)
    ensures InOrder(Retransmit(s, timer, now).s.snd)
  {
    hide MarkLost, MarkSent, FirstExhausted, FlushStop;
    var snd := CheckTimeouts(s.snd, timer).0;
    var shrunk := s.snd.(cwnd := Max(UDX_MTU, s.snd.cwnd / 2));
    FewerInOrder(s.snd, shrunk);
    LostInOrder(shrunk, FirstExhausted(s.snd.outgoing, s.snd.remoteAcked, s.snd.nextSeq));
    assert snd.remoteAcked == s.snd.remoteAcked by {
      LostKeepsAcked(shrunk, FirstExhausted(s.snd.outgoing, s.snd.remoteAcked, s.snd.nextSeq));
    }
    SentInOrder(snd, FlushStop(snd.outgoing, snd.remoteAcked, snd.nextSeq, snd.inflight, snd.cwnd));
  }

  lemma LostKeepsAcked(snd: Sender, hi: nat)
    ensures MarkLost(snd, snd.remoteAcked, hi).remoteAcked == snd.remoteAcked
  {
  }

  lemma PollInOrder(s: State, a: Action)
    requires Inv(s) && InOrder(s.snd) && a.DriveOnce?
    ensures InOrder(Apply(s, a).snd)
  {
    hide Inv, HandleAll, Retransmit, InOrder;
    var awake := s.(driveWaker := false);
    assert Inv(awake) by {
      AwakeInv(s);
    }
    BatchInOrder(awake, a.batch, a.now);
    var all := HandleAll(awake, a.batch, a.now);
    AckInOrder(all, MaxAck(a.batch), a.now);
    RetransmitInOrder(Received(awake, a.batch, a.now), a.timer, a.now);
  }

  lemma AwakeInv(s: State)
    requires Inv(s)
    ensures Inv(s.(driveWaker := false))
  {
  }

  lemma AckInOrder(s: State, ack: nat, now: nat)
    requires InOrder(s.snd)
    ensures InOrder(HandleAck(s, ack, now).snd)
  {
    FewerInOrder(s.snd, HandleAck(s, ack, now).snd);
  }

  lemma StepInOrder(s: State, a: Action)
    requires Inv(s) && InOrder(s.snd)
    ensures InOrder(Apply(s, a).snd)
  {
    hide Drive, Inv, SendChunks, ReadNext;
    match a
    case Write(buf) =>
      if s.error.None? {
        ChunksInOrder(s, buf);
      }
    case DriveOnce(_, _, _, _) => PollInOrder(s, a);
    case StampSent(_, _) => FewerInOrder(s.snd, Apply(s, a).snd);
    case Read(_) =>
    case CloseStream =>
  }

  /** In every run, of two packets that the timer looks at the older has been tried at least as often. */
  lemma {:induction false} OlderTriedMore(remoteId: nat, acts: seq<Action>)
    ensures InOrder(Run(Connect(remoteId), acts).snd)
  {
    hide Inv, Apply;
    if acts != [] {
      OlderTriedMore(remoteId, acts[..|acts| - 1]);
      InvAlways(remoteId, acts[..|acts| - 1]);
      StepInOrder(Run(Connect(remoteId), acts[..|acts| - 1]), acts[|acts| - 1]);
    }
  }

  // ----- what one action does to the first due packet -----

  /** The first due packet, its length and the bytes out of reach are as they were. */
  ghost predicate SameProspect(snd: Sender, snd': Sender, k: nat) {
    && FirstDue(snd, k) && FirstDue(snd', k)
    && snd'.remoteAcked == snd.remoteAcked && snd'.nextSeq >= snd.nextSeq
    && OutOfReach(snd') == OutOfReach(snd) && snd'.outgoing[k].Len() == snd.outgoing[k].Len()
  }

  lemma FlushProspect(s: State, k: nat)
    requires PacketsOk(s.snd) && FirstDue(s.snd, k)
    ensures var snd' := Flush(s).snd;
      && SameProspect(s.snd, snd', k) && snd'.cwnd == s.snd.cwnd
      && var p := s.snd.outgoing[k];
         Patience(snd'.outgoing[k]) == Patience(p)
           - if p.waiting && s.snd.inflight + p.Len() <= s.snd.cwnd then 1 else 0
  {
    hide FlushStop, OutOfReach;
    FlushFirst(s, k);
    FlushOutOfReach(s);
  }

  /** A poll in which the timer does not fire can only send the first due packet again. */
  lemma IdlePoll(s: State, timer: bool, now: nat, k: nat)
    requires PacketsOk(s.snd) && FirstDue(s.snd, k) && !Fires(s.snd, timer)
    ensures var snd' := Retransmit(s, timer, now).s.snd;
      && SameProspect(s.snd, snd', k) && snd'.cwnd == s.snd.cwnd
      && var p := s.snd.outgoing[k];
         Patience(snd'.outgoing[k]) == Patience(p)
           - if p.waiting && s.snd.inflight + p.Len() <= s.snd.cwnd then 1 else 0
  {
    hide Flush, SameProspect;
    FlushProspect(s, k);
  }

  /** A firing that does not give up costs the first due packet one try exactly when it still fits. */
  lemma FiringPoll(s: State, timer: bool, now: nat, k: nat)
    requires SenderInv(s.snd) && FirstDue(s.snd, k) && Fires(s.snd, timer) && CheckTimeouts(s.snd, timer).1
    ensures var snd' := Retransmit(s, timer, now).s.snd;
      && SameProspect(s.snd, snd', k) && snd'.cwnd == Halved(s.snd.cwnd, 1)
      && var p := s.snd.outgoing[k];
         Patience(snd'.outgoing[k]) == Patience(p)
           - if OutOfReach(s.snd) + p.Len() <= Halved(s.snd.cwnd, 1) then 1 else 0
  {
    hide Flush, CheckTimeouts, OutOfReach, SenderInv, PacketsOk, Halved;
    AfterTimeout(s.snd, k);
    var checked := CheckTimer(s, timer, now).0;
    LostKeepsRange(s.snd, timer);
    FlushProspect(checked, k);
  }

  lemma LostKeepsRange(snd: Sender, timer: bool)
    ensures var snd' := CheckTimeouts(snd, timer).0;
      && snd'.remoteAcked == snd.remoteAcked && snd'.nextSeq == snd.nextSeq
      && snd'.outgoing.Keys == snd.outgoing.Keys
  {
  }

  /** The stream gives up if the first due packet is exhausted; if the order is kept, only then. */
  lemma FirstExhaustsFirst(snd: Sender, timer: bool, k: nat)
    requires PacketsOk(snd) && FirstDue(snd, k) && Fires(snd, timer)
    ensures Patience(snd.outgoing[k]) == 0 ==> !CheckTimeouts(snd, timer).1
    ensures InOrder(snd) && Patience(snd.outgoing[k]) > 0 ==> CheckTimeouts(snd, timer).1
  {
    DueIsBelow(snd, k);
    BeforeFirstExhausted(snd.outgoing, snd.remoteAcked, snd.nextSeq);
    var e := FirstExhausted(snd.outgoing, snd.remoteAcked, snd.nextSeq);
    if e < snd.nextSeq && InOrder(snd) {
      assert PacketOk(snd.outgoing[e], e, snd.log[e]);
    }
  }

  // ----- the exact condition -----

  /** The first due packet fits the window as often as it can still be sent. */
  ghost predicate KeepsFitting(snd: Sender, k: nat)
    requires FirstDue(snd, k)
  {
    var n := Patience(snd.outgoing[k]);
    n <= 0 || OutOfReach(snd) + snd.outgoing[k].Len() <= Halved(snd.cwnd, n)
  }

  /** What decides whether a silent peer is given up. */
  ghost predicate WillGiveUp(snd: Sender) {
    exists k :: FirstDue(snd, k) && KeepsFitting(snd, k)
  }

  ghost predicate Stuck(s: State, k: nat) {
    Inv(s) && !s.finished && FirstDue(s.snd, k) && KeepsFitting(s.snd, k)
  }

  /** With less patience left, the packet needs to fit less often. */
  lemma LessPatienceFits(snd: Sender, snd': Sender, k: nat)
    requires SameProspect(snd, snd', k) && KeepsFitting(snd, k) && snd.cwnd >= UDX_MTU
    requires snd'.cwnd == snd.cwnd && Patience(snd'.outgoing[k]) <= Patience(snd.outgoing[k])
    ensures KeepsFitting(snd', k)
  {
    hide OutOfReach, Halved;
    var n, n' := Patience(snd.outgoing[k]), Patience(snd'.outgoing[k]);
    if n' > 0 {
      HalvedShrinks(snd.cwnd, n', n);
    }
  }

  /** After a firing, the condition for the rest of the run is the one for the whole run. */
  lemma FittingAfterFiring(snd: Sender, snd': Sender, k: nat)
    requires SameProspect(snd, snd', k) && snd.cwnd >= UDX_MTU && snd'.cwnd == Halved(snd.cwnd, 1)
    requires Patience(snd.outgoing[k]) > 0
    requires Patience(snd'.outgoing[k]) == Patience(snd.outgoing[k])
      - if OutOfReach(snd) + snd.outgoing[k].Len() <= Halved(snd.cwnd, 1) then 1 else 0
    ensures KeepsFitting(snd', k) <==> KeepsFitting(snd, k)
    ensures KeepsFitting(snd, k) ==> Patience(snd'.outgoing[k]) == Patience(snd.outgoing[k]) - 1
    ensures !KeepsFitting(snd', k) ==> Patience(snd'.outgoing[k]) > 0
  {
    hide OutOfReach, Halved;
    var n := Patience(snd.outgoing[k]);
    HalvedShrinks(snd.cwnd, 1, n);
    HalvedShift(snd.cwnd, n - 1);
    HalvedShift(snd.cwnd, n);
    HalvedShrinks(snd.cwnd, n, n + 1);
    HalvedShrinks(snd.cwnd, 1, n + 1);
  }

  // ----- it gives up if the condition holds -----

  lemma HasOutgoing(s: State, k: nat)
    requires k in s.snd.outgoing
    ensures !ClosedAndDrained(s.(driveWaker := false))
  {
  }

  /** Silent packets leave the rest of the poll what it would be without them. */
  lemma SilentDrive(s: State, a: Action)
    requires !s.finished && !ClosedAndDrained(s.(driveWaker := false))
    requires a.DriveOnce? && Silent(a, s.snd.remoteAcked)
    ensures var received := Received(s.(driveWaker := false), a.batch, a.now);
      && received.snd == s.snd && !received.finished
      && Firing(s, a) == (!a.hungUp && Fires(s.snd, a.timer))
      && (a.hungUp ==> Apply(s, a).snd == s.snd && !Apply(s, a).finished && !GivesUp(s, a))
      && (!a.hungUp ==> Apply(s, a) == Retransmit(received, a.timer, a.now).s)
      && (!a.hungUp ==> GivesUp(s, a) == !CheckTimeouts(s.snd, a.timer).1)
  {
    hide HandleAll, HandleAck, CheckTimeouts;
    var awake := s.(driveWaker := false);
    SilentHandled(awake, a.batch, a.now);
    HandleAllFrame(awake, a.batch, a.now);
    SilentReceived(awake, a.batch, a.now);
  }

  lemma RetransmitKeepsRunning(s: State, timer: bool, now: nat)
    ensures Retransmit(s, timer, now).s.finished == s.finished
  {
    hide CheckTimeouts;
  }

  lemma SilentPoll(s: State, a: Action, k: nat)
    requires Stuck(s, k) && a.DriveOnce? && Silent(a, s.snd.remoteAcked) && !GivesUp(s, a)
    ensures var s' := Apply(s, a);
      && Stuck(s', k) && s'.snd.remoteAcked == s.snd.remoteAcked
      && Patience(s'.snd.outgoing[k]) <= Patience(s.snd.outgoing[k]) - (if Firing(s, a) then 1 else 0)
  {
    hide Apply, GivesUp, Firing, Retransmit, CheckTimeouts, Received, KeepsFitting, SenderInv, ReceiverInv;
    HasOutgoing(s, k);
    SilentDrive(s, a);
    ApplyInv(s, a);
    if !a.hungUp {
      var received := Received(s.(driveWaker := false), a.batch, a.now);
      RetransmitKeepsRunning(received, a.timer, a.now);
      SilentRetransmit(received, a.timer, a.now, k);
    }
  }

  lemma SilentRetransmit(s: State, timer: bool, now: nat, k: nat)
    requires SenderInv(s.snd) && FirstDue(s.snd, k) && KeepsFitting(s.snd, k) && CheckTimeouts(s.snd, timer).1
    ensures var snd' := Retransmit(s, timer, now).s.snd;
      && FirstDue(snd', k) && KeepsFitting(snd', k) && snd'.remoteAcked == s.snd.remoteAcked
      && Patience(snd'.outgoing[k]) <= Patience(s.snd.outgoing[k]) - (if Fires(s.snd, timer) then 1 else 0)
  {
    hide Retransmit, CheckTimeouts, KeepsFitting, OutOfReach;
    var snd' := Retransmit(s, timer, now).s.snd;
    DueIsBelow(s.snd, k);
    if Fires(s.snd, timer) {
      FirstExhaustsFirst(s.snd, timer, k);
      FiringPoll(s, timer, now, k);
      FittingAfterFiring(s.snd, snd', k);
    } else {
      IdlePoll(s, timer, now, k);
      LessPatienceFits(s.snd, snd', k);
    }
  }

  lemma SilentWrite(s: State, buf: seq<Byte>, k: nat)
    requires Stuck(s, k)
    ensures var s' := PollWrite(s, buf).0;
      Stuck(s', k) && s'.snd.remoteAcked == s.snd.remoteAcked && s'.snd.outgoing[k] == s.snd.outgoing[k]
  {
    hide SendChunks;
    WriteInv(s, buf);
    if s.error.None? {
      SendChunksAdds(s, buf);
      DueIsBelow(s.snd, k);
      TotalAgree(InFlight, s.snd.outgoing, SendChunks(s, buf).0.snd.outgoing, 0, s.snd.remoteAcked);
    }
  }

  lemma SilentOther(s: State, a: Action, k: nat)
    requires Stuck(s, k) && !a.DriveOnce? && !a.Write?
    ensures var s' := Apply(s, a);
      && Stuck(s', k) && s'.snd.remoteAcked == s.snd.remoteAcked
      && Patience(s'.snd.outgoing[k]) == Patience(s.snd.outgoing[k])
  {
    ApplyInv(s, a);
    if a.StampSent? {
      hide Inv, Apply;
      StampProspect(s, a.k, a.at, k);
      StampApplies(s, a.k, a.at);
    } else {
      hide Inv, Drive, PollWrite, ReadNext, KeepsFitting;
    }
  }

  lemma StampApplies(s: State, k: nat, at: nat)
    ensures Apply(s, StampSent(k, at)) == Stamp(s, k, at)
  {
  }

  lemma StampProspect(s: State, j: nat, at: nat, k: nat)
    requires FirstDue(s.snd, k)
    ensures var s' := Stamp(s, j, at);
      && FirstDue(s'.snd, k) && (KeepsFitting(s'.snd, k) <==> KeepsFitting(s.snd, k))
      && s'.finished == s.finished && s'.snd.remoteAcked == s.snd.remoteAcked
      && Patience(s'.snd.outgoing[k]) == Patience(s.snd.outgoing[k])
  {
    hide Halved, OutOfReach;
    StampOutOfReach(s, j, at);
  }

  lemma StampOutOfReach(s: State, k: nat, at: nat)
    ensures OutOfReach(Stamp(s, k, at).snd) == OutOfReach(s.snd)
  {
    TotalAgree(InFlight, s.snd.outgoing, Stamp(s, k, at).snd.outgoing, 0, s.snd.remoteAcked);
  }

  lemma SilentStep(s: State, a: Action, k: nat)
    requires Stuck(s, k) && Silent(a, s.snd.remoteAcked) && !GivesUp(s, a)
    ensures var s' := Apply(s, a);
      && Stuck(s', k) && s'.snd.remoteAcked == s.snd.remoteAcked
      && Patience(s'.snd.outgoing[k]) <= Patience(s.snd.outgoing[k]) - (if Firing(s, a) then 1 else 0)
  {
    hide Stuck, PollWrite, PollRead, Close, Drive, Received;
    if a.DriveOnce? {
      SilentPoll(s, a, k);
    } else if a.Write? {
      SilentWrite(s, a.buf, k);
    } else {
      SilentOther(s, a, k);
    }
  }

  lemma {:induction false} FiringsUsePatience(s: State, k: nat, acts: seq<Action>)
    requires Stuck(s, k) && NeverGivesUp(s, acts) && AllSilent(acts, s.snd.remoteAcked)
    ensures var s' := Run(s, acts);
      && Stuck(s', k) && s'.snd.remoteAcked == s.snd.remoteAcked
      && Firings(s, acts) + Patience(s'.snd.outgoing[k]) <= Patience(s.snd.outgoing[k])
  {
    hide Stuck, Apply, Firing, GivesUp;
    if acts != [] {
      var init := acts[..|acts| - 1];
      FiringsUsePatience(s, k, init);
      SilentStep(Run(s, init), acts[|acts| - 1], k);
    }
  }

  lemma PatienceOfDue(s: State, k: nat)
    requires Inv(s) && k in s.snd.outgoing
    ensures 0 <= Patience(s.snd.outgoing[k]) <= 6
  {
    assert PacketOk(s.snd.outgoing[k], k, s.snd.log[k]);
  }

  /**
   A stream whose first due packet keeps fitting the window gives up if it hears no new
   acknowledgement: without a `TimedOut` the timer cannot fire more often than that packet has
   patience, which is at most six times, whatever else is written, read or received meanwhile.
   */
  lemma BoundedRetry(s: State, k: nat, acts: seq<Action>)
    requires Stuck(s, k) && AllSilent(acts, s.snd.remoteAcked)
    ensures Firings(s, acts) > Patience(s.snd.outgoing[k]) ==> !NeverGivesUp(s, acts)
    ensures Firings(s, acts) >= 7 ==> !NeverGivesUp(s, acts)
  {
    hide Run, Firings, NeverGivesUp, Inv;
    PatienceOfDue(s, k);
    if NeverGivesUp(s, acts) {
      FiringsUsePatience(s, k, acts);
      PatienceOfDue(Run(s, acts), k);
    }
  }

  // ----- and only then -----

  /** A poll in which nothing arrives and the timer is ready. */
  const TICK: Action := DriveOnce([], false, true, 0)

  function Ticks(n: nat): (acts: seq<Action>)
    ensures |acts| == n && forall i :: 0 <= i < n ==> acts[i] == TICK
  {
    if n == 0 then [] else Ticks(n - 1) + [TICK]
  }

  /** A run of ticks, one at a time. */
  lemma OneMoreTick(s: State, n: nat)
    ensures Run(s, Ticks(n + 1)) == Apply(Run(s, Ticks(n)), TICK)
    ensures NeverGivesUp(s, Ticks(n)) && !GivesUp(Run(s, Ticks(n)), TICK) ==> NeverGivesUp(s, Ticks(n + 1))
    ensures Firings(s, Ticks(n + 1)) == Firings(s, Ticks(n)) + if Firing(Run(s, Ticks(n)), TICK) then 1 else 0
  {
    hide Apply, GivesUp, Firing;
    var acts := Ticks(n + 1);
    assert acts[..|acts| - 1] == Ticks(n) && acts[|acts| - 1] == TICK;
  }

  lemma NoTick(s: State)
    ensures Run(s, Ticks(0)) == s && NeverGivesUp(s, Ticks(0)) && Firings(s, Ticks(0)) == 0
  {
  }

  lemma {:induction false} FirstKey(snd: Sender, lo: nat, some: nat) returns (k: nat)
    requires some in snd.outgoing && lo <= some && snd.remoteAcked <= lo
    requires forall j :: j in snd.outgoing && snd.remoteAcked <= j ==> lo <= j
    ensures FirstDue(snd, k)
    decreases some - lo
  {
    if lo in snd.outgoing {
      k := lo;
    } else {
      assert forall j :: j in snd.outgoing && snd.remoteAcked <= j ==> j != lo;
      k := FirstKey(snd, lo + 1, some);
    }
  }

  /** There is data outstanding, the timer is effective, and the condition fails. */
  ghost predicate Hopeless(s: State) {
    && Inv(s) && InOrder(s.snd) && !s.finished
    && |s.snd.outgoing| > 0 && s.snd.remoteAcked != s.snd.nextSeq
    && !WillGiveUp(s.snd)
  }

  ghost predicate NothingDue(snd: Sender) {
    forall j :: j in snd.outgoing ==> j < snd.remoteAcked
  }

  lemma NothingDueIsHopeless(snd: Sender)
    requires NothingDue(snd)
    ensures !WillGiveUp(snd)
  {
    hide KeepsFitting;
    assert forall k: nat :: FirstDue(snd, k) ==> k in snd.outgoing;
  }

  lemma DueIsHopeless(snd: Sender, k: nat)
    requires FirstDue(snd, k)
    ensures WillGiveUp(snd) <==> KeepsFitting(snd, k)
  {
    hide KeepsFitting;
    assert forall j :: FirstDue(snd, j) ==> j == k;
  }

  lemma NothingDueRetransmit(s: State, timer: bool, now: nat)
    requires NothingDue(s.snd)
    ensures var snd' := Retransmit(s, timer, now).s.snd;
      && CheckTimeouts(s.snd, timer).1 && snd'.outgoing == s.snd.outgoing
      && snd'.remoteAcked == s.snd.remoteAcked && snd'.nextSeq == s.snd.nextSeq
      && snd'.cwnd == (if Fires(s.snd, timer) then Halved(s.snd.cwnd, 1) else s.snd.cwnd)
  {
    hide Flush, CheckTimeouts, Halved;
    NothingDueTimeout(s.snd, timer);
    NothingDueFlush(CheckTimer(s, timer, now).0);
  }

  lemma NothingDueTimeout(snd: Sender, timer: bool)
    requires NothingDue(snd)
    ensures var (snd', ok) := CheckTimeouts(snd, timer);
      && ok && snd'.outgoing == snd.outgoing && snd'.remoteAcked == snd.remoteAcked && snd'.nextSeq == snd.nextSeq
      && snd'.cwnd == (if Fires(snd, timer) then Halved(snd.cwnd, 1) else snd.cwnd)
  {
    hide Total;
    BeforeFirstExhausted(snd.outgoing, snd.remoteAcked, snd.nextSeq);
    assert Halved(snd.cwnd, 1) == Max(UDX_MTU, Halved(snd.cwnd, 0) / 2);
  }

  lemma NothingDueFlush(s: State)
    requires NothingDue(s.snd)
    ensures var snd' := Flush(s).snd;
      && snd'.outgoing == s.snd.outgoing && snd'.remoteAcked == s.snd.remoteAcked
      && snd'.nextSeq == s.snd.nextSeq && snd'.cwnd == s.snd.cwnd
  {
    hide FlushStop, WaitingFrames, Total;
  }

  lemma DueRetransmitFires(s: State, timer: bool, now: nat, k: nat)
    requires SenderInv(s.snd) && InOrder(s.snd) && FirstDue(s.snd, k) && !KeepsFitting(s.snd, k)
    requires Fires(s.snd, timer)
    ensures var snd' := Retransmit(s, timer, now).s.snd;
      && CheckTimeouts(s.snd, timer).1 && FirstDue(snd', k) && !KeepsFitting(snd', k)
      && SameProspect(s.snd, snd', k) && snd'.cwnd == Halved(s.snd.cwnd, 1)
  {
    hide Retransmit, CheckTimeouts, OutOfReach, Halved, InOrder;
    FirstExhaustsFirst(s.snd, timer, k);
    FiringPoll(s, timer, now, k);
    FittingAfterFiring(s.snd, Retransmit(s, timer, now).s.snd, k);
  }

  /** At its floor the window no longer changes, and a packet that does not fit then never does. */
  lemma DueRetransmitIdle(s: State, timer: bool, now: nat, k: nat)
    requires SenderInv(s.snd) && FirstDue(s.snd, k) && !KeepsFitting(s.snd, k)
    requires !Fires(s.snd, timer) && s.snd.cwnd == UDX_MTU
    ensures var snd' := Retransmit(s, timer, now).s.snd;
      && CheckTimeouts(s.snd, timer).1 && FirstDue(snd', k) && !KeepsFitting(snd', k)
      && SameProspect(s.snd, snd', k) && snd'.cwnd == UDX_MTU
  {
    hide Retransmit;
    DueIsBelow(s.snd, k);
    IdlePoll(s, timer, now, k);
    TotalSplit(InFlight, s.snd.outgoing, 0, s.snd.remoteAcked, s.snd.nextSeq);
    HalvedAtFloor(Patience(s.snd.outgoing[k]));
  }

  lemma RetransmitKeepsKeys(s: State, timer: bool, now: nat)
    ensures var snd' := Retransmit(s, timer, now).s.snd;
      && |snd'.outgoing| == |s.snd.outgoing|
      && snd'.remoteAcked == s.snd.remoteAcked && snd'.nextSeq == s.snd.nextSeq
  {
    hide FirstExhausted, FlushStop, WaitingFrames, Total;
    var snd' := Retransmit(s, timer, now).s.snd;
    assert snd'.outgoing.Keys == s.snd.outgoing.Keys;
    assert |snd'.outgoing| == |snd'.outgoing.Keys| && |s.snd.outgoing| == |s.snd.outgoing.Keys|;
  }

  lemma HopelessRetransmit(s: State, timer: bool, now: nat)
    requires SenderInv(s.snd) && InOrder(s.snd) && !WillGiveUp(s.snd)
    requires Fires(s.snd, timer) || s.snd.cwnd == UDX_MTU
    ensures var snd' := Retransmit(s, timer, now).s.snd;
      && CheckTimeouts(s.snd, timer).1 && !WillGiveUp(snd')
      && (s.snd.cwnd == UDX_MTU ==> snd'.cwnd == UDX_MTU)
  {
    hide Retransmit, CheckTimeouts, KeepsFitting, SenderInv, InOrder, WillGiveUp, OutOfReach, Halved;
    var snd' := Retransmit(s, timer, now).s.snd;
    HalvedAtFloor(1);
    if NothingDue(s.snd) {
      NothingDueRetransmit(s, timer, now);
      NothingDueIsHopeless(snd');
    } else {
      var some :| some in s.snd.outgoing && s.snd.remoteAcked <= some;
      var k := FirstKey(s.snd, s.snd.remoteAcked, some);
      DueIsHopeless(s.snd, k);
      if Fires(s.snd, timer) {
        DueRetransmitFires(s, timer, now, k);
      } else {
        DueRetransmitIdle(s, timer, now, k);
      }
      DueIsHopeless(snd', k);
    }
  }

  lemma HopelessPoll(s: State, a: Action)
    requires Hopeless(s) && a.DriveOnce? && Silent(a, s.snd.remoteAcked)
    requires Firing(s, a) || s.snd.cwnd == UDX_MTU
    ensures !GivesUp(s, a) && Hopeless(Apply(s, a)) && Apply(s, a).snd.remoteAcked == s.snd.remoteAcked
    ensures s.snd.cwnd == UDX_MTU ==> Apply(s, a).snd.cwnd == UDX_MTU
  {
    hide Retransmit, CheckTimeouts, InOrder, WillGiveUp, Received, Apply, GivesUp, SenderInv, ReceiverInv;
    NotDrained(s);
    SilentDrive(s, a);
    ApplyInv(s, a);
    StepInOrder(s, a);
    if !a.hungUp {
      var received := Received(s.(driveWaker := false), a.batch, a.now);
      HopelessRetransmit(received, a.timer, a.now);
      RetransmitKeepsKeys(received, a.timer, a.now);
      RetransmitKeepsRunning(received, a.timer, a.now);
    }
  }

  lemma NotDrained(s: State)
    requires |s.snd.outgoing| > 0
    ensures !ClosedAndDrained(s.(driveWaker := false))
  {
  }

  lemma HopelessOther(s: State, a: Action)
    requires Hopeless(s) && !a.DriveOnce? && !a.Write?
    ensures Hopeless(Apply(s, a)) && Apply(s, a).snd.remoteAcked == s.snd.remoteAcked
    ensures Apply(s, a).snd.cwnd == s.snd.cwnd
  {
    hide Inv, InOrder, Drive, PollWrite, ReadNext, WillGiveUp;
    ApplyInv(s, a);
    StepInOrder(s, a);
    if a.StampSent? {
      StampKeepsProspect(s, a.k, a.at);
    }
  }

  lemma StampKeepsProspect(s: State, k: nat, at: nat)
    ensures var snd, snd' := s.snd, Stamp(s, k, at).snd;
      && (WillGiveUp(snd') ==> WillGiveUp(snd)) && |snd'.outgoing| == |snd.outgoing|
  {
    hide Halved, OutOfReach;
    var snd, snd' := s.snd, Stamp(s, k, at).snd;
    assert snd'.outgoing.Keys == snd.outgoing.Keys;
    assert |snd'.outgoing| == |snd'.outgoing.Keys| && |snd.outgoing| == |snd.outgoing.Keys|;
    StampOutOfReach(s, k, at);
    forall j | FirstDue(snd', j) && KeepsFitting(snd', j) ensures WillGiveUp(snd) {
      assert FirstDue(snd, j) && KeepsFitting(snd, j);
    }
  }

  /** At the floor, no silent run without writes ever gives up. */
  lemma {:induction false} HopelessRun(s: State, acts: seq<Action>)
    requires Hopeless(s) && s.snd.cwnd == UDX_MTU && AllSilent(acts, s.snd.remoteAcked)
    requires forall i :: 0 <= i < |acts| ==> !acts[i].Write?
    ensures var s' := Run(s, acts);
      NeverGivesUp(s, acts) && Hopeless(s') && s'.snd.cwnd == UDX_MTU && s'.snd.remoteAcked == s.snd.remoteAcked
  {
    hide Hopeless, Apply;
    if acts != [] {
      var init, last := acts[..|acts| - 1], acts[|acts| - 1];
      HopelessRun(s, init);
      if last.DriveOnce? {
        hide GivesUp;
        HopelessPoll(Run(s, init), last);
      } else {
        HopelessOther(Run(s, init), last);
      }
    }
  }

  /** Whatever the window, there is a run with as many firings as one likes that does not give up. */
  lemma {:induction false} HopelessTicks(s: State, n: nat)
    requires Hopeless(s)
    ensures NeverGivesUp(s, Ticks(n)) && Firings(s, Ticks(n)) == n && Hopeless(Run(s, Ticks(n)))
  {
    hide Hopeless, Apply, GivesUp, Firing, Run, Ticks, NeverGivesUp, Firings;
    if n == 0 {
      NoTick(s);
    } else {
      HopelessTicks(s, n - 1);
      OneMoreTick(s, n - 1);
      TickFires(Run(s, Ticks(n - 1)));
      HopelessPoll(Run(s, Ticks(n - 1)), TICK);
    }
  }

  lemma TickFires(s: State)
    requires Hopeless(s)
    ensures Firing(s, TICK)
  {
    hide Inv, InOrder, WillGiveUp, Received;
    NotDrained(s);
    SilentDrive(s, TICK);
  }

  lemma TicksAreSilent(n: nat, acked: nat)
    ensures AllSilent(Ticks(n), acked)
  {
  }

  // ----- how long it takes -----

  /** One tick costs the first due packet at most one try. */
  lemma PatientTick(s: State, k: nat)
    requires Inv(s) && InOrder(s.snd) && !s.finished && FirstDue(s.snd, k) && Patience(s.snd.outgoing[k]) > 0
    ensures Firing(s, TICK) && !GivesUp(s, TICK)
    ensures var s' := Apply(s, TICK);
      && Inv(s') && InOrder(s'.snd) && !s'.finished && FirstDue(s'.snd, k)
      && Patience(s'.snd.outgoing[k]) >= Patience(s.snd.outgoing[k]) - 1
  {
    hide Retransmit, CheckTimeouts, InOrder, Received, Apply, GivesUp, Firing, ReceiverInv, SenderInv, Conserved;
    HasOutgoing(s, k);
    SilentDrive(s, TICK);
    ApplyInv(s, TICK);
    StepInOrder(s, TICK);
    SenderParts(s.snd);
    DueIsBelow(s.snd, k);
    FirstExhaustsFirst(s.snd, true, k);
    var received := Received(s.(driveWaker := false), [], 0);
    FiringPoll(received, true, 0, k);
    RetransmitKeepsRunning(received, true, 0);
  }

  lemma SenderParts(snd: Sender)
    requires SenderInv(snd)
    ensures PacketsOk(snd)
  {
  }

  /** A stream gives nobody up before its first due packet is out of patience. */
  lemma {:induction false} PatientTicks(s: State, k: nat, n: nat)
    requires Inv(s) && InOrder(s.snd) && !s.finished && FirstDue(s.snd, k) && n <= Patience(s.snd.outgoing[k])
    ensures NeverGivesUp(s, Ticks(n)) && Firings(s, Ticks(n)) == n
    ensures var s' := Run(s, Ticks(n));
      && Inv(s') && InOrder(s'.snd) && !s'.finished && FirstDue(s'.snd, k)
      && Patience(s'.snd.outgoing[k]) >= Patience(s.snd.outgoing[k]) - n
  {
    hide Inv, InOrder, Apply, GivesUp, Firing, Run, Ticks, NeverGivesUp, Firings;
    if n == 0 {
      NoTick(s);
    } else {
      PatientTicks(s, k, n - 1);
      OneMoreTick(s, n - 1);
      PatientTick(Run(s, Ticks(n - 1)), k);
    }
  }

  // ----- giving up loses nothing -----

  /** The first due packet is exhausted first, so a timeout that gives up only halves the window. */
  lemma GivingUpLosesNothing(snd: Sender, timer: bool)
    requires PacketsOk(snd) && InOrder(snd) && !CheckTimeouts(snd, timer).1
    ensures CheckTimeouts(snd, timer).0 == snd.(cwnd := Max(UDX_MTU, snd.cwnd / 2))
  {
    BeforeFirstExhausted(snd.outgoing, snd.remoteAcked, snd.nextSeq);
    var e := FirstExhausted(snd.outgoing, snd.remoteAcked, snd.nextSeq);
    var k := FirstKey(snd, snd.remoteAcked, e);
    FirstExhaustsFirst(snd, timer, k);
    DueIsBelow(snd, k);
    ExhaustedDueStops(snd, k);
    var out := MarkLost(snd, snd.remoteAcked, e).outgoing;
    assert out == snd.outgoing;
    TotalZero(InFlight, snd.outgoing, snd.remoteAcked, e);
  }

  lemma ExhaustedDueStops(snd: Sender, k: nat)
    requires PacketsOk(snd) && FirstDue(snd, k) && Exhausted(snd.outgoing[k])
    ensures FirstExhausted(snd.outgoing, snd.remoteAcked, snd.nextSeq) == k
  {
    DueIsBelow(snd, k);
    BeforeFirstExhausted(snd.outgoing, snd.remoteAcked, snd.nextSeq);
  }

  /**
   In every run, a poll that gives up changes nothing in the sender but halves its window. The bytes
   in flight are then within it, one header aside, exactly when they were within the half of it.
   */
  lemma WindowAfterGivingUp(remoteId: nat, acts: seq<Action>, a: Action)
    requires GivesUp(Run(Connect(remoteId), acts), a)
    ensures var s := Run(Connect(remoteId), acts);
      var received := Received(s.(driveWaker := false), a.batch, a.now).snd;
      var snd := Apply(s, a).snd;
      && snd == received.(cwnd := Max(UDX_MTU, received.cwnd / 2))
      && (snd.inflight <= snd.cwnd + UDX_HEADER_SIZE <==>
          received.inflight <= Max(UDX_MTU, received.cwnd / 2) + UDX_HEADER_SIZE)
  {
    hide Run, HandleAll, HandleAck, CheckTimeouts, InOrder, SenderInv, ReceiverInv;
    var s := Run(Connect(remoteId), acts);
    InvAlways(remoteId, acts);
    OlderTriedMore(remoteId, acts);
    var awake := s.(driveWaker := false);
    BatchInOrder(awake, a.batch, a.now);
    AckInOrder(HandleAll(awake, a.batch, a.now), MaxAck(a.batch), a.now);
    ReceivedInv(awake, a.batch, a.now);
    var received := Received(awake, a.batch, a.now);
    SenderParts(received.snd);
    GivingUpLosesNothing(received.snd, a.timer);
  }

  // ----- what was lost is not on the queue -----

  /** Between actions, a packet that has been lost is not waiting on the queue. */
  ghost predicate QueueFresh(s: State) {
    forall i :: 0 <= i < |s.queue| && HasType(s.queue[i].header.typ, UDX_HEADER_DATA) ==>
      FreshAt(s.snd, s.queue[i].header.seqno)
  }

  ghost predicate FreshAt(snd: Sender, k: nat) {
    k < snd.nextSeq && (k in snd.outgoing ==> snd.outgoing[k].transmits == 0)
  }

  /** Fewer packets and more packets without data keep the queue fresh. */
  lemma FresherQueue(s: State, s': State)
    requires QueueFresh(s) && s'.snd.nextSeq == s.snd.nextSeq
    requires forall k :: k in s'.snd.outgoing ==>
      k in s.snd.outgoing && s'.snd.outgoing[k].transmits == s.snd.outgoing[k].transmits
    requires s.queue <= s'.queue
    requires forall i :: |s.queue| <= i < |s'.queue| ==> !HasType(s'.queue[i].header.typ, UDX_HEADER_DATA)
    ensures QueueFresh(s')
  {
    forall i | 0 <= i < |s'.queue| && HasType(s'.queue[i].header.typ, UDX_HEADER_DATA)
      ensures FreshAt(s'.snd, s'.queue[i].header.seqno)
    {
      assert s'.queue[i] == s.queue[i] && FreshAt(s.snd, s.queue[i].header.seqno);
    }
  }

  lemma SendStateFresh(s: State)
    requires QueueFresh(s)
    ensures QueueFresh(SendState(s))
  {
    FresherQueue(s, SendState(s));
  }

  lemma TerminateFresh(s: State, e: UdxError)
    requires QueueFresh(s)
    ensures QueueFresh(Terminate(s, e))
  {
    var closed := s.(error := Some(e), phase := s.phase.CloseLocal());
    FresherQueue(s, closed);
    SendStateFresh(closed);
  }

  lemma SendDataFresh(s: State, body: seq<Byte>)
    requires Inv(s) && QueueFresh(s)
    ensures QueueFresh(SendData(s, body))
  {
    var s' := SendData(s, body);
    forall i | 0 <= i < |s'.queue| && HasType(s'.queue[i].header.typ, UDX_HEADER_DATA)
      ensures FreshAt(s'.snd, s'.queue[i].header.seqno)
    {
      assert i < |s.queue| ==> s'.queue[i] == s.queue[i] && FreshAt(s.snd, s.queue[i].header.seqno);
    }
  }

  lemma {:induction false} ChunksFresh(s: State, buf: seq<Byte>)
    requires Inv(s) && s.error.None? && QueueFresh(s)
    ensures QueueFresh(SendChunks(s, buf).0)
    decreases |buf|
  {
    hide Inv, SendData, QueueFresh;
    var len := Min(|buf|, UDX_MAX_DATA_SIZE);
    if buf != [] && s.snd.inflight + len <= s.snd.cwnd {
      SendDataFresh(s, buf[..len]);
      SendDataInv(s, buf[..len]);
      ChunksFresh(SendData(s, buf[..len]), buf[len..]);
    }
  }

  lemma IncomingFresh(s: State, f: Frame, now: nat)
    requires Inv(s) && QueueFresh(s)
    ensures QueueFresh(HandleIncoming(s, f, now))
  {
    hide TakeSacks, TakeEnd, TakeData, QueueFresh;
    var sacked := TakeSacks(CountRx(s), f, now);
    SacksFresh(s, f, now);
    EndFresh(sacked, f);
    DataFresh(TakeEnd(sacked, f), f);
    AckFieldFresh(TakeData(TakeEnd(sacked, f), f), f);
  }

  lemma SacksFresh(s: State, f: Frame, now: nat)
    requires Inv(s) && QueueFresh(s)
    ensures QueueFresh(TakeSacks(CountRx(s), f, now))
  {
    RetireBlocksInv(s.snd, SackBlocks(f.body, 0), now);
    hide RetireBlocks, SackBlocks, QueueFresh, Inv;
    FresherQueue(s, TakeSacks(CountRx(s), f, now));
  }

  lemma EndFresh(s: State, f: Frame)
    requires QueueFresh(s)
    ensures QueueFresh(TakeEnd(s, f))
  {
    hide QueueFresh, Terminate;
    var closed := s.(phase := s.phase.CloseRemote());
    FresherQueue(s, closed);
    TerminateFresh(closed, UnexpectedEof);
  }

  lemma DataFresh(s: State, f: Frame)
    requires QueueFresh(s)
    ensures QueueFresh(TakeData(s, f))
  {
    hide QueueFresh, SendState, Insert;
    FresherQueue(s, Store(s, f));
    SendStateFresh(Store(s, f));
  }

  lemma AckFieldFresh(s: State, f: Frame)
    requires QueueFresh(s)
    ensures QueueFresh(TakeAck(s, f))
  {
    hide QueueFresh;
    FresherQueue(s, TakeAck(s, f));
  }

  lemma {:induction false} BatchFresh(s: State, batch: seq<Frame>, now: nat)
    requires Inv(s) && QueueFresh(s)
    ensures QueueFresh(HandleAll(s, batch, now))
    decreases |batch|
  {
    hide Inv, HandleIncoming, QueueFresh;
    if batch != [] {
      IncomingFresh(s, batch[0], now);
      HandleIncomingInv(s, batch[0], now);
      BatchFresh(HandleIncoming(s, batch[0], now), batch[1..], now);
    }
  }

  lemma AckFresh(s: State, ack: nat, now: nat)
    requires QueueFresh(s)
    ensures QueueFresh(HandleAck(s, ack, now))
  {
    hide QueueFresh, Absorb, Samples, Total;
    FresherQueue(s, HandleAck(s, ack, now));
  }

  lemma RetransmitFresh(s: State, timer: bool, now: nat)
    requires PacketsOk(s.snd) && InOrder(s.snd) && QueueFresh(s)
    ensures QueueFresh(Retransmit(s, timer, now).s)
  {
    hide CheckTimeouts, QueueFresh, InOrder, Flush, Terminate;
    if CheckTimeouts(s.snd, timer).1 {
      EmptyIsFresh(Retransmit(s, timer, now).s);
    } else {
      GivingUpLosesNothing(s.snd, timer);
      var checked := CheckTimer(s, timer, now).0;
      FresherQueue(s, checked);
      TerminateFresh(checked, TimedOut);
    }
  }

  lemma EmptyIsFresh(s: State)
    requires s.queue == []
    ensures QueueFresh(s)
  {
  }

  lemma PollFresh(s: State, a: Action)
    requires Inv(s) && InOrder(s.snd) && QueueFresh(s) && a.DriveOnce?
    ensures QueueFresh(Apply(s, a))
  {
    hide HandleAll, HandleAck, Retransmit, QueueFresh, InOrder, SenderInv, ReceiverInv, Terminate;
    var awake := s.(driveWaker := false);
    FresherQueue(s, awake);
    FresherQueue(s, awake.(onClose := false, finished := true));
    BatchFresh(awake, a.batch, a.now);
    BatchInOrder(awake, a.batch, a.now);
    var all := HandleAll(awake, a.batch, a.now);
    TerminateFresh(all, BrokenPipe);
    AckFresh(all, MaxAck(a.batch), a.now);
    AckInOrder(all, MaxAck(a.batch), a.now);
    ReceivedInv(awake, a.batch, a.now);
    SenderParts(Received(awake, a.batch, a.now).snd);
    RetransmitFresh(Received(awake, a.batch, a.now), a.timer, a.now);
  }

  lemma StepFresh(s: State, a: Action)
    requires Inv(s) && InOrder(s.snd) && QueueFresh(s)
    ensures QueueFresh(Apply(s, a))
  {
    hide Inv, InOrder, QueueFresh, Drive, SendChunks, ReadNext, Terminate;
    match a
    case Write(buf) =>
      if s.error.None? {
        ChunksFresh(s, buf);
        FresherQueue(SendChunks(s, buf).0, SendChunks(s, buf).0.(writeWaker := true));
      }
    case DriveOnce(_, _, _, _) => PollFresh(s, a);
    case StampSent(_, _) => FresherQueue(s, Apply(s, a));
    case Read(_) => FresherQueue(s, Apply(s, a));
    case CloseStream =>
      TerminateFresh(s, ConnectionReset);
      FresherQueue(Terminate(s, ConnectionReset), Close(s));
  }

  /** In every run, no packet that was ever declared lost is on the queue between two actions. */
  lemma {:induction false} LostIsNotQueued(remoteId: nat, acts: seq<Action>)
    ensures QueueFresh(Run(Connect(remoteId), acts))
  {
    hide Inv, InOrder, Apply;
    if acts != [] {
      var init := acts[..|acts| - 1];
      LostIsNotQueued(remoteId, init);
      InvAlways(remoteId, init);
      OlderTriedMore(remoteId, init);
      StepFresh(Run(Connect(remoteId), init), acts[|acts| - 1]);
    }
  }

  // ----- a silent peer and the driver -----

  lemma SilentKeepsKey(s: State, a: Action, k: nat)
    requires Inv(s) && !s.finished && k in s.snd.outgoing && Silent(a, s.snd.remoteAcked)
    ensures var s' := Apply(s, a); !s'.finished && k in s'.snd.outgoing && s'.snd.remoteAcked == s.snd.remoteAcked
  {
    if a.DriveOnce? {
      hide Apply, Received, CheckTimeouts, Retransmit, Firing, GivesUp;
      HasOutgoing(s, k);
      SilentDrive(s, a);
      var received := Received(s.(driveWaker := false), a.batch, a.now);
      RetransmitKeepsRunning(received, a.timer, a.now);
      RetransmitKeepsKeySet(received, a.timer, a.now);
    } else {
      hide Drive, SendChunks, ReadNext, Inv;
      if a.Write? && s.error.None? {
        SendChunksAdds(s, a.buf);
      }
    }
  }

  lemma RetransmitKeepsKeySet(s: State, timer: bool, now: nat)
    ensures var snd' := Retransmit(s, timer, now).s.snd;
      snd'.outgoing.Keys == s.snd.outgoing.Keys && snd'.remoteAcked == s.snd.remoteAcked
  {
    hide FirstExhausted, FlushStop, WaitingFrames, Total;
  }

  /**
   A driver with outstanding data never completes while the peer is silent, not even after it has
   given up: a `close()` is not answered and the socket is not told.
   */
  lemma {:induction false} SilentPeerHoldsDriver(s: State, k: nat, acts: seq<Action>)
    requires Inv(s) && !s.finished && k in s.snd.outgoing && AllSilent(acts, s.snd.remoteAcked)
    ensures var s' := Run(s, acts);
      Inv(s') && !s'.finished && k in s'.snd.outgoing && s'.snd.remoteAcked == s.snd.remoteAcked
  {
    hide Inv, Apply, Silent;
    if acts != [] {
      var init, last := acts[..|acts| - 1], acts[|acts| - 1];
      SilentPeerHoldsDriver(s, k, init);
      assert Silent(last, s.snd.remoteAcked);
      SilentKeepsKey(Run(s, init), last, k);
      ApplyInv(Run(s, init), last);
    }
  }

  // ----- the theorem -----

  /** Every silent run in which the timer fires `n` times gives up. */
  ghost predicate SilentRunsGiveUp(s: State, n: nat) {
    forall acts :: AllSilent(acts, s.snd.remoteAcked) && Firings(s, acts) >= n ==> !NeverGivesUp(s, acts)
  }

  /**
   In every state of every run, whatever the peer acknowledged before: with data outstanding and
   an effective timer, all silent runs with seven firings give up if and only if there is a packet
   due and the first such packet fits, beside what is out of reach, the window that is left after
   as many timeouts as it has patience.
   */
  lemma GivesUpExactly(remoteId: nat, before: seq<Action>)
    requires var s := Run(Connect(remoteId), before);
      !s.finished && |s.snd.outgoing| > 0 && s.snd.remoteAcked != s.snd.nextSeq
    ensures var s := Run(Connect(remoteId), before); SilentRunsGiveUp(s, 7) <==> WillGiveUp(s.snd)
  {
    hide Run, Inv, InOrder, Firings, NeverGivesUp, KeepsFitting;
    var s := Run(Connect(remoteId), before);
    InvAlways(remoteId, before);
    OlderTriedMore(remoteId, before);
    if WillGiveUp(s.snd) {
      var k :| FirstDue(s.snd, k) && KeepsFitting(s.snd, k);
      forall acts | AllSilent(acts, s.snd.remoteAcked) && Firings(s, acts) >= 7 ensures !NeverGivesUp(s, acts) {
        BoundedRetry(s, k, acts);
      }
    } else {
      HopelessTicks(s, 7);
      TicksAreSilent(7, s.snd.remoteAcked);
    }
  }

  /** With nothing out of reach, the first due packet always fits. */
  lemma InReachWillGiveUp(snd: Sender)
    requires SenderInv(snd) && KeysInRange(snd) && |snd.outgoing| > 0
    ensures WillGiveUp(snd)
  {
    hide OutOfReach, Halved, Conserved;
    var some :| some in snd.outgoing;
    var k := FirstKey(snd, snd.remoteAcked, some);
    NothingOutOfReach(snd);
    DueIsBelow(snd, k);
    HalvedShrinks(snd.cwnd, 0, Patience(snd.outgoing[k]));
  }

  /**
   With a peer that acknowledged only what was sent, the seventh effective firing without news from
   the peer finds the stream given up, however it got to have outstanding data.
   */
  lemma SilentPeerIsGivenUp(remoteId: nat, before: seq<Action>, acts: seq<Action>)
    requires SoundRun(Connect(remoteId), before) && NeverGivesUp(Connect(remoteId), before)
    requires var s := Run(Connect(remoteId), before);
      && |s.snd.outgoing| > 0 && !s.finished && Firings(s, acts) >= 7
      && AllSilent(acts, s.snd.remoteAcked)
    ensures !NeverGivesUp(Run(Connect(remoteId), before), acts)
  {
    hide Run, Firings, NeverGivesUp, SoundRun, SenderInv, ReceiverInv, KeepsFitting;
    var s := Run(Connect(remoteId), before);
    WindowSafety(remoteId, before);
    InvAlways(remoteId, before);
    InReachWillGiveUp(s.snd);
    var k :| FirstDue(s.snd, k) && KeepsFitting(s.snd, k);
    BoundedRetry(s, k, acts);
  }

  // ----- a peer that acknowledges what was never sent -----

  lemma OverAcknowledgedTimer(s: State, timer: bool, now: nat)
    requires s.snd.nextSeq <= s.snd.remoteAcked
    ensures var d := Retransmit(s, timer, now);
      && d.outcome != Aborted(TimedOut)
      && d.s.snd.nextSeq == s.snd.nextSeq && d.s.snd.remoteAcked == s.snd.remoteAcked
  {
    hide Total, WaitingFrames, FlushStop;
    assert FirstExhausted(s.snd.outgoing, s.snd.remoteAcked, s.snd.nextSeq) == s.snd.nextSeq;
  }

  lemma ReceivedAdvances(s: State, batch: seq<Frame>, now: nat)
    ensures var snd := Received(s, batch, now).snd;
      snd.nextSeq == s.snd.nextSeq && s.snd.remoteAcked <= snd.remoteAcked
  {
    hide HandleAll, Total, Absorb;
    HandleAllFrame(s, batch, now);
  }

  lemma OverAcknowledgedPoll(s: State, batch: seq<Frame>, hungUp: bool, timer: bool, now: nat)
    requires s.snd.nextSeq <= s.snd.remoteAcked
    ensures var d := Drive(s, batch, hungUp, timer, now);
      && d.outcome != Aborted(TimedOut)
      && d.s.snd.nextSeq == s.snd.nextSeq && s.snd.remoteAcked <= d.s.snd.remoteAcked
  {
    hide HandleAll, Received, Retransmit;
    var awake := s.(driveWaker := false);
    HandleAllFrame(awake, batch, now);
    ReceivedAdvances(awake, batch, now);
    OverAcknowledgedTimer(Received(awake, batch, now), timer, now);
  }

  lemma OverAcknowledgedStep(s: State, a: Action)
    requires s.snd.nextSeq <= s.snd.remoteAcked && !a.Write?
    ensures !GivesUp(s, a)
    ensures Apply(s, a).snd.nextSeq == s.snd.nextSeq && s.snd.remoteAcked <= Apply(s, a).snd.remoteAcked
  {
    hide Drive, ReadNext;
    if a.DriveOnce? {
      OverAcknowledgedPoll(s, a.batch, a.hungUp, a.timer, a.now);
    }
  }

  /**
   In particular, once `remote_acked` has reached or passed `seq`, no run without writes gives up,
   whatever arrives and however often the timer fires.
   */
  lemma {:induction false} OverAcknowledgedNeverGivesUp(s: State, acts: seq<Action>)
    requires s.snd.nextSeq <= s.snd.remoteAcked
    requires forall i :: 0 <= i < |acts| ==> !acts[i].Write?
    ensures NeverGivesUp(s, acts) && Run(s, acts).snd.nextSeq <= Run(s, acts).snd.remoteAcked
  {
    hide Apply, GivesUp;
    if acts != [] {
      OverAcknowledgedNeverGivesUp(s, acts[..|acts| - 1]);
      OverAcknowledgedStep(Run(s, acts[..|acts| - 1]), acts[|acts| - 1]);
    }
  }

  // ----- examples -----

  lemma RunOne(s: State, a: Action)
    ensures Run(s, [a]) == Apply(s, a)
  {
    hide Apply;
    assert [a][..0] == [];
    assert Run(s, []) == s;
  }

  lemma {:induction false} RunConcat(s: State, a: seq<Action>, b: seq<Action>)
    ensures Run(s, a + b) == Run(Run(s, a), b)
  {
    hide Apply;
    if b == [] {
      assert a + b == a;
    } else {
      RunConcat(s, a, b[..|b| - 1]);
      assert (a + b)[..|a + b| - 1] == a + b[..|b| - 1];
    }
  }

  lemma OneByte(s: State, b: Byte)
    requires s.error.None? && s.snd.inflight + 1 <= s.snd.cwnd
    ensures PollWrite(s, [b]).0 == SendData(s, [b])
  {
    var sent := SendData(s, [b]);
    assert [b][..1] == [b] && [b][1..] == [];
    assert SendChunks(sent, []) == (sent, 0);
    assert SendChunks(s, [b]) == (sent, 1);
  }

  lemma OneByteOutstanding(remoteId: nat)
    ensures var s := Run(Connect(remoteId), [Write([7])]);
      FirstDue(s.snd, 0) && Patience(s.snd.outgoing[0]) == 6 && !s.finished
  {
    hide Drive, PollRead, PollWrite;
    RunOne(Connect(remoteId), Write([7]));
    OneByte(Connect(remoteId), 7);
  }

  /** Six firings are not enough: a byte is written, and the timer fires six times. */
  lemma SixFiringsDoNotSuffice(remoteId: nat)
    ensures var s := Run(Connect(remoteId), [Write([7])]);
      NeverGivesUp(s, Ticks(6)) && Firings(s, Ticks(6)) == 6
  {
    hide Run, Inv, InOrder, FirstDue, NeverGivesUp, Firings;
    var s := Run(Connect(remoteId), [Write([7])]);
    OneByteOutstanding(remoteId);
    InvAlways(remoteId, [Write([7])]);
    OlderTriedMore(remoteId, [Write([7])]);
    PatientTicks(s, 0, 6);
  }

  /** A poll with an acknowledgement of a packet that was never sent. */
  const EARLY_ACK: Action := DriveOnce([Frame(Header(0, 0, 1, 0, 0, 1), [])], false, false, 0)

  /** A packet without any type bits only acknowledges. */
  lemma PlainPacket(s: State, f: Frame, now: nat)
    requires f.header.typ == 0
    ensures HandleAll(s, [f], now) == TakeAck(CountRx(s), f) && MaxAck([f]) == f.header.ack
  {
    hide CountRx, TakeAck;
    var handled := HandleIncoming(s, f, now);
    assert handled == TakeAck(CountRx(s), f);
    assert [f][1..] == [] && [f][..0] == [];
    assert HandleAll(s, [f], now) == HandleAll(handled, [], now) == handled;
    assert MaxAck([]) == 0;
  }

  lemma AckNothing(s: State, ack: nat, now: nat)
    requires s.snd.outgoing == map[] && s.snd.remoteAcked <= ack
    ensures var s' := HandleAck(s, ack, now);
      && s'.snd.outgoing == map[] && s'.snd.remoteAcked == ack && s'.snd.inflight == s.snd.inflight
      && s'.snd.cwnd == s.snd.cwnd && s'.snd.nextSeq == s.snd.nextSeq
      && s'.error == s.error && s'.finished == s.finished
  {
    hide Absorb, Samples;
    TotalZero(InFlight, s.snd.outgoing, s.snd.remoteAcked, ack);
  }

  /** An open stream on which nothing has been sent. */
  ghost predicate Unused(s: State, remoteAcked: nat) {
    && s.error.None? && !s.finished && s.snd.cwnd == 2 * UDX_MTU && s.snd.inflight == 0
    && s.snd.remoteAcked == remoteAcked && s.snd.nextSeq == 0 && s.snd.outgoing == map[]
  }

  lemma EarlyAck(s: State)
    requires Unused(s, 0)
    ensures Unused(Apply(s, EARLY_ACK), 1)
  {
    hide HandleAll, HandleAck, MaxAck, Retransmit, PollRead, PollWrite;
    var awake, f := s.(driveWaker := false), EARLY_ACK.batch[0];
    assert EARLY_ACK.batch == [f];
    PlainPacket(awake, f, 0);
    AckNothing(TakeAck(CountRx(awake), f), 1, 0);
    var received := Received(awake, [f], 0);
    NothingDueRetransmit(received, false, 0);
    RetransmitKeepsRunning(received, false, 0);
    EmptyFlush(received);
  }

  lemma EmptyFlush(s: State)
    requires s.snd.outgoing == map[]
    ensures var d := Retransmit(s, false, 0); d.s.snd.inflight == s.snd.inflight && d.s.error == s.error
  {
    hide FlushStop, WaitingFrames;
    var stop := FlushStop(s.snd.outgoing, s.snd.remoteAcked, s.snd.nextSeq, s.snd.inflight, s.snd.cwnd);
    TotalZero(Waiting, s.snd.outgoing, s.snd.remoteAcked, stop);
  }

  /** Two full packets, of which only the second is due. */
  lemma OneOutOfReach(buf: seq<Byte>)
    requires |buf| == 2 * UDX_MAX_DATA_SIZE
    ensures var snd := Run(Connect(1), [EARLY_ACK, Write(buf)]).snd;
      && snd.outgoing.Keys == {0, 1} && snd.remoteAcked == 1 && snd.nextSeq == 2 && snd.cwnd == 2 * UDX_MTU
      && FirstDue(snd, 1) && OutOfReach(snd) == snd.outgoing[1].Len() == UDX_MTU && Patience(snd.outgoing[1]) == 6
    ensures !Run(Connect(1), [EARLY_ACK, Write(buf)]).finished
  {
    hide Drive, PollRead;
    EarlyAck(Connect(1));
    var n, s := UDX_MAX_DATA_SIZE, Run(Connect(1), [EARLY_ACK]);
    RunOne(Connect(1), EARLY_ACK);
    var one := SendData(s, buf[..n]);
    var two := SendData(one, buf[n..]);
    assert buf[n..][..n] == buf[n..] && buf[n..][n..] == [];
    assert SendChunks(two, []) == (two, 0);
    assert SendChunks(one, buf[n..]) == (two, n);
    assert SendChunks(s, buf) == (two, n + n);
    assert [EARLY_ACK, Write(buf)][..1] == [EARLY_ACK];
    assert Run(Connect(1), [EARLY_ACK, Write(buf)]) == two;
    assert two.snd.outgoing.Keys == {0, 1};
    assert Total(InFlight, two.snd.outgoing, 0, 0) == 0;
    assert Total(InFlight, two.snd.outgoing, 0, 1) == WeightAt(InFlight, two.snd.outgoing, 0);
  }

  /**
   The condition can fail: after an acknowledgement of an unsent packet and a write of two packets,
   the first stays in flight for good and leaves the second no room. However often the timer fires
   then, with the second packet outstanding, the stream does not give up.
   */
  lemma OverAcknowledgedExample(buf: seq<Byte>, n: nat)
    requires |buf| == 2 * UDX_MAX_DATA_SIZE
    ensures var s := Run(Connect(1), [EARLY_ACK, Write(buf)]);
      && 1 in s.snd.outgoing && s.snd.remoteAcked <= 1 < s.snd.nextSeq
      && NeverGivesUp(s, Ticks(n)) && Firings(s, Ticks(n)) == n
  {
    hide Run, Inv, InOrder, FirstDue, NeverGivesUp, Firings, OutOfReach;
    var before := [EARLY_ACK, Write(buf)];
    var s := Run(Connect(1), before);
    OneOutOfReach(buf);
    InvAlways(1, before);
    OlderTriedMore(1, before);
    HalvedShift(2 * UDX_MTU, 5);
    assert Halved(2 * UDX_MTU, 1) == UDX_MTU by {
      assert Halved(2 * UDX_MTU, 0) == 2 * UDX_MTU;
    }
    HalvedAtFloor(5);
    DueIsHopeless(s.snd, 1);
    assert |s.snd.outgoing.Keys| == 2;
    HopelessTicks(s, n);
  }
}
