/**
 The retransmission timer as a clock (src/stream.rs:354-366, 556-559): an acknowledgement sets it
 one timeout ahead, a firing two. If it is never early, a stream does not lose patience quickly, and
 one that makes progress is left alone.
 */
module Timer {
  import opened Constants
  import opened Arithmetic
  import opened Ledger
  import opened StreamModel
  import opened StreamInvariant
  import opened Retransmission
  import opened GivingUp
  import opened Estimates
  import opened Arrivals

  /** The timer is found ready only when its time has come. */
  predicate Punctual(s: State, a: Action) {
    a.DriveOnce? && a.timer ==> Received(s.(driveWaker := false), a.batch, a.now).deadline <= a.now
  }

  /** All polls happen at `start` or later, with a punctual timer. */
  ghost predicate PunctualRun(s: State, acts: seq<Action>, start: nat) {
    acts != [] ==>
      var init, last := acts[..|acts| - 1], acts[|acts| - 1];
      && PunctualRun(s, init, start)
      && Punctual(Run(s, init), last) && (last.DriveOnce? ==> start <= last.now)
  }

  // ----- silent runs -----

  lemma {:induction false} ChunksKeepTimer(s: State, buf: seq<Byte>)
    ensures var s' := SendChunks(s, buf).0; s'.snd.rtt == s.snd.rtt && s'.deadline == s.deadline
    decreases |buf|
  {
    var len := Min(|buf|, UDX_MAX_DATA_SIZE);
    if buf != [] && s.snd.inflight + len <= s.snd.cwnd {
      ChunksKeepTimer(SendData(s, buf[..len]), buf[len..]);
    }
  }

  lemma {:induction false} BatchKeepsDeadline(s: State, batch: seq<Frame>, now: nat)
    ensures HandleAll(s, batch, now).deadline == s.deadline
    decreases |batch|
  {
    if batch != [] {
      IncomingKeepsDeadline(s, batch[0], now);
      BatchKeepsDeadline(HandleIncoming(s, batch[0], now), batch[1..], now);
    }
  }

  lemma IncomingKeepsDeadline(s: State, f: Frame, now: nat)
    ensures HandleIncoming(s, f, now).deadline == s.deadline
  {
    hide TakeSacks, TakeEnd, TakeData;
    TakeSacksFrame(CountRx(s), f, now);
    var sacked := TakeSacks(CountRx(s), f, now);
    EndKeepsDeadline(sacked, f);
    DataKeepsDeadline(TakeEnd(sacked, f), f);
  }

  lemma EndKeepsDeadline(s: State, f: Frame)
    ensures TakeEnd(s, f).deadline == s.deadline
  {
  }

  lemma DataKeepsDeadline(s: State, f: Frame)
    ensures TakeData(s, f).deadline == s.deadline
  {
    hide Insert;
  }

  /** What a silent action does to the timer: only an effective firing moves it, two timeouts ahead. */
  lemma SilentTimer(s: State, a: Action)
    requires Silent(a, s.snd.remoteAcked)
    ensures var s' := Apply(s, a);
      && s'.snd.rtt == s.snd.rtt && s'.snd.remoteAcked == s.snd.remoteAcked
      && s'.deadline == if Firing(s, a) then a.now + 2 * s.snd.rtt.rto else s.deadline
    ensures Firing(s, a) && Punctual(s, a) ==> s.deadline <= a.now
  {
    if a.DriveOnce? {
      SilentPollTimer(s, a);
    } else {
      hide ReadNext, SendChunks, Drive;
      if a.Write? {
        ChunksKeepTimer(s, a.buf);
        ChunksKeepAcked(s, a.buf);
      }
    }
  }

  lemma {:induction false} ChunksKeepAcked(s: State, buf: seq<Byte>)
    ensures SendChunks(s, buf).0.snd.remoteAcked == s.snd.remoteAcked
    decreases |buf|
  {
    var len := Min(|buf|, UDX_MAX_DATA_SIZE);
    if buf != [] && s.snd.inflight + len <= s.snd.cwnd {
      ChunksKeepAcked(SendData(s, buf[..len]), buf[len..]);
    }
  }

  lemma RetransmitTimer(s: State, timer: bool, now: nat)
    ensures var s' := Retransmit(s, timer, now).s;
      && s'.snd.rtt == s.snd.rtt && s'.snd.remoteAcked == s.snd.remoteAcked
      && s'.deadline == if Fires(s.snd, timer) then now + 2 * s.snd.rtt.rto else s.deadline
  {
    hide FirstExhausted, FlushStop, WaitingFrames, Total;
  }

  lemma SilentPollTimer(s: State, a: Action)
    requires a.DriveOnce? && Silent(a, s.snd.remoteAcked)
    ensures var s' := Apply(s, a);
      && s'.snd.rtt == s.snd.rtt && s'.snd.remoteAcked == s.snd.remoteAcked
      && s'.deadline == if Firing(s, a) then a.now + 2 * s.snd.rtt.rto else s.deadline
    ensures Firing(s, a) && Punctual(s, a) ==> s.deadline <= a.now
  {
    hide HandleAll, Retransmit;
    var awake := s.(driveWaker := false);
    SilentHandled(awake, a.batch, a.now);
    BatchKeepsDeadline(awake, a.batch, a.now);
    MaxAckBelow(a.batch, s.snd.remoteAcked);
    RetransmitTimer(Received(awake, a.batch, a.now), a.timer, a.now);
  }

  /** In a silent run with a punctual timer, effective firings are at least two timeouts apart. */
  lemma {:induction false} FiringsTakeTime(s: State, acts: seq<Action>, start: nat)
    requires AllSilent(acts, s.snd.remoteAcked) && PunctualRun(s, acts, start)
    ensures var s' := Run(s, acts);
      && s'.snd.rtt == s.snd.rtt && s'.snd.remoteAcked == s.snd.remoteAcked
      && (Firings(s, acts) > 0 ==> start + Firings(s, acts) * (2 * s.snd.rtt.rto) <= s'.deadline)
  {
    hide Apply, Firing, Punctual;
    if acts != [] {
      var init, last := acts[..|acts| - 1], acts[|acts| - 1];
      FiringsTakeTime(s, init, start);
      SilentTimer(Run(s, init), last);
      MulSuccessor(Firings(s, init), 2 * s.snd.rtt.rto);
      assert Firing(Run(s, init), last) ==> last.DriveOnce? by {
        OnlyPollsFire(Run(s, init), last);
      }
    }
  }

  lemma OnlyPollsFire(s: State, a: Action)
    ensures Firing(s, a) ==> a.DriveOnce?
  {
  }

  /** Nothing but an effective firing counts as a loss of the first due packet. */
  ghost predicate Tracks(s: State, k: nat) {
    Inv(s) && InOrder(s.snd) && !s.finished && FirstDue(s.snd, k)
  }

  lemma RetransmitLosses(s: State, timer: bool, now: nat, k: nat)
    requires FirstDue(s.snd, k)
    ensures var snd' := Retransmit(s, timer, now).s.snd;
      && FirstDue(snd', k)
      && snd'.outgoing[k].transmits <= s.snd.outgoing[k].transmits + if Fires(s.snd, timer) then 1 else 0
  {
    hide CheckTimeouts, Flush;
    TimeoutLosses(s.snd, timer, k);
    FlushLosses(CheckTimer(s, timer, now).0, k);
  }

  lemma TimeoutLosses(snd: Sender, timer: bool, k: nat)
    requires FirstDue(snd, k)
    ensures var snd' := CheckTimeouts(snd, timer).0;
      && FirstDue(snd', k)
      && snd'.outgoing[k].transmits <= snd.outgoing[k].transmits + if Fires(snd, timer) then 1 else 0
  {
    hide FirstExhausted, Total;
  }

  lemma FlushLosses(s: State, k: nat)
    requires FirstDue(s.snd, k)
    ensures var snd' := Flush(s).snd; FirstDue(snd', k) && snd'.outgoing[k].transmits == s.snd.outgoing[k].transmits
  {
    hide FlushStop, WaitingFrames, Total;
  }

  lemma SilentLosses(s: State, a: Action, k: nat)
    requires Tracks(s, k) && Silent(a, s.snd.remoteAcked)
    ensures Tracks(Apply(s, a), k)
    ensures Apply(s, a).snd.outgoing[k].transmits
         <= s.snd.outgoing[k].transmits + if Firing(s, a) then 1 else 0
  {
    hide Inv, InOrder, Retransmit, CheckTimeouts, Received, SendChunks, ReadNext, Firing, GivesUp;
    ApplyInv(s, a);
    StepInOrder(s, a);
    if a.DriveOnce? {
      hide Apply;
      HasOutgoing(s, k);
      SilentDrive(s, a);
      var received := Received(s.(driveWaker := false), a.batch, a.now);
      RetransmitLosses(received, a.timer, a.now, k);
      RetransmitKeepsRunning(received, a.timer, a.now);
    } else if a.Write? {
      WriteTracks(s, a.buf, k);
    }
  }

  lemma WriteTracks(s: State, buf: seq<Byte>, k: nat)
    requires Inv(s) && !s.finished && FirstDue(s.snd, k)
    ensures var s' := PollWrite(s, buf).0;
      FirstDue(s'.snd, k) && s'.snd.outgoing[k] == s.snd.outgoing[k] && !s'.finished
  {
    hide SendChunks;
    if s.error.None? {
      SendChunksAdds(s, buf);
      DueIsBelow(s.snd, k);
    }
  }

  lemma {:induction false} LossesNeedFirings(s: State, acts: seq<Action>, k: nat)
    requires Tracks(s, k) && AllSilent(acts, s.snd.remoteAcked)
    ensures Tracks(Run(s, acts), k) && Run(s, acts).snd.remoteAcked == s.snd.remoteAcked
    ensures Run(s, acts).snd.outgoing[k].transmits <= s.snd.outgoing[k].transmits + Firings(s, acts)
  {
    hide Tracks, Apply, Firing;
    if acts != [] {
      var init, last := acts[..|acts| - 1], acts[|acts| - 1];
      LossesNeedFirings(s, init, k);
      SilentLosses(Run(s, init), last, k);
      SilentTimer(Run(s, init), last);
    }
  }

  lemma GivingUpFires(s: State, a: Action, k: nat)
    requires Tracks(s, k) && Silent(a, s.snd.remoteAcked) && GivesUp(s, a)
    ensures Firing(s, a) && s.snd.outgoing[k].transmits == MOST_TRANSMITS
  {
    hide Received, Apply, CheckTimeouts, InOrder;
    HasOutgoing(s, k);
    SilentDrive(s, a);
    assert !a.hungUp && !CheckTimeouts(s.snd, a.timer).1;
    TimerIsNeeded(s.snd, a.timer);
    FirstExhaustsFirst(s.snd, a.timer, k);
    DueIsBelow(s.snd, k);
  }

  lemma TimerIsNeeded(snd: Sender, timer: bool)
    requires !CheckTimeouts(snd, timer).1
    ensures Fires(snd, timer)
  {
  }

  lemma GivesUpLate(s: State, k: nat, acts: seq<Action>, a: Action, start: nat)
    requires Tracks(s, k) && AllSilent(acts, s.snd.remoteAcked) && Silent(a, s.snd.remoteAcked)
    requires PunctualRun(s, acts, start) && Punctual(Run(s, acts), a) && (a.DriveOnce? ==> start <= a.now)
    requires GivesUp(Run(s, acts), a)
    ensures s.snd.outgoing[k].transmits <= MOST_TRANSMITS
    ensures start + (MOST_TRANSMITS - s.snd.outgoing[k].transmits) * (2 * s.snd.rtt.rto) <= a.now
  {
    hide Run, Inv, InOrder, Firing, Firings, GivesUp, PunctualRun, Punctual, Silent, AllSilent, Apply;
    LossesNeedFirings(s, acts, k);
    FiringsTakeTime(s, acts, start);
    var s' := Run(s, acts);
    GivingUpFires(s', a, k);
    SilentTimer(s', a);
    OnlyPollsFire(s', a);
    LossesBounded(s, k);
    var left := MOST_TRANSMITS - s.snd.outgoing[k].transmits;
    Spaced(start, left, Firings(s, acts), 2 * s.snd.rtt.rto, s'.deadline, a.now);
  }

  lemma LossesBounded(s: State, k: nat)
    requires Inv(s) && k in s.snd.outgoing
    ensures s.snd.outgoing[k].transmits <= MOST_TRANSMITS
  {
    assert PacketOk(s.snd.outgoing[k], k, s.snd.log[k]);
  }

  lemma Spaced(start: nat, n: nat, m: nat, gap: nat, deadline: nat, now: nat)
    requires n <= m && (m > 0 ==> start + m * gap <= deadline) && start <= now && deadline <= now
    ensures start + n * gap <= now
  {
    MulMonotone(n, m, gap);
  }

  lemma LastOfRun(s: State, acts: seq<Action>, a: Action, start: nat, acked: nat)
    requires AllSilent(acts + [a], acked) && PunctualRun(s, acts + [a], start)
    ensures AllSilent(acts, acked) && Silent(a, acked)
    ensures PunctualRun(s, acts, start) && Punctual(Run(s, acts), a) && (a.DriveOnce? ==> start <= a.now)
  {
    hide Run, Punctual, Silent;
    var all := acts + [a];
    assert all[..|all| - 1] == acts && all[|acts|] == a;
    assert forall i :: 0 <= i < |acts| ==> all[i] == acts[i];
  }

  /**
   However a stream got to have outstanding data: from any moment on in which its peer is silent, it
   gives up no sooner than two timeouts, each of at least a second, for every time the first due
   packet may still be lost. For a packet that has not been lost this is twelve seconds or more.
   */
  lemma GivingUpTakesTime(remoteId: nat, before: seq<Action>, k: nat, acts: seq<Action>, a: Action, start: nat)
    requires var s := Run(Connect(remoteId), before);
      && !s.finished && FirstDue(s.snd, k)
      && AllSilent(acts + [a], s.snd.remoteAcked) && PunctualRun(s, acts + [a], start)
      && GivesUp(Run(s, acts), a)
    ensures var s := Run(Connect(remoteId), before);
      && s.snd.rtt.rto >= ONE_SECOND && s.snd.outgoing[k].transmits <= MOST_TRANSMITS
      && start + (MOST_TRANSMITS - s.snd.outgoing[k].transmits) * (2 * s.snd.rtt.rto) <= a.now
  {
    hide Run, Inv, InOrder, GivesUp, PunctualRun, Punctual, Silent, AllSilent;
    var s := Run(Connect(remoteId), before);
    InvAlways(remoteId, before);
    OlderTriedMore(remoteId, before);
    RtoFloor(remoteId, before);
    LastOfRun(s, acts, a, start, s.snd.remoteAcked);
    GivesUpLate(s, k, acts, a, start);
  }

  // ----- streams that make progress -----

  /** A poll that learns of a new acknowledgement. */
  predicate Progress(s: State, a: Action) {
    a.DriveOnce? && Running(s) && !a.hungUp && s.snd.remoteAcked < MaxAck(a.batch)
  }

  /** What an action does to the timer: an effective firing sets it two timeouts ahead, progress one. */
  lemma StepTimer(s: State, a: Action)
    ensures var s' := Apply(s, a);
      s'.deadline == if Firing(s, a) then a.now + 2 * s'.snd.rtt.rto
                     else if Progress(s, a) then a.now + s'.snd.rtt.rto
                     else s.deadline
  {
    if a.DriveOnce? {
      PollTimer(s, a);
    } else {
      hide ReadNext, SendChunks, Drive, Received;
      if a.Write? {
        ChunksKeepTimer(s, a.buf);
      }
    }
  }

  lemma ReceivedTimer(s: State, batch: seq<Frame>, now: nat)
    ensures var received := Received(s, batch, now);
      && received.deadline == if s.snd.remoteAcked < MaxAck(batch) then now + received.snd.rtt.rto else s.deadline
  {
    hide HandleAll, Samples, Total;
    BatchKeepsDeadline(s, batch, now);
    HandleAllFrame(s, batch, now);
  }

  lemma PollTimer(s: State, a: Action)
    requires a.DriveOnce?
    ensures var s' := Apply(s, a);
      s'.deadline == if Firing(s, a) then a.now + 2 * s'.snd.rtt.rto
                     else if Progress(s, a) then a.now + s'.snd.rtt.rto
                     else s.deadline
  {
    hide HandleAll, Received, Retransmit, MaxAck;
    var awake := s.(driveWaker := false);
    BatchKeepsDeadline(awake, a.batch, a.now);
    ReceivedTimer(awake, a.batch, a.now);
    RetransmitTimer(Received(awake, a.batch, a.now), a.timer, a.now);
  }

  /** With a timer that is never early, a poll that makes progress does not fire. */
  lemma ProgressDoesNotFire(s: State, a: Action)
    requires Progress(s, a) && Punctual(s, a) && Apply(s, a).snd.rtt.rto > 0
    ensures !Firing(s, a) && Apply(s, a).deadline == a.now + Apply(s, a).snd.rtt.rto
  {
    hide HandleAll, Received, Retransmit, MaxAck;
    var awake := s.(driveWaker := false);
    ReceivedTimer(awake, a.batch, a.now);
    RetransmitTimer(Received(awake, a.batch, a.now), a.timer, a.now);
    PollTimer(s, a);
  }

  /** One timeout after the last progress of the run, or a second after its start. */
  function Due(s: State, acts: seq<Action>): nat {
    if acts == [] then ONE_SECOND
    else
      var init, last := acts[..|acts| - 1], acts[|acts| - 1];
      if Progress(Run(s, init), last) then last.now + Run(s, acts).snd.rtt.rto else Due(s, init)
  }

  /** No poll without progress comes a timeout or more after the last progress. */
  ghost predicate Healthy(s: State, acts: seq<Action>) {
    acts != [] ==>
      var init, last := acts[..|acts| - 1], acts[|acts| - 1];
      Healthy(s, init) && (last.DriveOnce? ==> Progress(Run(s, init), last) || last.now < Due(s, init))
  }

  /** No packet has ever been declared lost. */
  ghost predicate NoLosses(snd: Sender) {
    forall k :: k in snd.outgoing ==> snd.outgoing[k].transmits == 0
  }

  lemma QuietPoll(s: State, a: Action)
    requires NoLosses(s.snd) && a.DriveOnce? && !Firing(s, a)
    ensures NoLosses(Apply(s, a).snd) && !GivesUp(s, a) && s.snd.cwnd <= Apply(s, a).snd.cwnd
  {
    hide HandleAll, HandleAck, Flush;
    var awake := s.(driveWaker := false);
    BatchQuiet(awake, a.batch, a.now);
    AckQuiet(HandleAll(awake, a.batch, a.now), MaxAck(a.batch), a.now);
    FlushQuiet(CheckTimer(Received(awake, a.batch, a.now), a.timer, a.now).0);
  }

  lemma FlushQuiet(s: State)
    ensures NoLosses(s.snd) ==> NoLosses(Flush(s).snd)
    ensures Flush(s).snd.cwnd == s.snd.cwnd
  {
    hide FlushStop, WaitingFrames, Total;
  }

  lemma AckQuiet(s: State, ack: nat, now: nat)
    ensures NoLosses(s.snd) ==> NoLosses(HandleAck(s, ack, now).snd)
    ensures HandleAck(s, ack, now).snd.cwnd == s.snd.cwnd
  {
    hide Samples, Total;
  }

  lemma {:induction false} BatchQuiet(s: State, batch: seq<Frame>, now: nat)
    requires NoLosses(s.snd)
    ensures NoLosses(HandleAll(s, batch, now).snd) && s.snd.cwnd <= HandleAll(s, batch, now).snd.cwnd
    decreases |batch|
  {
    hide HandleIncoming, NoLosses;
    if batch != [] {
      IncomingQuiet(s, batch[0], now);
      BatchQuiet(HandleIncoming(s, batch[0], now), batch[1..], now);
    }
  }

  lemma IncomingQuiet(s: State, f: Frame, now: nat)
    requires NoLosses(s.snd)
    ensures var snd := HandleIncoming(s, f, now).snd; NoLosses(snd) && s.snd.cwnd <= snd.cwnd
  {
    hide HandleIncoming, RetireBlocks, SackBlocks, NoLosses;
    IncomingSender(s, f, now);
    BlocksQuiet(s.snd, SackBlocks(f.body, 0), now);
    RetireBlocksFrame(s.snd, SackBlocks(f.body, 0), now);
    GrowQuiet(TakeSacks(CountRx(s), f, now).snd, f.header.ack);
  }

  lemma GrowQuiet(snd: Sender, ack: nat)
    requires NoLosses(snd)
    ensures NoLosses(GrowWindow(snd, ack)) && snd.cwnd <= GrowWindow(snd, ack).cwnd
  {
  }

  lemma {:induction false} BlocksQuiet(snd: Sender, blocks: seq<(nat, nat)>, now: nat)
    requires NoLosses(snd)
    ensures NoLosses(RetireBlocks(snd, blocks, now))
    decreases |blocks|
  {
    hide Samples, Total;
    if blocks != [] {
      BlocksQuiet(Retire(snd, blocks[0].0, blocks[0].1, now), blocks[1..], now);
    }
  }

  lemma {:induction false} ChunksQuiet(s: State, buf: seq<Byte>)
    requires NoLosses(s.snd)
    ensures var snd := SendChunks(s, buf).0.snd; NoLosses(snd) && snd.cwnd == s.snd.cwnd
    decreases |buf|
  {
    var len := Min(|buf|, UDX_MAX_DATA_SIZE);
    if buf != [] && s.snd.inflight + len <= s.snd.cwnd {
      ChunksQuiet(SendData(s, buf[..len]), buf[len..]);
    }
  }

  lemma QuietStep(s: State, a: Action)
    requires NoLosses(s.snd) && Inv(s) && !Firing(s, a)
    ensures NoLosses(Apply(s, a).snd) && !GivesUp(s, a) && s.snd.cwnd <= Apply(s, a).snd.cwnd
  {
    hide Drive, SendChunks, ReadNext, SenderInv, ReceiverInv, Firing;
    if a.DriveOnce? {
      QuietPoll(s, a);
    } else if a.Write? {
      ChunksQuiet(s, a.buf);
    }
  }

  /** A poll before the timer's time does not fire. */
  lemma EarlyDoesNotFire(s: State, a: Action)
    requires Punctual(s, a) && !Progress(s, a) && (a.DriveOnce? ==> a.now < s.deadline)
    ensures !Firing(s, a)
  {
    hide HandleAll, Received, MaxAck;
    if a.DriveOnce? {
      ReceivedTimer(s.(driveWaker := false), a.batch, a.now);
    }
  }

  /**
   A stream that makes progress at least once in every timeout is left alone: with a timer that is never
   early it never fires, no packet is declared lost, sent twice or given up, and the window only grows.
   */
  lemma {:induction false} ProgressIsUndisturbed(remoteId: nat, acts: seq<Action>)
    requires Healthy(Connect(remoteId), acts) && PunctualRun(Connect(remoteId), acts, 0)
    ensures var s := Run(Connect(remoteId), acts);
      && Firings(Connect(remoteId), acts) == 0 && NeverGivesUp(Connect(remoteId), acts)
      && NoLosses(s.snd) && s.snd.cwnd >= 2 * UDX_MTU && s.deadline == Due(Connect(remoteId), acts)
  {
    hide Inv, Apply, Punctual, Progress, Firing, GivesUp, NoLosses;
    var start := Connect(remoteId);
    if acts == [] {
      NothingLostAtStart(remoteId);
    } else {
      var init, last := acts[..|acts| - 1], acts[|acts| - 1];
      ProgressIsUndisturbed(remoteId, init);
      var s := Run(start, init);
      InvAlways(remoteId, init);
      RtoFloor(remoteId, acts);
      if Progress(s, last) {
        ProgressDoesNotFire(s, last);
      } else {
        EarlyDoesNotFire(s, last);
        StepTimer(s, last);
      }
      QuietStep(s, last);
    }
  }

  lemma NothingLostAtStart(remoteId: nat)
    ensures var s := Connect(remoteId); NoLosses(s.snd) && s.snd.cwnd == 2 * UDX_MTU && s.deadline == ONE_SECOND
  {
  }

  /** The timer is found ready exactly when its time has come. */
  predicate Prompt(s: State, a: Action) {
    a.DriveOnce? ==> (a.timer <==> Received(s.(driveWaker := false), a.batch, a.now).deadline <= a.now)
  }

  /**
   With a timer that is ready on time, the next poll of such a run fires if and only if it makes no
   progress, comes a timeout or more after the last, and finds something unacknowledged.
   */
  lemma FiresExactlyWhenDue(remoteId: nat, acts: seq<Action>, a: Action)
    requires Healthy(Connect(remoteId), acts) && PunctualRun(Connect(remoteId), acts, 0)
    requires var s := Run(Connect(remoteId), acts); a.DriveOnce? && Running(s) && !a.hungUp && Prompt(s, a)
    ensures var s := Run(Connect(remoteId), acts);
      Firing(s, a) <==>
      && !Progress(s, a) && Due(Connect(remoteId), acts) <= a.now && s.snd.remoteAcked != s.snd.nextSeq
  {
    hide Inv, Run, HandleAll, MaxAck, Due, Healthy, PunctualRun, HandleAck, Firings, NeverGivesUp, NoLosses;
    var s := Run(Connect(remoteId), acts);
    ProgressIsUndisturbed(remoteId, acts);
    var awake := s.(driveWaker := false);
    ReceivedTimer(awake, a.batch, a.now);
    ReceivedRange(awake, a.batch, a.now);
    if Progress(s, a) {
      ReceivedFloor(remoteId, acts, a);
    }
  }

  lemma ReceivedRange(s: State, batch: seq<Frame>, now: nat)
    ensures var snd := Received(s, batch, now).snd;
      snd.nextSeq == s.snd.nextSeq && (MaxAck(batch) <= s.snd.remoteAcked ==> snd.remoteAcked == s.snd.remoteAcked)
  {
    hide HandleAll, Samples, Total;
    HandleAllFrame(s, batch, now);
  }

  lemma ReceivedFloor(remoteId: nat, acts: seq<Action>, a: Action)
    requires a.DriveOnce? && Running(Run(Connect(remoteId), acts)) && !a.hungUp
    ensures Received(Run(Connect(remoteId), acts).(driveWaker := false), a.batch, a.now).snd.rtt.rto >= ONE_SECOND
  {
    hide HandleAll, HandleAck, Retransmit, MaxAck;
    var all := acts + [a];
    assert all[..|all| - 1] == acts && all[|all| - 1] == a;
    RtoFloor(remoteId, all);
    var received := Received(Run(Connect(remoteId), acts).(driveWaker := false), a.batch, a.now);
    RetransmitTimer(received, a.timer, a.now);
    assert Run(Connect(remoteId), all) == Apply(Run(Connect(remoteId), acts), a);
  }
}
