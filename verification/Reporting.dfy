/**
 What a stream reports to its users (src/stream.rs:88-112, 168-180, 322-325, 771-797, 820-823): which
 error it is in after any run, what reads and writes answer then, and when a `close()` is answered.
 */
module Reporting {
  import opened Constants
  import opened Ledger
  import opened StreamModel
  import opened StreamInvariant
  import opened Parking
  import opened Arrivals
  import opened Reading

  // ----- errors -----

  /** The error that an action puts the stream into, if any: the last one of a poll counts. */
  function Cause(s: State, a: Action): Option<UdxError> {
    match a
    case CloseStream => Some(ConnectionReset)
    case DriveOnce(batch, hungUp, timer, now) =>
      var outcome := Drive(s, batch, hungUp, timer, now).outcome;
      if outcome.Aborted? then Some(outcome.error)
      else if Running(s) && exists f :: f in batch && Ends(f) then Some(UnexpectedEof)
      else None
    case Write(_) => None
    case Read(_) => None
    case StampSent(_, _) => None
  }

  function LastCause(s: State, acts: seq<Action>): Option<UdxError> {
    if acts == [] then None
    else
      var init := acts[..|acts| - 1];
      var cause := Cause(Run(s, init), acts[|acts| - 1]);
      if cause.Some? then cause else LastCause(s, init)
  }

  lemma EndsInBatch(batch: seq<Frame>)
    ensures NoneEnds(batch) <==> !exists f :: f in batch && Ends(f)
  {
    if !NoneEnds(batch) {
      var i :| 0 <= i < |batch| && Ends(batch[i]);
      assert batch[i] in batch;
    }
  }

  lemma CompletedRest(s: State, a: Action)
    requires a.DriveOnce? && !Running(s)
    ensures var d := Drive(s, a.batch, a.hungUp, a.timer, a.now);
      && d.outcome.Finished? && d.s.finished && d.sent == []
      && d.s == (if s.finished then s else s.(driveWaker := false, onClose := false, finished := true))
  {
    hide HandleAll, Received, Retransmit;
  }

  lemma StepError(s: State, a: Action)
    requires ReceiverInv(s.rcv)
    ensures Apply(s, a).error == if Cause(s, a).Some? then Cause(s, a) else s.error
  {
    hide Drive, SendChunks, ReadNext, ReceiverInv, NoneEnds, NoneAwaited;
    match a
    case DriveOnce(batch, hungUp, timer, now) =>
      EndsInBatch(batch);
      if Running(s) {
        PollBecomes(s, batch, hungUp, timer, now);
      } else {
        CompletedRest(s, a);
      }
    case Write(buf) => ChunksKeepReader(s, buf);
    case Read(_) =>
    case CloseStream =>
    case StampSent(_, _) =>
  }

  /** In every run, the error of a stream is the last cause: a later one replaces an earlier one. */
  lemma {:induction false} ErrorIsLastCause(remoteId: nat, acts: seq<Action>)
    ensures Run(Connect(remoteId), acts).error == LastCause(Connect(remoteId), acts)
  {
    hide SenderInv, ReceiverInv, Apply, Cause;
    if acts != [] {
      var init := acts[..|acts| - 1];
      ErrorIsLastCause(remoteId, init);
      InvAlways(remoteId, init);
      StepError(Run(Connect(remoteId), init), acts[|acts| - 1]);
    }
  }

  // ----- the answers of writes -----

  /** The room a write of `buf` finds fits its first packet. */
  predicate FirstFits(s: State, buf: seq<Byte>) {
    s.snd.inflight + Min(|buf|, UDX_MAX_DATA_SIZE) <= s.snd.cwnd
  }

  /**
   The answer of a write, in every state: it fails with the stream's error exactly if there is one, and
   then changes nothing; it parks exactly if the stream is open and not even the first packet fits; and
   otherwise it stops only where the next packet does not fit.
   */
  lemma WriteAnswers(s: State, buf: seq<Byte>)
    ensures var (s', r) := PollWrite(s, buf);
      && (forall e :: r == Failed(e) <==> s.error == Some(e))
      && (r.Failed? ==> s' == s)
      && (r.Pending? <==> s.error.None? && buf != [] && !FirstFits(s, buf))
      && (r.Pending? ==> s' == s.(writeWaker := true))
      && (r.Ready? ==> s'.error.None? && (r.value == |buf| || !FirstFits(s', buf[r.value..])))
      && (r.Ready? && buf != [] ==> r.value > 0)
  {
    hide SendChunks;
    if s.error.None? && buf != [] {
      ChunksStop(s, buf);
    }
  }

  lemma {:induction false} ChunksStop(s: State, buf: seq<Byte>)
    requires s.error.None? && buf != []
    ensures var (s', n) := SendChunks(s, buf);
      && (n == 0 <==> !FirstFits(s, buf)) && (n == 0 ==> s' == s) && s'.error.None?
      && (n == |buf| || !FirstFits(s', buf[n..]))
    decreases |buf|
  {
    var len := Min(|buf|, UDX_MAX_DATA_SIZE);
    if FirstFits(s, buf) {
      var sent, rest := SendData(s, buf[..len]), buf[len..];
      var (s', n) := SendChunks(sent, rest);
      assert SendChunks(s, buf) == (s', len + n);
      if rest != [] {
        ChunksStop(sent, rest);
        assert buf[len + n..] == rest[n..];
      } else {
        assert SendChunks(sent, []) == (sent, 0);
      }
    } else {
      assert buf[0..] == buf;
    }
  }

  /** All packets of a write are full, except perhaps the last. */
  lemma {:induction false} WritesFullPackets(s: State, buf: seq<Byte>, k: nat)
    requires |s.snd.log| == s.snd.nextSeq
    requires var s' := SendChunks(s, buf).0; s.snd.nextSeq <= k && k + 1 < s'.snd.nextSeq
    ensures var s' := SendChunks(s, buf).0; k < |s'.snd.log| && |s'.snd.log[k]| == UDX_MAX_DATA_SIZE
    decreases |buf|
  {
    var len := Min(|buf|, UDX_MAX_DATA_SIZE);
    if buf != [] && s.snd.inflight + len <= s.snd.cwnd {
      var sent, rest := SendData(s, buf[..len]), buf[len..];
      ChunksLog(sent, rest);
      if k > s.snd.nextSeq {
        WritesFullPackets(sent, rest, k);
      } else {
        assert rest != [] by {
          assert rest == [] ==> SendChunks(sent, rest) == (sent, 0);
        }
        assert sent.snd.log[k] == buf[..len];
      }
    }
  }

  lemma {:induction false} ChunksLog(s: State, buf: seq<Byte>)
    requires |s.snd.log| == s.snd.nextSeq
    ensures var snd := SendChunks(s, buf).0.snd; s.snd.log <= snd.log && |snd.log| == snd.nextSeq
    decreases |buf|
  {
    var len := Min(|buf|, UDX_MAX_DATA_SIZE);
    if buf != [] && s.snd.inflight + len <= s.snd.cwnd {
      ChunksLog(SendData(s, buf[..len]), buf[len..]);
    }
  }

  // ----- what is reported after a failure -----

  ghost predicate NoCause(s: State, acts: seq<Action>) {
    acts != [] ==>
      NoCause(s, acts[..|acts| - 1]) && Cause(Run(s, acts[..|acts| - 1]), acts[|acts| - 1]).None?
  }

  lemma {:induction false} ErrorStays(s: State, acts: seq<Action>)
    requires Inv(s) && NoCause(s, acts)
    ensures Inv(Run(s, acts)) && Run(s, acts).error == s.error
  {
    hide SenderInv, ReceiverInv, Apply, Cause;
    if acts != [] {
      var init := acts[..|acts| - 1];
      ErrorStays(s, init);
      ApplyInv(Run(s, init), acts[|acts| - 1]);
      StepError(Run(s, init), acts[|acts| - 1]);
    }
  }

  /**
   After a poll that failed with `e`, until another error replaces it, every write answers `e`, every read
   that takes no whole packet answers `e`, and so does every read once nothing is left to read.
   */
  lemma FailureIsReported(remoteId: nat, acts: seq<Action>, a: Action, e: UdxError, rest: seq<Action>,
                          buf: seq<Byte>, room: nat)
    requires a.DriveOnce?
    requires var s := Run(Connect(remoteId), acts);
      && Drive(s, a.batch, a.hungUp, a.timer, a.now).outcome == Aborted(e)
      && NoCause(Apply(s, a), rest)
    ensures var s := Run(Apply(Run(Connect(remoteId), acts), a), rest);
      && PollWrite(s, buf) == (s, Failed(e))
      && var r := PollRead(s, room);
        && (s.rcv.readCursor < r.s.rcv.readCursor || r.poll == Failed(e))
        && (s.rcv.readCursor == s.rcv.ack ==> r.poll == Failed(e) && r.bytes == [])
  {
    hide Run, Inv, Drive, PollRead, PollWrite, NoCause;
    var s := Run(Connect(remoteId), acts);
    InvAlways(remoteId, acts);
    ApplyInv(s, a);
    AbortSets(s, a);
    ErrorStays(Apply(s, a), rest);
    var s' := Run(Apply(s, a), rest);
    WriteAnswers(s', buf);
    ReadAnswers(s', room);
    if s'.rcv.readCursor == s'.rcv.ack {
      EmptyReadAnswers(s', room);
    }
  }

  lemma AbortSets(s: State, a: Action)
    requires Inv(s) && a.DriveOnce? && Drive(s, a.batch, a.hungUp, a.timer, a.now).outcome.Aborted?
    ensures Apply(s, a).error == Some(Drive(s, a.batch, a.hungUp, a.timer, a.now).outcome.error)
  {
    hide Drive, SenderInv, ReceiverInv;
    StepError(s, a);
  }

  // ----- the state that is closed -----

  /** An END packet has been taken in the run. */
  ghost predicate EndTaken(s: State, acts: seq<Action>) {
    acts != []
    && var init, last := acts[..|acts| - 1], acts[|acts| - 1];
      EndTaken(s, init) || (last.DriveOnce? && Running(Run(s, init)) && !NoneEnds(last.batch))
  }

  lemma StepPhase(s: State, a: Action)
    requires ReceiverInv(s.rcv) && !s.phase.RemoteClosed?
    ensures var phase := Apply(s, a).phase;
      && !phase.RemoteClosed?
      && (phase.BothClosed? <==> s.phase.BothClosed? || (a.DriveOnce? && Running(s) && !NoneEnds(a.batch)))
  {
    hide Drive, SendChunks, ReadNext, ReceiverInv, NoneEnds, NoneAwaited;
    match a
    case DriveOnce(batch, hungUp, timer, now) =>
      if Running(s) {
        PollBecomes(s, batch, hungUp, timer, now);
      } else {
        CompletedRest(s, a);
      }
    case Write(buf) => ChunksKeepPhase(s, buf);
    case Read(_) =>
    case CloseStream =>
    case StampSent(_, _) =>
  }

  lemma {:induction false} ChunksKeepPhase(s: State, buf: seq<Byte>)
    ensures SendChunks(s, buf).0.phase == s.phase && SendChunks(s, buf).0.onClose == s.onClose
    decreases |buf|
  {
    var len := Min(|buf|, UDX_MAX_DATA_SIZE);
    if buf != [] && s.snd.inflight + len <= s.snd.cwnd {
      ChunksKeepPhase(SendData(s, buf[..len]), buf[len..]);
    }
  }

  /**
   In every run, the stream is open exactly if it has no error, and closed by the remote exactly if an
   END packet was taken, in which case it is closed locally as well.
   */
  lemma {:induction false} PhaseIsHistory(remoteId: nat, acts: seq<Action>)
    ensures var s := Run(Connect(remoteId), acts);
      && (s.phase.Open? <==> s.error.None?) && !s.phase.RemoteClosed?
      && (s.phase.BothClosed? <==> EndTaken(Connect(remoteId), acts))
  {
    hide SenderInv, ReceiverInv, Apply, NoneEnds, Running;
    InvAlways(remoteId, acts);
    if acts != [] {
      var init := acts[..|acts| - 1];
      PhaseIsHistory(remoteId, init);
      InvAlways(remoteId, init);
      StepPhase(Run(Connect(remoteId), init), acts[|acts| - 1]);
    }
  }

  // ----- a close() and its answer -----

  /** The poll in which the driver completes. */
  predicate Completes(s: State, a: Action) {
    a.DriveOnce? && !s.finished && ClosedAndDrained(s.(driveWaker := false))
  }

  lemma StepOnClose(s: State, a: Action)
    requires ReceiverInv(s.rcv)
    ensures Apply(s, a).onClose == (a.CloseStream? || (s.onClose && !Completes(s, a)))
    ensures Apply(s, a).finished == (s.finished || Completes(s, a))
  {
    hide Drive, SendChunks, ReadNext, ReceiverInv, NoneEnds, NoneAwaited;
    match a
    case DriveOnce(batch, hungUp, timer, now) =>
      if Running(s) {
        PollBecomes(s, batch, hungUp, timer, now);
      } else {
        CompletedRest(s, a);
      }
    case Write(buf) =>
      ChunksKeepPhase(s, buf);
      ChunksKeepRunning(s, buf);
    case Read(_) =>
    case CloseStream =>
    case StampSent(_, _) =>
  }

  lemma {:induction false} ChunksKeepRunning(s: State, buf: seq<Byte>)
    ensures SendChunks(s, buf).0.finished == s.finished
    decreases |buf|
  {
    var len := Min(|buf|, UDX_MAX_DATA_SIZE);
    if buf != [] && s.snd.inflight + len <= s.snd.cwnd {
      ChunksKeepRunning(SendData(s, buf[..len]), buf[len..]);
    }
  }

  /** The `close()` at `i` has not been answered by the end of the run. */
  ghost predicate Unanswered(s: State, acts: seq<Action>, i: nat) {
    && i < |acts| && acts[i].CloseStream?
    && forall j :: i < j < |acts| ==> !Completes(Run(s, acts[..j]), acts[j])
  }

  lemma UnansweredStep(s: State, acts: seq<Action>, a: Action, i: nat)
    ensures i < |acts| ==>
      (Unanswered(s, acts + [a], i) <==> Unanswered(s, acts, i) && !Completes(Run(s, acts), a))
  {
    hide Run, Completes;
    var all := acts + [a];
    assert all[..|acts|] == acts && all[|acts|] == a;
    assert forall j :: 0 <= j < |acts| ==> all[..j] == acts[..j] && all[j] == acts[j];
  }

  /** In every run, somebody waits for a `close()` exactly if the driver has not completed since. */
  lemma {:induction false} CloseIsAwaited(remoteId: nat, acts: seq<Action>)
    ensures Run(Connect(remoteId), acts).onClose <==> exists i: nat :: Unanswered(Connect(remoteId), acts, i)
  {
    hide SenderInv, ReceiverInv, Apply, Completes, Unanswered;
    var s := Connect(remoteId);
    if acts == [] {
      assert forall i: nat :: !Unanswered(s, acts, i) by {
        NothingUnanswered(s);
      }
    } else {
      var init, last := acts[..|acts| - 1], acts[|acts| - 1];
      assert acts == init + [last];
      CloseIsAwaited(remoteId, init);
      InvAlways(remoteId, init);
      StepOnClose(Run(s, init), last);
      forall i: nat | i < |init|
        ensures Unanswered(s, acts, i) <==> Unanswered(s, init, i) && !Completes(Run(s, init), last)
      {
        UnansweredStep(s, init, last, i);
      }
      LastUnanswered(s, acts, init);
    }
  }

  lemma NothingUnanswered(s: State)
    ensures forall i: nat :: !Unanswered(s, [], i)
  {
  }

  lemma LastUnanswered(s: State, acts: seq<Action>, init: seq<Action>)
    requires acts != [] && init == acts[..|acts| - 1]
    ensures Unanswered(s, acts, |acts| - 1) <==> acts[|acts| - 1].CloseStream?
    ensures forall i: nat :: Unanswered(s, acts, i) ==> i < |acts|
    ensures forall i: nat :: Unanswered(s, init, i) ==> i < |init|
  {
  }

  /** A `close()` after the driver has completed is never answered, whatever happens. */
  lemma {:induction false} LateCloseIsNeverAnswered(s: State, acts: seq<Action>)
    requires Inv(s) && s.finished
    ensures var s' := Run(Close(s), acts); Inv(s') && s'.finished && s'.onClose
  {
    hide SenderInv, ReceiverInv, Apply, Close;
    if acts == [] {
      CloseRegisters(s);
      ApplyInv(s, CloseStream);
    } else {
      LateCloseIsNeverAnswered(s, acts[..|acts| - 1]);
      ApplyInv(Run(Close(s), acts[..|acts| - 1]), acts[|acts| - 1]);
      StepOnClose(Run(Close(s), acts[..|acts| - 1]), acts[|acts| - 1]);
    }
  }

  lemma CloseRegisters(s: State)
    ensures Close(s).onClose && Close(s).finished == s.finished && Apply(s, CloseStream) == Close(s)
  {
  }
}
