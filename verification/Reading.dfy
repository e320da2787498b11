/**
 What a reader is told and when it is woken (src/stream.rs:675-680, 708-726, 809-838), exactly, for one
 read and over whole runs.
 */
module Reading {
  import opened Constants
  import opened Ledger
  import opened StreamModel
  import opened StreamInvariant
  import opened Parking
  import opened Reassembly
  import opened Arrivals

  /**
   The answer of a read, in every state of a stream: it is ready exactly if the cursor moved, fails with
   the stream's error exactly if the cursor did not move and there is one, and otherwise parks. Whatever
   it answers, it delivers the front of what is readable, as much as fits.
   */
  lemma ReadAnswers(s: State, room: nat)
    requires Inv(s)
    ensures var r := PollRead(s, room);
      && (r.poll.Ready? <==> s.rcv.readCursor < r.s.rcv.readCursor)
      && (forall e :: r.poll == Failed(e) <==> r.s.rcv.readCursor == s.rcv.readCursor && s.error == Some(e))
      && (r.poll.Pending? <==> r.s.rcv.readCursor == s.rcv.readCursor && s.error.None?)
      && r.s.readWaker == (s.readWaker || r.poll.Pending?)
      && r.bytes + Readable(r.s.rcv) == Readable(s.rcv) && |r.bytes| == Min(room, |Readable(s.rcv)|)
      && r.s == s.(rcv := r.s.rcv, readWaker := r.s.readWaker)
  {
    hide Readable, ReadNext, SenderInv, ReceiverInv;
    ReadNextInv(s.rcv, room);
  }

  /** With nothing readable, an open stream parks the reader and a closed one reports its error. */
  lemma EmptyReadAnswers(s: State, room: nat)
    requires Inv(s) && s.rcv.readCursor == s.rcv.ack
    ensures var r := PollRead(s, room);
      r.bytes == [] && r.poll == if s.error.Some? then Failed(s.error.value) else Pending
  {
  }

  /**
   A poll leaves a parked reader parked exactly if nothing it could read next has arrived, nothing ended
   the stream and the poll did not fail. In particular it is woken whenever something becomes readable.
   */
  lemma PollWakesReader(s: State, batch: seq<Frame>, hungUp: bool, timer: bool, now: nat)
    requires Inv(s) && Running(s) && s.readWaker
    ensures var d := Drive(s, batch, hungUp, timer, now);
      && (d.s.readWaker <==> NoneAwaited(batch, s.rcv.ack) && NoneEnds(batch) && !d.outcome.Aborted?)
      && (d.s.rcv.ack > s.rcv.ack ==> !d.s.readWaker)
  {
    hide Drive, SenderInv, ReceiverInv, NoneAwaited, NoneEnds;
    PollBecomes(s, batch, hungUp, timer, now);
  }

  // ----- over runs -----

  /** A read of the run: the buffer it was given, what it got, and what was readable after it. */
  datatype PastRead = PastRead(room: nat, bytes: seq<Byte>, rest: seq<Byte>, cursor: nat)

  ghost function LastRead(s: State, acts: seq<Action>): Option<PastRead> {
    if acts == [] then None
    else
      var init, last := acts[..|acts| - 1], acts[|acts| - 1];
      if last.Read? then
        var r := PollRead(Run(s, init), last.room);
        Some(PastRead(last.room, r.bytes, Readable(r.s.rcv), r.s.rcv.readCursor))
      else LastRead(s, init)
  }

  /**
   Nothing has become readable since the read, which took every packet there was, or filled its buffer
   and left part of the next packet.
   */
  ghost predicate StillWaits(s: State, past: Option<PastRead>) {
    && past.Some? && s.error.None?
    && s.rcv.readCursor == past.value.cursor && Readable(s.rcv) == past.value.rest
    && (s.rcv.readCursor == s.rcv.ack || (past.value.rest != [] && |past.value.bytes| == past.value.room))
  }

  /** A read does not stop at a packet without unread bytes. */
  lemma {:induction false} ReadStops(rcv: Receiver, room: nat)
    requires ReceiverInv(rcv)
    ensures var rcv' := ReadNext(rcv, room).0;
      rcv'.readCursor in rcv'.incoming ==>
      var p := rcv'.incoming[rcv'.readCursor]; p.readOffset < |p.buf|
    decreases rcv.incoming.Keys
  {
    if rcv.readCursor in rcv.incoming {
      var p := rcv.incoming[rcv.readCursor];
      var rest := p.buf[p.readOffset..];
      if |rest| <= room {
        ReadableStep(rcv);
        ReadStops(rcv.(incoming := rcv.incoming - {rcv.readCursor}, readCursor := rcv.readCursor + 1), room - |rest|);
      }
    }
  }

  lemma UnreadIsReadable(rcv: Receiver)
    requires ReceiverInv(rcv) && rcv.readCursor < rcv.ack
    requires var p := rcv.incoming[rcv.readCursor]; p.readOffset < |p.buf|
    ensures Readable(rcv) != []
  {
  }

  lemma ReadStarts(s: State, room: nat)
    requires Inv(s) && (s.readWaker ==> s.error.None?)
    ensures var r := PollRead(s, room);
      r.s.readWaker ==>
      StillWaits(r.s, Some(PastRead(room, r.bytes, Readable(r.s.rcv), r.s.rcv.readCursor)))
  {
    hide Readable, ReadNext, SenderInv;
    ReadAnswers(s, room);
    ReadStops(s.rcv, room);
    ReadNextInv(s.rcv, room);
    var rcv := PollRead(s, room).s.rcv;
    if rcv.readCursor != rcv.ack {
      UnreadIsReadable(rcv);
    }
  }

  lemma DriveKeepsReadable(s: State, a: Action)
    requires Inv(s) && a.DriveOnce? && s.readWaker && Apply(s, a).readWaker
    ensures var s' := Apply(s, a);
      && s'.error == s.error && s'.rcv.readCursor == s.rcv.readCursor && s'.rcv.ack == s.rcv.ack
      && Readable(s'.rcv) == Readable(s.rcv)
  {
    hide HandleAll, Retransmit, Received, SenderInv, ReceiverInv, Readable;
    var awake := s.(driveWaker := false);
    if Running(s) {
      PollBecomes(s, a.batch, a.hungUp, a.timer, a.now);
      PollEnds(s, a.batch, a.hungUp, a.timer, a.now);
      assert !a.hungUp;
      ReceivedRest(awake, a.batch, a.now);
      RetransmitRest(Received(awake, a.batch, a.now), a.timer, a.now);
      BatchExtends(awake, a.batch, a.now);
      SameGapSameBytes(s.rcv, HandleAll(awake, a.batch, a.now).rcv);
    }
  }

  /** If the gap has not moved, the same bytes are readable. */
  lemma SameGapSameBytes(rcv: Receiver, rcv': Receiver)
    requires ReceiverInv(rcv) && Extends(rcv, rcv') && rcv'.ack == rcv.ack
    ensures Readable(rcv') == Readable(rcv)
  {
    hide Readable;
    ReadableIgnoresOlder(rcv, rcv');
  }

  lemma OtherKeepsReadable(s: State, a: Action)
    requires !a.DriveOnce? && !a.Read? && Apply(s, a).readWaker
    ensures var s' := Apply(s, a); s.readWaker && s'.error == s.error && s'.rcv == s.rcv
  {
    hide Drive, ReadNext, SendChunks;
    if a.Write? {
      ChunksKeepReader(s, a.buf);
    }
  }

  lemma {:induction false} ChunksKeepReader(s: State, buf: seq<Byte>)
    ensures var s' := SendChunks(s, buf).0; s'.readWaker == s.readWaker && s'.error == s.error && s'.rcv == s.rcv
    decreases |buf|
  {
    var len := Min(|buf|, UDX_MAX_DATA_SIZE);
    if buf != [] && s.snd.inflight + len <= s.snd.cwnd {
      ChunksKeepReader(SendData(s, buf[..len]), buf[len..]);
    }
  }

  lemma DriveOnlyWakes(s: State, a: Action)
    requires Inv(s) && a.DriveOnce? && Apply(s, a).readWaker
    ensures s.readWaker
  {
    hide Drive, SenderInv, ReceiverInv, NoneAwaited, NoneEnds;
    if Running(s) {
      PollBecomes(s, a.batch, a.hungUp, a.timer, a.now);
    } else {
      CompletedKeepsWaker(s, a);
    }
  }

  lemma CompletedKeepsWaker(s: State, a: Action)
    requires a.DriveOnce? && !Running(s)
    ensures Apply(s, a).readWaker == s.readWaker
  {
    hide HandleAll, Received, Retransmit;
  }

  /**
   In every run, a reader that is parked has not been passed by: the stream is open, nothing has become
   readable since its last read, and that read took all there was or filled its buffer in a packet that
   has more.
   */
  lemma {:induction false} ParkedReaderIsNotPassedBy(remoteId: nat, acts: seq<Action>)
    ensures var s := Run(Connect(remoteId), acts); s.readWaker ==> StillWaits(s, LastRead(Connect(remoteId), acts))
  {
    hide Inv, Apply, StillWaits, PollRead;
    if acts == [] {
      NobodyReads(remoteId);
    } else {
      var init, last := acts[..|acts| - 1], acts[|acts| - 1];
      ParkedReaderIsNotPassedBy(remoteId, init);
      InvAlways(remoteId, init);
      ReaderStep(Run(Connect(remoteId), init), last, LastRead(Connect(remoteId), init));
    }
  }

  lemma NobodyReads(remoteId: nat)
    ensures !Connect(remoteId).readWaker
  {
  }

  lemma ReaderStep(s: State, a: Action, past: Option<PastRead>)
    requires Inv(s) && (s.readWaker ==> StillWaits(s, past))
    ensures var s' := Apply(s, a);
      s'.readWaker ==>
      if a.Read? then
        var r := PollRead(s, a.room);
        StillWaits(s', Some(PastRead(a.room, r.bytes, Readable(r.s.rcv), r.s.rcv.readCursor)))
      else StillWaits(s', past)
  {
    hide Inv, Drive, SendChunks, Readable;
    if a.Read? {
      ReadStarts(s, a.room);
    } else if a.DriveOnce? {
      if Apply(s, a).readWaker {
        DriveOnlyWakes(s, a);
        DriveKeepsReadable(s, a);
      }
    } else if Apply(s, a).readWaker {
      OtherKeepsReadable(s, a);
    }
  }
}
