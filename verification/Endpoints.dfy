/**
 What holds of one stream against a peer that acknowledges only what was sent and sends no SACKs
 holds of either side of every network run, because the other side is such a peer.
 */
module Endpoints {
  import opened Constants
  import opened StreamModel
  import opened StreamInvariant
  import opened Network
  import opened Retransmission
  import opened Window
  import opened Parking
  import opened GivingUp

  /** The actions of side A in a network run. */
  function ActsOfA(moves: seq<Move>): seq<Action> {
    if moves == [] then []
    else
      ActsOfA(moves[..|moves| - 1])
      + if moves[|moves| - 1].MoveA? then [moves[|moves| - 1].act] else []
  }

  lemma StepIsApply(n: Net, m: Move)
    ensures Step(n, m).a == if m.MoveA? then Apply(n.a, m.act) else n.a
  {
    hide StepA, Apply;
    match m
    case MoveA(act) => StepAActs(n, act);
    case MoveB(act) => StepAActs(n.Mirror(), act);
    case Drop(_, _) =>
  }

  /** An enabled move brings side A only what a sound peer would send. */
  lemma EnabledIsSound(n: Net, act: Action)
    requires NetInv(n) && Enabled(n, MoveA(act))
    ensures SoundAcks(act, n.a.snd.nextSeq) && NoSacks(act)
  {
    hide Inv;
    assert Linked(n) && Linked(n.Mirror());
    if act.DriveOnce? {
      forall i | 0 <= i < |act.batch| ensures act.batch[i].header.ack <= n.a.snd.nextSeq && NoSack(act.batch[i]) {
        var f := act.batch[i];
        assert f in act.batch;
        assert f in n.fromB && FrameOk(f, n.b);
      }
    }
  }

  lemma SoundOneMore(s: State, acts: seq<Action>, a: Action)
    requires SoundRun(s, acts) && SoundAcks(a, Run(s, acts).snd.nextSeq)
    ensures SoundRun(s, acts + [a]) && Run(s, acts + [a]) == Apply(Run(s, acts), a)
  {
    hide Apply, SoundAcks;
    assert (acts + [a])[..|acts|] == acts;
  }

  ghost predicate SoundSide(s: State, acts: seq<Action>, now: State) {
    Run(s, acts) == now && SoundRun(s, acts) && forall i :: 0 <= i < |acts| ==> NoSacks(acts[i])
  }

  lemma SideStep(s: State, acts: seq<Action>, n: Net, m: Move)
    requires SoundSide(s, acts, n.a) && NetInv(n) && Enabled(n, m)
    ensures SoundSide(s, acts + if m.MoveA? then [m.act] else [], Step(n, m).a)
  {
    hide Step, Apply, NetInv, Enabled, Run, SoundRun, SoundAcks, NoSacks;
    StepIsApply(n, m);
    if m.MoveA? {
      EnabledIsSound(n, m.act);
      SoundOneMore(s, acts, m.act);
    } else {
      assert acts + [] == acts;
    }
  }

  lemma SideStarts(idA: nat, idB: nat)
    ensures SoundSide(Connect(idB), [], Start(idA, idB).a)
  {
  }

  /** Side A of a network run is a run of one stream with a sound peer. */
  lemma {:induction false} SideIsRun(idA: nat, idB: nat, moves: seq<Move>)
    requires AllEnabled(Start(idA, idB), moves)
    ensures SoundSide(Connect(idB), ActsOfA(moves), Exec(Start(idA, idB), moves).a)
  {
    hide SoundSide, Step, NetInv, Enabled, Start, Connect;
    if moves == [] {
      SideStarts(idA, idB);
    } else {
      var init, last := moves[..|moves| - 1], moves[|moves| - 1];
      SideIsRun(idA, idB, init);
      StartInv(idA, idB);
      ExecInv(Start(idA, idB), init);
      SideStep(Connect(idB), ActsOfA(init), Exec(Start(idA, idB), init), last);
    }
  }

  // ----- the two sides are alike -----

  function Swap(m: Move): Move {
    match m
    case MoveA(act) => MoveB(act)
    case MoveB(act) => MoveA(act)
    case Drop(lostA, lostB) => Drop(lostB, lostA)
  }

  function SwapAll(moves: seq<Move>): seq<Move> {
    if moves == [] then [] else SwapAll(moves[..|moves| - 1]) + [Swap(moves[|moves| - 1])]
  }

  lemma SwapStep(n: Net, m: Move)
    ensures Step(n.Mirror(), Swap(m)) == Step(n, m).Mirror()
    ensures Enabled(n, m) ==> Enabled(n.Mirror(), Swap(m))
  {
    hide StepA;
    assert n.Mirror().Mirror() == n;
  }

  /** Seen from the other side, a network run is a network run. */
  lemma {:induction false} SwapRun(idA: nat, idB: nat, moves: seq<Move>)
    requires AllEnabled(Start(idA, idB), moves)
    ensures AllEnabled(Start(idB, idA), SwapAll(moves))
    ensures Exec(Start(idB, idA), SwapAll(moves)) == Exec(Start(idA, idB), moves).Mirror()
  {
    hide Step, Enabled;
    if moves != [] {
      var init, last := moves[..|moves| - 1], moves[|moves| - 1];
      SwapRun(idA, idB, init);
      SwapStep(Exec(Start(idA, idB), init), last);
      assert SwapAll(moves)[..|SwapAll(moves)| - 1] == SwapAll(init);
    }
  }

  // ----- the theorems about one stream, for a side of the network -----

  /** In every network run, a side that has not given up keeps its bytes in flight within its window. */
  lemma NetworkWindowSafety(idA: nat, idB: nat, moves: seq<Move>)
    requires AllEnabled(Start(idA, idB), moves) && NeverGivesUp(Connect(idB), ActsOfA(moves))
    ensures var snd := Exec(Start(idA, idB), moves).a.snd;
      snd.cwnd >= UDX_MTU && snd.inflight <= snd.cwnd + UDX_HEADER_SIZE
  {
    hide Run, SoundRun, NeverGivesUp, Exec;
    SideIsRun(idA, idB, moves);
    WindowSafety(idB, ActsOfA(moves));
  }

  /** In every reachable state, neither side has a parked writer without outstanding data. */
  lemma NetworkWriterIsNeverStranded(n: Net)
    requires Reachable(n)
    ensures WriterCared(n.a) && WriterCared(n.b)
  {
    hide Run, SoundRun, Exec, WriterCared, NoSacks;
    var idA, idB, moves :| AllEnabled(Start(idA, idB), moves) && n == Exec(Start(idA, idB), moves);
    SideIsRun(idA, idB, moves);
    ParkedWriterIsNeverStranded(idB, ActsOfA(moves));
    SwapRun(idA, idB, moves);
    SideIsRun(idB, idA, SwapAll(moves));
    ParkedWriterIsNeverStranded(idA, ActsOfA(SwapAll(moves)));
  }

  /**
   In every network run, a side with outstanding data that has not given up gives up at the seventh
   effective firing of its timer if it hears nothing new from the other side.
   */
  lemma NetworkGivesUp(idA: nat, idB: nat, moves: seq<Move>, acts: seq<Action>)
    requires AllEnabled(Start(idA, idB), moves) && NeverGivesUp(Connect(idB), ActsOfA(moves))
    requires var s := Exec(Start(idA, idB), moves).a;
      && |s.snd.outgoing| > 0 && !s.finished && Firings(s, acts) >= 7
      && AllSilent(acts, s.snd.remoteAcked)
    ensures !NeverGivesUp(Exec(Start(idA, idB), moves).a, acts)
  {
    hide Run, SoundRun, NeverGivesUp, Exec, Firings, AllSilent;
    SideIsRun(idA, idB, moves);
    SilentPeerIsGivenUp(idB, ActsOfA(moves), acts);
  }
}
