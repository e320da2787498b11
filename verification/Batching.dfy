/**
 How `poll_transmit` (src/stream.rs:454-482) cuts the send queue into packet sets: each holds
 packets of one size and at most as many as the platform segments in one call.
 */
module Batching {
  import opened Constants

  ghost predicate Uniform<T>(b: seq<T>, size: T -> nat) {
    forall i :: 0 <= i < |b| ==> size(b[i]) == size(b[0])
  }

  ghost predicate IsBatch<T>(b: seq<T>, size: T -> nat, max: nat) {
    0 < |b| <= max && Uniform(b, size)
  }

  /** An order-preserving cut of the queue into batches. */
  ghost predicate IsBatching<T>(bs: seq<seq<T>>, q: seq<T>, size: T -> nat, max: nat) {
    Flatten(bs) == q && forall i :: 0 <= i < |bs| ==> IsBatch(bs[i], size, max)
  }

  /** The length of the longest batch that starts the queue, given that its first `n` packets qualify. */
  function RunLength<T>(q: seq<T>, size: T -> nat, max: nat, n: nat): (r: nat)
    requires 0 < n <= |q| && n <= max
    ensures n <= r <= |q| && r <= max
    decreases |q| - n
  {
    if n < |q| && n < max && size(q[n]) == size(q[0]) then RunLength(q, size, max, n + 1) else n
  }

  /** Always take the longest batch. */
  function Greedy<T>(q: seq<T>, size: T -> nat, max: nat): seq<seq<T>>
    requires max > 0
    decreases |q|
  {
    if q == [] then []
    else
      var n := RunLength(q, size, max, 1);
      [q[..n]] + Greedy(q[n..], size, max)
  }

  /** The run is a batch, and every longer prefix is not. */
  lemma {:induction false} RunLengthExact<T>(q: seq<T>, size: T -> nat, max: nat, n: nat)
    requires 0 < n <= |q| && n <= max && Uniform(q[..n], size)
    ensures var r := RunLength(q, size, max, n);
      Uniform(q[..r], size) && (r == |q| || r == max || size(q[r]) != size(q[0]))
    decreases |q| - n
  {
    if n < |q| && n < max && size(q[n]) == size(q[0]) {
      assert q[..n + 1] == q[..n] + [q[n]];
      assert forall i :: 0 <= i < n ==> q[..n + 1][i] == q[..n][i];
      RunLengthExact(q, size, max, n + 1);
    }
  }

  lemma RunIsLongest<T>(q: seq<T>, size: T -> nat, max: nat, k: nat)
    requires 0 < k <= |q| && k <= max && Uniform(q[..k], size)
    ensures k <= RunLength(q, size, max, 1)
  {
    var r := RunLength(q, size, max, 1);
    assert Uniform(q[..1], size);
    RunLengthExact(q, size, max, 1);
    assert forall i :: 0 <= i < k ==> q[..k][i] == q[i];
  }

  lemma {:induction false} GreedyIsBatching<T>(q: seq<T>, size: T -> nat, max: nat)
    requires max > 0
    ensures IsBatching(Greedy(q, size, max), q, size, max)
    decreases |q|
  {
    if q != [] {
      var n := RunLength(q, size, max, 1);
      assert Uniform(q[..1], size);
      RunLengthExact(q, size, max, 1);
      GreedyIsBatching(q[n..], size, max);
      FlattenFront(q[..n], Greedy(q[n..], size, max));
      assert q == q[..n] + q[n..];
    }
  }

  /** Dropping `k` packets of the first run leaves a run that reaches at least as far. */
  lemma RunShrinks<T>(q: seq<T>, k: nat, size: T -> nat, max: nat)
    requires max > 0 && k < |q| && k < RunLength(q, size, max, 1)
    ensures RunLength(q, size, max, 1) <= k + RunLength(q[k..], size, max, 1)
  {
    var n, s := RunLength(q, size, max, 1), q[k..];
    assert Uniform(q[..1], size);
    RunLengthExact(q, size, max, 1);
    var run, tail := q[..n], s[..n - k];
    forall i | 0 <= i < |tail| ensures size(tail[i]) == size(q[0]) {
      assert tail[i] == run[k + i];
    }
    RunIsLongest(s, size, max, n - k);
  }

  /** Dropping packets from the front never needs more batches. */
  lemma {:induction false} GreedySuffix<T>(q: seq<T>, k: nat, size: T -> nat, max: nat)
    requires max > 0 && k <= |q|
    ensures |Greedy(q[k..], size, max)| <= |Greedy(q, size, max)|
    decreases |q|
  {
    if k < |q| {
      var n := RunLength(q, size, max, 1);
      if n <= k {
        GreedySuffix(q[n..], k - n, size, max);
        assert q[n..][k - n..] == q[k..];
      } else {
        RunShrinks(q, k, size, max);
        var m := RunLength(q[k..], size, max, 1);
        GreedySuffix(q[n..], k + m - n, size, max);
        assert q[n..][k + m - n..] == q[k..][m..];
      }
    }
  }

  /** No order-preserving batching of the queue uses fewer packet sets than the greedy one. */
  lemma {:induction false} GreedyIsOptimal<T>(q: seq<T>, bs: seq<seq<T>>, size: T -> nat, max: nat)
    requires max > 0 && IsBatching(bs, q, size, max)
    ensures |Greedy(q, size, max)| <= |bs|
    decreases |bs|
  {
    if bs != [] {
      var b, rest := bs[0], bs[1..];
      assert bs == [b] + rest;
      FlattenFront(b, rest);
      assert q[..|b|] == b && q[|b|..] == Flatten(rest);
      RunIsLongest(q, size, max, |b|);
      var n := RunLength(q, size, max, 1);
      GreedyIsOptimal(q[|b|..], rest, size, max);
      GreedySuffix(q[|b|..], n - |b|, size, max);
      assert q[|b|..][n - |b|..] == q[n..];
    }
  }

  /** A full batch, or one followed by a packet of another size, is what greedy takes first. */
  lemma GreedyTakes<T>(b: seq<T>, rest: seq<T>, size: T -> nat, max: nat)
    requires IsBatch(b, size, max)
    requires |b| == max || rest == [] || size(rest[0]) != size(b[0])
    ensures Greedy(b + rest, size, max) == [b] + Greedy(rest, size, max)
  {
    var q := b + rest;
    var n := RunLength(q, size, max, 1);
    assert q[..|b|] == b;
    RunIsLongest(q, size, max, |b|);
    assert Uniform(q[..1], size);
    RunLengthExact(q, size, max, 1);
    assert forall i :: 0 <= i < n ==> q[..n][i] == q[i];
    assert q[|b|..] == rest;
  }
}
