/**
 The cyclic barrier of pthread_barrier_wait (POSIX.1-2017, System Interfaces) and
 pip_barrier_wait: it counts calls, not callers. The call that brings the count to
 `needed` resets it and opens the next round; a caller may return once the round it
 found on entry is over. `calls` is the number of waits each participant has started.
 */
module CyclicBarrier {
  import opened Sums

  datatype Barrier = Barrier(
    needed: nat, waiting: nat, round: nat,
    inside: seq<bool>, ticket: seq<nat>, calls: seq<nat>)

  function Fresh(needed: nat, participants: nat): Barrier {
    Barrier(needed, 0, 0, seq(participants, i => false), seq(participants, i => 0), seq(participants, i => 0))
  }

  predicate MayEnter(b: Barrier, p: nat) {
    p < |b.inside| && !b.inside[p]
  }

  predicate MayLeave(b: Barrier, p: nat) {
    p < |b.inside| && p < |b.ticket| && b.inside[p] && b.ticket[p] != b.round
  }

  function Enter(b: Barrier, p: nat): Barrier
    requires p < |b.inside| == |b.ticket| == |b.calls|
  {
    var last := b.waiting + 1 == b.needed;
    Barrier(b.needed,
            if last then 0 else b.waiting + 1,
            if last then b.round + 1 else b.round,
            b.inside[p := true], b.ticket[p := b.round], b.calls[p := b.calls[p] + 1])
  }

  function Leave(b: Barrier, p: nat): Barrier
    requires p < |b.inside|
  {
    b.(inside := b.inside[p := false])
  }

  ghost predicate Sound(b: Barrier) {
    && |b.inside| == |b.ticket| == |b.calls| == b.needed
    && 0 < b.needed
    && b.waiting < b.needed
    && (forall p {:trigger b.calls[p]} | 0 <= p < b.needed ::
          && b.round <= b.calls[p] <= b.round + 1
          && (b.calls[p] > b.round ==> b.inside[p])
          && (b.inside[p] ==> b.ticket[p] + 1 == b.calls[p]))
    && Sum(b.calls) == b.needed * b.round + b.waiting
  }

  lemma FreshSound(n: nat)
    requires n > 0
    ensures Sound(Fresh(n, n))
  {
    SumSame(Fresh(n, n).calls, 0);
  }

  /** The POSIX contract: a wait ends exactly when every participant has started a wait with
      at least its number, although the barrier only ever counted calls. */
  lemma Contract(b: Barrier, p: nat)
    requires Sound(b) && p < b.needed && b.inside[p]
    ensures MayLeave(b, p) <==> forall q :: 0 <= q < b.needed ==> b.calls[q] >= b.calls[p]
  {
    assert b.needed * (b.round + 1) == b.needed * b.round + b.needed;
    if b.calls[p] == b.round + 1 && forall q :: 0 <= q < b.needed ==> b.calls[q] >= b.calls[p] {
      SumSame(b.calls, b.round + 1);
      assert false;
    }
  }

  lemma EnterSound(b: Barrier, p: nat)
    requires Sound(b) && p < b.needed && !b.inside[p]
    ensures Sound(Enter(b, p))
  {
    SumUpdate(b.calls, p, b.calls[p] + 1);
    if b.waiting + 1 == b.needed { LastArrival(b, p); }
  }

  /** The call that completes the count is the last of its round: everybody has joined it. */
  lemma LastArrival(b: Barrier, p: nat)
    requires Sound(b) && p < b.needed && !b.inside[p] && b.waiting + 1 == b.needed
    ensures forall q :: 0 <= q < b.needed && q != p ==> b.calls[q] == b.round + 1
    ensures Sum(b.calls) + 1 == b.needed * (b.round + 1)
  {
    var after := b.calls[p := b.calls[p] + 1];
    SumUpdate(b.calls, p, b.calls[p] + 1);
    assert b.needed * (b.round + 1) == b.needed * b.round + b.needed;
    SumAtMost(after, b.round + 1);
    forall q | 0 <= q < b.needed && q != p ensures b.calls[q] == b.round + 1 {
      assert after[q] == b.calls[q];
    }
  }

  lemma LeaveSound(b: Barrier, p: nat)
    requires Sound(b) && p < b.needed && MayLeave(b, p)
    ensures Sound(Leave(b, p))
  {
  }

  /** The barrier itself never wedges: somebody is outside, or somebody may return. */
  lemma SomebodyFree(b: Barrier) returns (p: nat)
    requires Sound(b)
    ensures p < b.needed && (!b.inside[p] || MayLeave(b, p))
  {
    assert b.needed * (b.round + 1) == b.needed * b.round + b.needed;
    if forall q :: 0 <= q < b.needed ==> b.inside[q] && !MayLeave(b, q) {
      forall q | 0 <= q < b.needed ensures b.calls[q] == b.round + 1 {
        assert b.inside[q] && !MayLeave(b, q);
      }
      SumSame(b.calls, b.round + 1);
      assert false;
    }
    p :| 0 <= p < b.needed && (!b.inside[p] || MayLeave(b, p));
  }
}
