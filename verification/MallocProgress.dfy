/**
 The tasks of compat/malloc-x.c cannot block one another for good: only boundedly many steps of a
 run are anything but polling, and from every state some run brings all tasks to their end.
 */
module MallocProgress {
  import opened CyclicBarrier
  import opened Sums
  import opened Supply
  import opened MallocSlots

  /** From the look at the counter to the trylock a task may go round and round. */
  predicate Polls(pc: PC) { pc.CheckCount? || pc.Pick? || pc.Look? || pc.TryLock? }

  /** A step that does not lead from polling to polling. */
  predicate Useful(c: Config, s: State, st: Step)
    requires Enabled(c, s, st)
  {
    Polls(s.pc[st.p]) ==> !Polls(Next(c, s, st).pc[st.p])
  }

  // ----- useful steps are bounded -----

  /** How many useful steps a task can take at most. */
  function StepsLeft(c: Config, pc: PC, inside: bool): int {
    match pc
    case FirstMalloc => 8 * c.niters + 7
    case FirstStore(_) => 8 * c.niters + 6
    case FirstWho => 8 * c.niters + 5
    case AtBarrier => 8 * c.niters + if inside then 3 else 4
    case CheckCount(i) => 8 * (c.niters - i) + 2
    case Pick(i) => 8 * (c.niters - i) + 2
    case Look(i, _) => 8 * (c.niters - i) + 2
    case TryLock(i, _) => 8 * (c.niters - i) + 2
    case Probe(i, _) => 8 * (c.niters - i) + 1
    case Free(i, _) => 8 * (c.niters - i)
    case Malloc(i, _) => 8 * (c.niters - i) - 1
    case Store(i, _, _) => 8 * (c.niters - i) - 2
    case SetWho(i, _) => 8 * (c.niters - i) - 3
    case Unlock(i, _) => 8 * (c.niters - i) - 4
    case Leave => 1
    case _ => 0
  }

  function Ranks(c: Config, s: State): (r: seq<int>)
    requires Shaped(c, s)
    ensures |r| == c.nt
  {
    seq(c.nt, p requires 0 <= p < c.nt => StepsLeft(c, s.pc[p], s.bar.inside[p]))
  }

  lemma RanksNonNegative(c: Config, s: State)
    requires Inv(c, s)
    ensures forall p :: 0 <= p < c.nt ==> Ranks(c, s)[p] >= 0
  {
    forall p | 0 <= p < c.nt ensures Ranks(c, s)[p] >= 0 { assert TaskOk(c, s, p); }
  }

  ghost function Rank(c: Config, s: State): (r: nat)
    requires Inv(c, s)
  {
    RanksNonNegative(c, s);
    SumNonNegative(Ranks(c, s));
    Sum(Ranks(c, s))
  }

  ghost predicate Falls(c: Config, s: State, st: Step)
    requires Enabled(c, s, st)
  {
    var t, p := Next(c, s, st), st.p;
    && Shaped(c, t) && t.pc == s.pc[p := t.pc[p]] && t.bar.inside == s.bar.inside[p := t.bar.inside[p]]
    && var before, after := StepsLeft(c, s.pc[p], s.bar.inside[p]), StepsLeft(c, t.pc[p], t.bar.inside[p]);
       after <= before && (Useful(c, s, st) ==> after < before)
  }

  lemma OwnRank(c: Config, s: State, st: Step)
    requires Inv(c, s) && Enabled(c, s, st)
    ensures Falls(c, s, st)
  {
    assert TaskOk(c, s, st.p);
    if SlotStep(s.pc[st.p]) { SlotFalls(c, s, st); } else { OutsideFalls(c, s, st); }
  }

  lemma SlotFalls(c: Config, s: State, st: Step)
    requires Enabled(c, s, st) && SlotStep(s.pc[st.p]) && TaskOk(c, s, st.p)
    ensures Falls(c, s, st)
  {
    assert s.bar.inside == s.bar.inside[st.p := s.bar.inside[st.p]];
  }

  lemma OutsideFalls(c: Config, s: State, st: Step)
    requires Enabled(c, s, st) && !SlotStep(s.pc[st.p]) && TaskOk(c, s, st.p)
    ensures Falls(c, s, st)
  {
    assert s.bar.inside == s.bar.inside[st.p := s.bar.inside[st.p]];
  }

  lemma StepRank(c: Config, s: State, st: Step)
    requires Inv(c, s) && Enabled(c, s, st)
    ensures Inv(c, Next(c, s, st)) && Rank(c, Next(c, s, st)) <= Rank(c, s)
    ensures Useful(c, s, st) ==> Rank(c, Next(c, s, st)) < Rank(c, s)
  {
    StepInv(c, s, st);
    OwnRank(c, s, st);
    var t := Next(c, s, st);
    assert Ranks(c, t) == Ranks(c, s)[st.p := Ranks(c, t)[st.p]];
    SumUpdate(Ranks(c, s), st.p, Ranks(c, t)[st.p]);
  }

  function UsefulSteps(c: Config, s: State, sts: seq<Step>): nat
    requires Legal(c, s, sts)
    decreases |sts|
  {
    if sts == [] then 0
    else (if Useful(c, s, sts[0]) then 1 else 0) + UsefulSteps(c, Next(c, s, sts[0]), sts[1..])
  }

  /** In every run, all but boundedly many steps are polling. */
  lemma {:induction false} UsefulBounded(c: Config, s: State, sts: seq<Step>)
    requires Inv(c, s) && Legal(c, s, sts)
    ensures UsefulSteps(c, s, sts) <= Rank(c, s)
    decreases |sts|
  {
    if sts == [] {
    } else {
      StepRank(c, s, sts[0]);
      UsefulBounded(c, Next(c, s, sts[0]), sts[1..]);
    }
  }

  // ----- and there is always one to be had -----

  ghost predicate AllFree(c: Config, s: State)
    requires Shaped(c, s)
  {
    forall n :: 0 <= n < c.nt ==> s.lock[n] == -1
  }

  lemma Cons(c: Config, s: State, st: Step, rest: seq<Step>)
    requires Enabled(c, s, st) && Legal(c, Next(c, s, st), rest)
    ensures Legal(c, s, [st] + rest) && Run(c, s, [st] + rest) == Run(c, Next(c, s, st), rest)
  {
    assert ([st] + rest)[1..] == rest;
  }

  lemma {:induction false} Append(c: Config, s: State, a: seq<Step>, b: seq<Step>)
    requires Legal(c, s, a) && Legal(c, Run(c, s, a), b)
    ensures Legal(c, s, a + b) && Run(c, s, a + b) == Run(c, Run(c, s, a), b)
    decreases |a|
  {
    if a == [] {
      assert a + b == b;
    } else {
      assert (a + b)[0] == a[0] && (a + b)[1..] == a[1..] + b;
      Append(c, Next(c, s, a[0]), a[1..], b);
    }
  }

  /** How far a task that always tries slot n is from its next useful step. */
  function Distance(c: Config, s: State, p: nat): nat
    requires Shaped(c, s) && p < c.nt
  {
    match s.pc[p]
    case CheckCount(_) => if s.count == 0 then 2 else 4
    case Pick(_) => if s.count == 0 then 4 else 3
    case Look(_, n) => if n < c.nt && s.who[n] != p then 1 else if s.count == 0 then 3 else 5
    case _ => 0
  }

  /** Where a task that always picks slot n gets to with all locks free: into the slot it has in
      view already, if another task filled that one; else out of its loop if its iterations are
      over or the counter is 0, and into slot n if not. */
  function Aim(c: Config, s: State, p: nat, n: nat): PC
    requires Shaped(c, s) && p < c.nt && n < c.nt && SlotInRange(c, s.pc[p]) && Polls(s.pc[p])
  {
    match s.pc[p]
    case TryLock(i, m) => Probe(i, m)
    case Look(i, m) => if s.who[m] != p then Probe(i, m) else FromTop(c, s, i, n)
    case Pick(i) => if s.who[n] != p then Probe(i, n) else MallocSlots.Leave
    case CheckCount(i) => FromTop(c, s, i, n)
  }

  function FromTop(c: Config, s: State, i: nat, n: nat): PC {
    if i == c.niters || s.count == 0 then MallocSlots.Leave else Probe(i, n)
  }

  /** With all locks free, a task gets into slot n, or whatever slot it has in view, unless it
      filled it itself; and from the head of its loop it leaves if the counter is 0. */
  lemma {:induction false} Attempt(c: Config, s: State, p: nat, n: nat) returns (sts: seq<Step>)
    requires Inv(c, s) && p < c.nt && n < c.nt && Polls(s.pc[p]) && AllFree(c, s)
    requires s.who[n] != p || s.count == 0
    ensures Legal(c, s, sts) && Inv(c, Run(c, s, sts)) && Rank(c, Run(c, s, sts)) < Rank(c, s)
    ensures SlotInRange(c, s.pc[p]) && Run(c, s, sts).pc[p] == Aim(c, s, p, n)
    decreases Distance(c, s, p)
  {
    assert TaskOk(c, s, p);
    var st := if s.pc[p].Pick? then Choose(p, n) else Go(p);
    var t := Next(c, s, st);
    StepRank(c, s, st);
    if Useful(c, s, st) {
      Cons(c, s, st, []);
      sts := [st] + [];
    } else {
      StillPolls(c, s, st);
      AimStays(c, s, st, n);
      var rest := Attempt(c, t, p, n);
      Cons(c, s, st, rest);
      sts := [st] + rest;
    }
  }

  lemma StillPolls(c: Config, s: State, st: Step)
    requires Inv(c, s) && AllFree(c, s) && Enabled(c, s, st) && Polls(s.pc[st.p]) && !Useful(c, s, st)
    requires st.Choose? ==> s.who[st.n] != st.p || s.count == 0
    ensures var t := Next(c, s, st);
      && Shaped(c, t) && Polls(t.pc[st.p]) && AllFree(c, t) && t.who == s.who && t.count == s.count
      && Distance(c, t, st.p) < Distance(c, s, st.p)
  {
    assert TaskOk(c, s, st.p);
  }

  lemma AimStays(c: Config, s: State, st: Step, n: nat)
    requires Inv(c, s) && AllFree(c, s) && Enabled(c, s, st) && n < c.nt && Polls(s.pc[st.p]) && !Useful(c, s, st)
    requires s.who[n] != st.p || s.count == 0
    requires st.Choose? ==> st.n == n
    ensures var t := Next(c, s, st);
      && Shaped(c, t) && SlotInRange(c, t.pc[st.p]) && Polls(t.pc[st.p]) && Aim(c, t, st.p, n) == Aim(c, s, st.p, n)
  {
  }

  /** Whoever is neither polling nor waiting nor finished can take a useful step. */
  lemma WorkerMoves(c: Config, s: State, p: nat) returns (st: Step)
    requires Inv(c, s) && p < c.nt && !Polls(s.pc[p]) && !s.pc[p].AtBarrier? && !s.pc[p].Finished?
    ensures Enabled(c, s, st) && Useful(c, s, st)
  {
    assert TaskOk(c, s, p);
    var b := NotInUse(s.live);
    st := if s.pc[p].FirstMalloc? || s.pc[p].Malloc? then Get(p, b) else Go(p);
  }

  /** When all others poll or are finished, somebody who waits at the barrier may go on. */
  lemma WaiterMoves(c: Config, s: State, p: nat) returns (q: nat)
    requires Inv(c, s) && p < c.nt && s.pc[p].AtBarrier?
    requires forall i :: 0 <= i < c.nt ==> Polls(s.pc[i]) || s.pc[i].AtBarrier? || s.pc[i].Finished?
    ensures q < c.nt && Enabled(c, s, Go(q)) && Useful(c, s, Go(q))
  {
    q := SomebodyFree(s.bar);
    assert TaskOk(c, s, q) && TaskOk(c, s, p);
    if !s.pc[q].AtBarrier? { q := p; }
  }

  /** The counter is 0 for the last task, and for no other. */
  lemma LastSeesZero(c: Config, s: State, p: nat)
    requires Inv(c, s) && p < c.nt && !s.pc[p].Finished?
    requires forall q :: 0 <= q < c.nt && q != p ==> s.pc[q].Finished?
    ensures s.count == 0
  {
    var f := FinishedFlags(s);
    SumUpdate(f, p, 1);
    SumSame(f[p := 1], 1);
  }

  lemma PollersProgress(c: Config, s: State, p: nat) returns (sts: seq<Step>)
    requires Inv(c, s) && p < c.nt && !s.pc[p].Finished?
    requires forall i :: 0 <= i < c.nt ==> Polls(s.pc[i]) || s.pc[i].Finished?
    ensures Legal(c, s, sts) && Inv(c, Run(c, s, sts)) && Rank(c, Run(c, s, sts)) < Rank(c, s)
  {
    forall n | 0 <= n < c.nt ensures s.lock[n] == -1 { assert SlotOk(c, s, n); }
    if q :| 0 <= q < c.nt && q != p && !s.pc[q].Finished? {
      sts := Attempt(c, s, if s.who[0] != p then p else q, 0);
    } else {
      LastSeesZero(c, s, p);
      sts := Attempt(c, s, p, 0);
    }
  }

  lemma Progress(c: Config, s: State, p: nat) returns (sts: seq<Step>)
    requires Inv(c, s) && p < c.nt && !s.pc[p].Finished?
    ensures Legal(c, s, sts) && Inv(c, Run(c, s, sts)) && Rank(c, Run(c, s, sts)) < Rank(c, s)
  {
    if q :| 0 <= q < c.nt && !Polls(s.pc[q]) && !s.pc[q].AtBarrier? && !s.pc[q].Finished? {
      var st := WorkerMoves(c, s, q);
      sts := OneStep(c, s, st);
    } else if q :| 0 <= q < c.nt && s.pc[q].AtBarrier? {
      var f := WaiterMoves(c, s, q);
      sts := OneStep(c, s, Go(f));
    } else {
      sts := PollersProgress(c, s, p);
    }
  }

  lemma OneStep(c: Config, s: State, st: Step) returns (sts: seq<Step>)
    requires Inv(c, s) && Enabled(c, s, st) && Useful(c, s, st)
    ensures Legal(c, s, sts) && Inv(c, Run(c, s, sts)) && Rank(c, Run(c, s, sts)) < Rank(c, s)
  {
    StepRank(c, s, st);
    Cons(c, s, st, []);
    sts := [st] + [];
  }

  /** The main result: whatever has happened so far, the tasks can still all finish. */
  lemma {:induction false} CanFinish(c: Config, s: State) returns (sts: seq<Step>)
    requires Inv(c, s)
    ensures Legal(c, s, sts) && Shaped(c, Run(c, s, sts))
    ensures forall p :: 0 <= p < c.nt ==> Run(c, s, sts).pc[p].Finished?
    decreases Rank(c, s)
  {
    if p :| 0 <= p < c.nt && !s.pc[p].Finished? {
      var a := Progress(c, s, p);
      var b := CanFinish(c, Run(c, s, a));
      Append(c, s, a, b);
      sts := a + b;
    } else {
      sts := [];
    }
  }

  /** So it is in every run: useful steps are bounded, and there is a way on to the end. */
  lemma EveryRunCanFinish(c: Config, s: State, sts: seq<Step>) returns (more: seq<Step>)
    requires Initial(c, s) && Legal(c, s, sts)
    ensures Inv(c, s) && UsefulSteps(c, s, sts) <= Rank(c, s)
    ensures Legal(c, s, sts + more) && Shaped(c, Run(c, s, sts + more))
    ensures forall p :: 0 <= p < c.nt ==> Run(c, s, sts + more).pc[p].Finished?
  {
    InitialInv(c, s);
    RunInv(c, s, sts);
    UsefulBounded(c, s, sts);
    more := CanFinish(c, Run(c, s, sts));
    Append(c, s, sts, more);
  }
}
