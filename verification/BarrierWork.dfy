/**
 The steps of the three `pip_barrier` programs one by one: who adds to the counter when, and which
 steps of its loop each party takes.
 */
module BarrierWork {
  import opened CyclicBarrier
  import opened BarrierRounds
  import opened Sequences

  // ----- who writes -----

  lemma {:induction false} TurnsAre(c: Config, a: nat, b: nat)
    requires c.nt > 0 && a <= b
    ensures |Turns(c, a, b)| == b - a
    ensures forall j :: 0 <= j < b - a ==> Turns(c, a, b)[j] == (a + j) % c.nt
    decreases b - a
  {
    if a == b {
    } else {
      TurnsAre(c, a + 1, b);
      forall j | 0 <= j < b - a ensures Turns(c, a, b)[j] == (a + j) % c.nt {
        if j > 0 { assert Turns(c, a, b)[j] == Turns(c, a + 1, b)[j - 1] && a + j == a + 1 + (j - 1); }
      }
    }
  }

  /** The m-th store to the counter in a run is that of task m % ntasks, and there have been as many
      as the counter says. */
  lemma WritersTakeTurns(c: Config, ps: seq<nat>)
    requires c.nt > 0 && Legal(c, Initial(c), ps)
    ensures var w := Writers(c, Initial(c), ps);
      |w| == Run(c, Initial(c), ps).count && forall m :: 0 <= m < |w| ==> w[m] == m % c.nt
  {
    InitialInv(c);
    RunWrites(c, Initial(c), ps);
    TurnsAre(c, 0, Run(c, Initial(c), ps).count);
  }

  // ----- the steps of a party's loop -----

  /** A check in the loop, or the return from one of its two barriers. */
  predicate Works(s: State, p: nat)
    requires p < |s.pc|
  {
    s.pc[p].Check? || ((s.pc[p].WaitA? || s.pc[p].WaitB?) && !MayEnter(s.bar, p))
  }

  function Part(s: State, q: nat, p: nat): seq<PC>
    requires p < |s.pc|
  {
    if q == p && Works(s, p) then [s.pc[p]] else []
  }

  lemma StepShaped(c: Config, s: State, p: nat)
    requires Enabled(c, s, p)
    ensures Shaped(c, Next(c, s, p))
  {
  }

  /** What party p does in its loop in a run: the points that it goes on from. */
  function Work(c: Config, s: State, ps: seq<nat>, p: nat): seq<PC>
    requires Legal(c, s, ps) && Shaped(c, s) && p < c.Parties()
    decreases |ps|
  {
    if ps == [] then []
    else
      StepShaped(c, s, ps[0]);
      Part(s, ps[0], p) + Work(c, Next(c, s, ps[0]), ps[1..], p)
  }

  predicate EntryOk(w: seq<PC>, j: nat)
    requires j < |w|
  {
    match w[j]
    case Check(i) => j == 3 * i
    case WaitA(i) => j == 3 * i + 1
    case WaitB(i) => j == 3 * i + 2
    case _ => false
  }

  function Progress(c: Config, pc: PC): int {
    match pc
    case Check(i) => 3 * i
    case WaitA(i) => 3 * i + 1
    case Load(i) => 3 * i + 2
    case Store(i, _) => 3 * i + 2
    case WaitB(i) => 3 * i + 2
    case _ => 3 * c.niters
  }

  ghost predicate Tally(c: Config, s: State, p: nat, w: seq<PC>)
    requires p < |s.pc|
  {
    |w| == Progress(c, s.pc[p]) && forall j :: 0 <= j < |w| ==> EntryOk(w, j)
  }

  lemma StepProgress(c: Config, s: State, q: nat, p: nat)
    requires Inv(c, s) && Enabled(c, s, q) && p < c.Parties()
    ensures var t, own := Next(c, s, q), q == p && Works(s, p);
      |t.pc| == |s.pc| && Progress(c, t.pc[p]) == Progress(c, s.pc[p]) + if own then 1 else 0
  {
    assert PartyOk(c, s, p);
  }

  lemma {:induction false} TallyRun(c: Config, s: State, ps: seq<nat>, p: nat, w: seq<PC>)
    requires Inv(c, s) && Legal(c, s, ps) && p < c.Parties() && Tally(c, s, p, w)
    ensures Shaped(c, Run(c, s, ps)) && Tally(c, Run(c, s, ps), p, w + Work(c, s, ps, p))
    decreases |ps|
  {
    if ps == [] {
      NothingMore(w);
    } else {
      var more := Part(s, ps[0], p);
      StepInv(c, s, ps[0]);
      StepProgress(c, s, ps[0], p);
      forall j | 0 <= j < |w + more| ensures EntryOk(w + more, j) { if j < |w| { assert EntryOk(w, j); } }
      TallyRun(c, Next(c, s, ps[0]), ps[1..], p, w + more);
      Associates(w, more, Work(c, Next(c, s, ps[0]), ps[1..], p));
    }
  }

  /** In every run each party checks the counter and passes two barriers in iteration 0, in iteration 1,
      and so on; and when it is done it has done so in all niters. */
  lemma EveryPartyWorks(c: Config, ps: seq<nat>, p: nat)
    requires c.nt > 0 && Legal(c, Initial(c), ps) && p < c.Parties()
    ensures var w := Work(c, Initial(c), ps, p); forall j :: 0 <= j < |w| ==> EntryOk(w, j)
    ensures var t := Run(c, Initial(c), ps);
      Shaped(c, t) && (t.pc[p].Done? ==> |Work(c, Initial(c), ps, p)| == 3 * c.niters)
  {
    InitialInv(c);
    TallyRun(c, Initial(c), ps, p, []);
    NothingMore(Work(c, Initial(c), ps, p));
  }

  // ----- the last check -----

  /** How often a party compares the counter with niters. */
  function LastChecks(c: Config, s: State, ps: seq<nat>, p: nat): nat
    requires Legal(c, s, ps) && p < |s.pc|
    decreases |ps|
  {
    if ps == [] then 0
    else
      (if ps[0] == p && s.pc[p].LastCheck? then 1 else 0)
      + if p < |Next(c, s, ps[0]).pc| then LastChecks(c, Next(c, s, ps[0]), ps[1..], p) else 0
  }

  /** Root, where it takes part, or else task 0, unless the tasks wait once more. */
  predicate Compares(c: Config, p: nat) { !c.extraWait && p == if c.withRoot then c.nt else 0 }

  lemma {:induction false} OneLastCheck(c: Config, s: State, ps: seq<nat>, p: nat)
    requires Inv(c, s) && Legal(c, s, ps) && p < c.Parties()
    ensures Shaped(c, Run(c, s, ps))
    ensures Run(c, s, ps).pc[p].Done? && !s.pc[p].Done? ==>
              LastChecks(c, s, ps, p) == if Compares(c, p) then 1 else 0
    ensures s.pc[p].Done? ==> LastChecks(c, s, ps, p) == 0 && Run(c, s, ps).pc[p].Done?
    decreases |ps|
  {
    if ps == [] {
    } else {
      StepInv(c, s, ps[0]);
      assert PartyOk(c, s, p);
      OneLastCheck(c, Next(c, s, ps[0]), ps[1..], p);
    }
  }

  /** Where root takes part, it makes the last check only when all tasks have ended. */
  ghost predicate RootIsLast(c: Config, s: State) {
    && Inv(c, s) && c.withRoot && !c.extraWait
    && (s.pc[c.nt].Done? ==> forall q :: 0 <= q < c.nt ==> s.pc[q].Done?)
  }

  lemma {:induction false} RootStaysLast(c: Config, s: State, ps: seq<nat>)
    requires Legal(c, s, ps) && RootIsLast(c, s)
    ensures RootIsLast(c, Run(c, s, ps))
    decreases |ps|
  {
    if ps == [] {
    } else {
      StepInv(c, s, ps[0]);
      assert PartyOk(c, s, c.nt);
      RootStaysLast(c, Next(c, s, ps[0]), ps[1..]);
    }
  }

  /** Who is done has compared the counter with niters once if it is its part to do so and never if
      not; and root has done it last of all. */
  lemma LastCheckIsMade(c: Config, ps: seq<nat>, p: nat)
    requires c.nt > 0 && Legal(c, Initial(c), ps) && p < c.Parties() && c.niters > 0
    ensures var t := Run(c, Initial(c), ps);
      && Shaped(c, t)
      && (t.pc[p].Done? ==> LastChecks(c, Initial(c), ps, p) == if Compares(c, p) then 1 else 0)
      && (c.withRoot && !c.extraWait && t.pc[c.nt].Done? ==> forall q :: 0 <= q < c.nt ==> t.pc[q].Done?)
  {
    InitialInv(c);
    OneLastCheck(c, Initial(c), ps, p);
    if c.withRoot && !c.extraWait { RootStaysLast(c, Initial(c), ps); }
  }

  /** A load and the store behind it add 1 to whatever the counter holds. */
  lemma AddsOne(c: Config, s: State, p: nat)
    requires Enabled(c, s, p) && s.pc[p].Load?
    ensures Enabled(c, Next(c, s, p), p) && Next(c, Next(c, s, p), p).count == s.count + 1
  {
  }

  /** A counter that is wrong is noticed, whatever state the program is in. */
  lemma WrongIsNoticed(c: Config, s: State, p: nat)
    requires Enabled(c, s, p) && (s.pc[p].Check? || s.pc[p].LastCheck?)
    ensures p < |Next(c, s, p).pc|
    ensures Next(c, s, p).pc[p].Failed? <==> s.count != if s.pc[p].Check? then s.pc[p].i else c.niters
  {
  }
}
