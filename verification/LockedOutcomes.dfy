/**
 How the race in the first phase of porting/spinlock.c can come out: it may leave a zero, on which
 main gives up, exactly if there are several threads; and all can come to their end exactly if it
 may leave something else or main does not look.
 */
module LockedOutcomes {
  import opened CyclicBarrier
  import opened Sums
  import opened LockedCount

  lemma Cons(c: Config, s: State, p: nat, rest: seq<nat>)
    requires Enabled(c, s, p) && Legal(c, Next(c, s, p), rest)
    ensures Legal(c, s, [p] + rest) && Run(c, s, [p] + rest) == Run(c, Next(c, s, p), rest)
  {
    assert ([p] + rest)[1..] == rest;
  }

  lemma {:induction false} Append(c: Config, s: State, a: seq<nat>, b: seq<nat>)
    requires Legal(c, s, a) && Legal(c, Run(c, s, a), b)
    ensures Legal(c, s, a + b) && Run(c, s, a + b) == Run(c, Run(c, s, a), b)
    decreases |a|
  {
    if a == [] {
      assert a + b == b;
    } else {
      assert (a + b)[0] == a[0] && (a + b)[1..] == a[1..] + b;
      Append(c, Next(c, s, a[0]), a[1..], b);
    }
  }

  // ----- races without interruption -----

  /** What a thread between its two race steps has added. */
  function Owed(p: nat, pc: PC): int { if pc.Racing? && !pc.add then Inc(p) else 0 }

  function AllOwed(s: State): (r: seq<int>)
    ensures |r| == |s.pc|
  {
    seq(|s.pc|, p requires 0 <= p < |s.pc| => Owed(p, s.pc[p]))
  }

  /** Main has yet to look at the counter. */
  predicate BeforeCheck(pc: PC) { (pc.Wait? && pc.k <= 1) || pc.CheckRace? }

  /** Nobody is between load and store, and updates lost before amount to `d`. */
  ghost predicate Calm(c: Config, s: State, d: int) {
    && Inv(c, s) && (forall p :: 0 <= p < c.nt ==> !s.pc[p].RacingStore?)
    && BeforeCheck(s.pc[c.nt]) && s.count == Sum(AllOwed(s)) + d
  }

  /** Before main's check nobody is past the second barrier. */
  lemma NobodyLocks(c: Config, s: State, p: nat)
    requires Inv(c, s) && BeforeCheck(s.pc[c.nt]) && p < c.nt
    ensures !Locks(s.pc[p]) && (s.pc[c.nt].CheckRace? ==> !Races(s.pc[p]))
  {
    assert PartyOk(c, s, p) && PartyOk(c, s, c.nt);
    if !s.bar.inside[p] { Together(c, s, p, c.nt); }
    if !s.bar.inside[c.nt] { Together(c, s, c.nt, p); }
  }

  /** A load and the store behind it. */
  lemma RacePair(c: Config, s: State, p: nat, d: int)
    requires Calm(c, s, d) && p < c.nt && s.pc[p].Racing? && Enabled(c, s, p)
    ensures var t := Next(c, s, p); Enabled(c, t, p) && Calm(c, Next(c, t, p), d)
    ensures Inv(c, Next(c, s, p)) && Rank(c, Next(c, Next(c, s, p), p)) < Rank(c, s)
  {
    var t := Next(c, s, p);
    StepRank(c, s, p);
    StepRank(c, t, p);
    var u := Next(c, t, p);
    assert PartyOk(c, s, p);
    assert AllOwed(u) == AllOwed(s)[p := Owed(p, u.pc[p])];
    SumUpdate(AllOwed(s), p, Owed(p, u.pc[p]));
  }

  lemma OtherStep(c: Config, s: State, p: nat, d: int)
    requires Calm(c, s, d) && Useful(c, s, p) && !s.pc[p].Racing? && !(p == c.nt && s.pc[p].CheckRace?)
    ensures Calm(c, Next(c, s, p), d) && Rank(c, Next(c, s, p)) < Rank(c, s)
  {
    StepRank(c, s, p);
    assert PartyOk(c, s, p);
    if p < c.nt { NobodyLocks(c, s, p); }
    assert AllOwed(Next(c, s, p)) == AllOwed(s);
  }

  lemma SomebodyMoves(c: Config, s: State) returns (p: nat)
    requires Inv(c, s) && BeforeCheck(s.pc[c.nt])
    ensures Useful(c, s, p)
  {
    if forall q :: !Useful(c, s, q) {
      NeverStuck(c, s);
      assert false;
    }
    p :| Useful(c, s, p);
  }

  /** When every load is followed by its store, main finds what was lost before, and nothing else. */
  lemma {:induction false} ToCheck(c: Config, s: State, d: int) returns (ps: seq<nat>)
    requires Calm(c, s, d)
    ensures Legal(c, s, ps)
    ensures var t := Run(c, s, ps); Inv(c, t) && t.pc[c.nt].CheckRace? && t.count == d
    decreases Rank(c, s)
  {
    if s.pc[c.nt].CheckRace? {
      forall p | 0 <= p < |s.pc| ensures AllOwed(s)[p] == 0 { if p < c.nt { NobodyLocks(c, s, p); } }
      SumSame(AllOwed(s), 0);
      ps := [];
    } else {
      var p := SomebodyMoves(c, s);
      assert PartyOk(c, s, p);
      if s.pc[p].Racing? {
        RacePair(c, s, p, d);
        var rest := ToCheck(c, Next(c, Next(c, s, p), p), d);
        Cons(c, Next(c, s, p), p, rest);
        Cons(c, s, p, [p] + rest);
        ps := [p] + ([p] + rest);
      } else {
        OtherStep(c, s, p, d);
        var rest := ToCheck(c, Next(c, s, p), d);
        Cons(c, s, p, rest);
        ps := [p] + rest;
      }
    }
  }

  /** After main's reset. */
  lemma ResetIsCalm(c: Config, s: State)
    requires Initial(c, s)
    ensures Enabled(c, s, c.nt) && Calm(c, Next(c, s, c.nt), 0)
  {
    InitialInv(c, s);
    StepInv(c, s, c.nt);
    SumSame(AllOwed(Next(c, s, c.nt)), 0);
  }

  predicate AllDone(c: Config, s: State) { Shaped(c, s) && forall p :: 0 <= p < c.Parties() ==> s.pc[p].Done? }

  /** A run in which main gives up, and one in which everybody comes to the end. */
  predicate GivesUp(c: Config, s: State, ps: seq<nat>) {
    Legal(c, s, ps) && var t := Run(c, s, ps); Shaped(c, t) && t.pc[c.nt].NoRace?
  }

  predicate Finishes(c: Config, s: State, ps: seq<nat>) { Legal(c, s, ps) && AllDone(c, Run(c, s, ps)) }

  lemma MainGivesUp(c: Config, s: State) returns (ps: seq<nat>)
    requires Initial(c, s) && c.nt > 1
    ensures GivesUp(c, s, ps)
  {
    ResetIsCalm(c, s);
    var t := Next(c, s, c.nt);
    var a := ToCheck(c, t, 0);
    var u := Run(c, t, a);
    Cons(c, u, c.nt, []);
    Append(c, t, a, [c.nt] + []);
    Cons(c, s, c.nt, a + ([c.nt] + []));
    ps := [c.nt] + (a + ([c.nt] + []));
  }

  // ----- one thread -----

  /** With one thread nothing is ever lost. */
  ghost predicate Alone(c: Config, s: State) {
    && Inv(c, s) && c.nt == 1 && !s.pc[1].NoRace?
    && (BeforeCheck(s.pc[1]) ==>
          match s.pc[0]
          case Racing(_, add) => s.count == if add then 0 else Inc(0)
          case RacingStore(_, add, value) => s.count == (if add then 0 else Inc(0)) && value == Inc(0) - s.count
          case _ => s.count == 0)
  }

  lemma AtReset(c: Config, s: State, p: nat)
    requires Inv(c, s) && s.pc[c.nt].Reset? && p < c.nt
    ensures s.pc[p] == Wait(0)
  {
    assert PartyOk(c, s, c.nt) && PartyOk(c, s, p);
    if !s.bar.inside[p] { Together(c, s, p, c.nt); }
  }

  lemma AloneStep(c: Config, s: State, p: nat)
    requires Alone(c, s) && Enabled(c, s, p)
    ensures Alone(c, Next(c, s, p))
  {
    StepInv(c, s, p);
    assert PartyOk(c, s, p);
    if BeforeCheck(s.pc[1]) { NobodyLocks(c, s, 0); }
    if s.pc[1].Reset? { AtReset(c, s, 0); }
  }

  lemma {:induction false} AloneRun(c: Config, s: State, ps: seq<nat>)
    requires Alone(c, s) && Legal(c, s, ps)
    ensures Alone(c, Run(c, s, ps))
    decreases |ps|
  {
    if ps == [] {
    } else {
      AloneStep(c, s, ps[0]);
      AloneRun(c, Next(c, s, ps[0]), ps[1..]);
    }
  }

  /** Main can find a zero and give up if and only if there is more than one thread. */
  lemma GivesUpExactlyIfSeveral(c: Config, s: State)
    requires Initial(c, s)
    ensures c.nt > 1 <==> exists ps :: GivesUp(c, s, ps)
  {
    if c.nt > 1 {
      var ps := MainGivesUp(c, s);
      assert GivesUp(c, s, ps);
    } else {
      InitialInv(c, s);
      forall ps | Legal(c, s, ps) ensures !GivesUp(c, s, ps) { AloneRun(c, s, ps); }
    }
  }

  // ----- a lost update -----

  /** Nobody has started to race; the parties below k have called their first barrier. */
  ghost predicate Entered(c: Config, s: State, k: nat) {
    && Inv(c, s) && s.count == 0
    && forall q :: 0 <= q < c.Parties() ==> s.pc[q] == Wait(0) && (s.bar.inside[q] <==> q < k)
  }

  lemma {:induction false} EnterAll(c: Config, s: State, k: nat) returns (ps: seq<nat>)
    requires Entered(c, s, k) && k <= c.Parties()
    ensures Legal(c, s, ps) && Entered(c, Run(c, s, ps), c.Parties())
    decreases c.Parties() - k
  {
    if k == c.Parties() {
      ps := [];
    } else {
      StepInv(c, s, k);
      var rest := EnterAll(c, Next(c, s, k), k + 1);
      Cons(c, s, k, rest);
      ps := [k] + rest;
    }
  }

  /** Threads 0 and 1 leave the barrier, while the others are still in it. */
  lemma BothLeave(c: Config, s: State)
    requires Entered(c, s, c.Parties()) && c.nt > 1 && c.niters > 0
    ensures Enabled(c, s, 0) && Enabled(c, Next(c, s, 0), 1)
    ensures var t := Next(c, Next(c, s, 0), 1);
      Inv(c, t) && t == s.(bar := t.bar, pc := s.pc[0 := Racing(0, true)][1 := Racing(0, true)])
  {
    forall q | 0 <= q < c.Parties() ensures s.bar.calls[q] == 1 { assert PartyOk(c, s, q); }
    Contract(s.bar, 0);
    StepInv(c, s, 0);
    var t := Next(c, s, 0);
    forall q | 0 <= q < c.Parties() ensures t.bar.calls[q] == 1 { assert s.bar.calls[q] == 1; }
    Contract(t.bar, 1);
    StepInv(c, t, 1);
  }

  /** Thread 0 loads after thread 1 has added, and stores after thread 1 has taken it back. */
  lemma Interleave(c: Config, s: State) returns (ps: seq<nat>)
    requires Shaped(c, s) && c.nt > 1 && c.niters > 0 && s.count == 0 && s.pc[0] == s.pc[1] == Racing(0, true)
    ensures Legal(c, s, ps)
    ensures var then' := if 1 < c.niters then Racing(1, true) else Wait(1);
      Run(c, s, ps) == s.(pc := s.pc[1 := then'][0 := Racing(0, false)], count := Inc(0) + Inc(1))
  {
    var s1 := Next(c, s, 1);
    var s2 := Next(c, s1, 1);
    var s3 := Next(c, s2, 0);
    var s4 := Next(c, s3, 1);
    var s5 := Next(c, s4, 1);
    Cons(c, s5, 0, []);
    Cons(c, s4, 1, [0] + []);
    Cons(c, s3, 1, [1] + ([0] + []));
    Cons(c, s2, 0, [1] + ([1] + ([0] + [])));
    Cons(c, s1, 1, [0] + ([1] + ([1] + ([0] + []))));
    Cons(c, s, 1, [1] + ([0] + ([1] + ([1] + ([0] + [])))));
    ps := [1] + ([1] + ([0] + ([1] + ([1] + ([0] + [])))));
  }

  lemma LoseOne(c: Config, s: State) returns (ps: seq<nat>)
    requires Inv(c, s) && c.nt > 1 && s.count == 0 && s.pc[0] == s.pc[1] == Racing(0, true)
    requires forall q :: 2 <= q < c.Parties() ==> s.pc[q] == Wait(0)
    ensures Legal(c, s, ps) && Calm(c, Run(c, s, ps), Inc(1))
  {
    assert PartyOk(c, s, 1);
    ps := Interleave(c, s);
    RunInv(c, s, ps);
    OwesTen(Run(c, s, ps));
  }

  /** Only thread 0 owes anything. */
  lemma OwesTen(s: State)
    requires |s.pc| > 1 && s.pc[0] == Racing(0, false)
    requires forall q :: 1 <= q < |s.pc| ==> Owed(q, s.pc[q]) == 0
    ensures Sum(AllOwed(s)) == Inc(0)
  {
    var none := s.(pc := s.pc[0 := Wait(1)]);
    SumSame(AllOwed(none), 0);
    SumUpdate(AllOwed(none), 0, Inc(0));
    assert AllOwed(s) == AllOwed(none)[0 := Inc(0)];
  }

  /** Main has passed its check. */
  predicate Checked(pc: PC) { (pc.Wait? && pc.k >= 2) || pc.ResetAgain? || pc.ReadCount? || pc.Join? || pc.Done? }

  lemma {:induction false} ToEnd(c: Config, s: State) returns (ps: seq<nat>)
    requires Inv(c, s) && Checked(s.pc[c.nt])
    ensures Legal(c, s, ps) && AllDone(c, Run(c, s, ps))
    decreases Rank(c, s)
  {
    if forall p :: !Useful(c, s, p) {
      NeverStuck(c, s);
      ps := [];
    } else {
      var p :| Useful(c, s, p);
      StepRank(c, s, p);
      assert PartyOk(c, Next(c, s, p), c.nt);
      var rest := ToEnd(c, Next(c, s, p));
      Cons(c, s, p, rest);
      ps := [p] + rest;
    }
  }

  /** From a quiet state before main's check to the end, if main does not give up. */
  lemma PastCheck(c: Config, s: State, d: int) returns (ps: seq<nat>)
    requires Calm(c, s, d) && (c.nt == 1 || d != 0)
    ensures Legal(c, s, ps) && AllDone(c, Run(c, s, ps))
  {
    var a := ToCheck(c, s, d);
    var t := Run(c, s, a);
    StepInv(c, t, c.nt);
    var b := ToEnd(c, Next(c, t, c.nt));
    Cons(c, t, c.nt, b);
    Append(c, s, a, [c.nt] + b);
    ps := a + ([c.nt] + b);
  }

  lemma AllFinish(c: Config, s: State) returns (ps: seq<nat>)
    requires Initial(c, s) && (c.nt == 1 || c.niters > 0)
    ensures Legal(c, s, ps) && AllDone(c, Run(c, s, ps))
  {
    ResetIsCalm(c, s);
    var t := Next(c, s, c.nt);
    if c.nt == 1 {
      var rest := PastCheck(c, t, 0);
      Cons(c, s, c.nt, rest);
      ps := [c.nt] + rest;
    } else {
      var a := EnterAll(c, t, 0);
      var u := Run(c, t, a);
      BothLeave(c, u);
      var v := Next(c, Next(c, u, 0), 1);
      var b := LoseOne(c, v);
      var d := PastCheck(c, Run(c, v, b), Inc(1));
      Append(c, v, b, d);
      Cons(c, Next(c, u, 0), 1, b + d);
      Cons(c, u, 0, [1] + (b + d));
      Append(c, t, a, [0] + ([1] + (b + d)));
      Cons(c, s, c.nt, a + ([0] + ([1] + (b + d))));
      ps := [c.nt] + (a + ([0] + ([1] + (b + d))));
    }
  }

  // ----- without iterations -----

  /** With several threads and nothing to race, main finds its own zero. */
  ghost predicate Idle(c: Config, s: State) {
    && Inv(c, s) && c.nt > 1 && c.niters == 0
    && (s.pc[c.nt].Reset? || s.pc[c.nt].NoRace? || (BeforeCheck(s.pc[c.nt]) && s.count == 0))
  }

  lemma {:induction false} IdleRun(c: Config, s: State, ps: seq<nat>)
    requires Idle(c, s) && Legal(c, s, ps)
    ensures Idle(c, Run(c, s, ps))
    decreases |ps|
  {
    if ps == [] {
    } else {
      StepInv(c, s, ps[0]);
      assert PartyOk(c, s, ps[0]);
      IdleRun(c, Next(c, s, ps[0]), ps[1..]);
    }
  }

  /** Some run brings everybody to the end if and only if there is one thread or something to race. */
  lemma FinishesExactlyIf(c: Config, s: State)
    requires Initial(c, s)
    ensures c.nt == 1 || c.niters > 0 <==> exists ps :: Finishes(c, s, ps)
  {
    if c.nt == 1 || c.niters > 0 {
      var ps := AllFinish(c, s);
      assert Finishes(c, s, ps);
    } else {
      InitialInv(c, s);
      forall ps | Legal(c, s, ps) ensures !Finishes(c, s, ps) { IdleRun(c, s, ps); }
    }
  }
}
