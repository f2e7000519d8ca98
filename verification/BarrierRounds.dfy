/**
 basics/pip_barrier.c, basics/pip_barrier2.c and blt/pip_barrier.c: between the two barriers of
 iteration i one task adds 1 to an unprotected counter, and everybody finds it to be i before
 the first. The three differ in who takes part and in what follows the loop.
 */
module BarrierRounds {
  import opened CyclicBarrier
  import opened Sums

  /** In basics/pip_barrier.c the tasks wait once more behind the loop, and root waits for them
      outside of the barrier; in basics/pip_barrier2.c root takes part in the barrier. */
  datatype Config = Config(nt: nat, niters: nat, withRoot: bool, extraWait: bool)
  {
    /** Party nt is root, where root takes part. */
    function Parties(): nat { nt + if withRoot then 1 else 0 }

    function Writer(i: nat): (r: nat)
      requires nt > 0
      ensures r < nt
    {
      i % nt
    }

    /** Who compares the counter with niters after its loop. */
    predicate Checks(p: nat) { !extraWait && p == if withRoot then nt else 0 }
  }

  /** blt/pip_barrier.c, once task 0 has exported barrier and counter */
  function Blt(nt: nat, niters: nat): Config { Config(nt, niters, false, false) }

  datatype PC =
    | Check(i: nat) | WaitA(i: nat) | Load(i: nat) | Store(i: nat, value: int) | WaitB(i: nat)
    | WaitC
    | LastCheck
    | Done
    | Failed

  datatype State = State(bar: Barrier, pc: seq<PC>, count: int)

  predicate Shaped(c: Config, s: State) {
    && c.nt > 0 && |s.pc| == c.Parties()
    && |s.bar.inside| == |s.bar.ticket| == |s.bar.calls| == c.Parties()
  }

  predicate AtBarrier(pc: PC) { pc.WaitA? || pc.WaitB? || pc.WaitC? }

  predicate Enabled(c: Config, s: State, p: nat) {
    && Shaped(c, s) && p < c.Parties()
    && match s.pc[p]
       case LastCheck => c.withRoot ==> forall q :: 0 <= q < c.Parties() && q != p ==> s.pc[q].Done?
       case Done => false
       case Failed => false
       case pc => AtBarrier(pc) ==> MayEnter(s.bar, p) || MayLeave(s.bar, p)
  }

  /** The head of the loop, or what follows it. */
  function Loop(c: Config, p: nat, i: nat): PC {
    if i < c.niters then Check(i) else if c.extraWait then WaitC else if c.Checks(p) then LastCheck else Done
  }

  function Next(c: Config, s: State, p: nat): State
    requires Enabled(c, s, p)
  {
    match s.pc[p]
    case Check(i) => To(s, p, if s.count != i then Failed else WaitA(i))
    case Load(i) => To(s, p, Store(i, s.count + 1))
    case Store(i, value) => To(s, p, WaitB(i)).(count := value)
    case LastCheck => To(s, p, if s.count == c.niters then Done else Failed)
    case pc =>
      if MayEnter(s.bar, p) then s.(bar := Enter(s.bar, p)) else To(s, p, Passed(c, p, pc)).(bar := Leave(s.bar, p))
  }

  function Passed(c: Config, p: nat, pc: PC): PC
    requires c.nt > 0
  {
    match pc
    case WaitA(i) => if p == c.Writer(i) then Load(i) else WaitB(i)
    case WaitB(i) => Loop(c, p, i + 1)
    case _ => Done
  }

  function To(s: State, p: nat, pc: PC): State
    requires p < |s.pc|
  {
    s.(pc := s.pc[p := pc])
  }

  predicate Legal(c: Config, s: State, ps: seq<nat>)
    decreases |ps|
  {
    ps == [] || (Enabled(c, s, ps[0]) && Legal(c, Next(c, s, ps[0]), ps[1..]))
  }

  function Run(c: Config, s: State, ps: seq<nat>): State
    requires Legal(c, s, ps)
    decreases |ps|
  {
    if ps == [] then s else Run(c, Next(c, s, ps[0]), ps[1..])
  }

  function Initial(c: Config): State {
    State(CyclicBarrier.Fresh(c.Parties(), c.Parties()), seq(c.Parties(), p requires 0 <= p => Loop(c, p, 0)), 0)
  }

  // ----- the invariant -----

  /** How many waits a party has started when it stands at `pc`. */
  function Calls(c: Config, pc: PC, inside: bool): nat {
    (if inside then 1 else 0) +
    match pc
    case Check(i) => 2 * i
    case WaitA(i) => 2 * i
    case Load(i) => 2 * i + 1
    case Store(i, _) => 2 * i + 1
    case WaitB(i) => 2 * i + 1
    case Done => if c.extraWait then 2 * c.niters + 1 else 2 * c.niters
    case _ => 2 * c.niters
  }

  ghost predicate PartyOk(c: Config, s: State, p: nat)
    requires Shaped(c, s) && p < c.Parties()
  {
    && s.bar.calls[p] == Calls(c, s.pc[p], s.bar.inside[p])
    && (s.bar.inside[p] ==> AtBarrier(s.pc[p]))
    && match s.pc[p]
       case Check(i) => i < c.niters
       case WaitA(i) => i < c.niters
       case WaitB(i) => i < c.niters
       case Load(i) => i < c.niters && p == c.Writer(i)
       case Store(i, value) => i < c.niters && p == c.Writer(i) && value == s.count + 1
       case WaitC => c.extraWait
       case LastCheck => c.Checks(p)
       case Done => true
       case Failed => false
  }

  /** The counter in terms of the barrier's round and of the one task that may have added to it. */
  function CountNow(c: Config, s: State): nat
    requires Shaped(c, s)
  {
    var i := s.bar.round / 2;
    if s.bar.round % 2 == 1 && i < c.niters && s.pc[c.Writer(i)].WaitB? then i + 1 else i
  }

  ghost predicate Inv(c: Config, s: State) {
    && Shaped(c, s) && Sound(s.bar) && s.bar.needed == c.Parties()
    && (forall p :: 0 <= p < c.Parties() ==> PartyOk(c, s, p))
    && s.count == CountNow(c, s)
  }

  lemma InitialInv(c: Config)
    requires c.nt > 0
    ensures Inv(c, Initial(c))
  {
    FreshSound(c.Parties());
  }

  lemma WaitParty(c: Config, s: State, p: nat)
    requires Inv(c, s) && Enabled(c, s, p) && AtBarrier(s.pc[p])
    ensures Shaped(c, Next(c, s, p)) && PartyOk(c, Next(c, s, p), p) && Sound(Next(c, s, p).bar)
    ensures Next(c, s, p).bar.needed == c.Parties()
  {
    assert PartyOk(c, s, p);
    if MayEnter(s.bar, p) { EnterSound(s.bar, p); } else { LeaveSound(s.bar, p); }
  }

  lemma WaitOther(c: Config, s: State, p: nat, q: nat)
    requires Inv(c, s) && Enabled(c, s, p) && AtBarrier(s.pc[p]) && q < c.Parties() && q != p
    ensures Shaped(c, Next(c, s, p)) && PartyOk(c, Next(c, s, p), q)
  {
    assert PartyOk(c, s, q);
  }

  /** When a round of the barrier ends, the counter has grown by 1 in it or not at all. */
  lemma WaitCount(c: Config, s: State, p: nat)
    requires Inv(c, s) && Enabled(c, s, p) && AtBarrier(s.pc[p])
    ensures Shaped(c, Next(c, s, p)) && s.count == CountNow(c, Next(c, s, p))
  {
    if MayEnter(s.bar, p) && s.bar.waiting + 1 == s.bar.needed {
      RoundEnds(c, s, p);
    } else {
      RoundGoesOn(c, s, p);
    }
  }

  lemma RoundGoesOn(c: Config, s: State, p: nat)
    requires Inv(c, s) && Enabled(c, s, p) && AtBarrier(s.pc[p])
    requires MayEnter(s.bar, p) ==> s.bar.waiting + 1 != s.bar.needed
    ensures Shaped(c, Next(c, s, p)) && s.count == CountNow(c, Next(c, s, p))
  {
    assert PartyOk(c, s, p);
  }

  /** Everybody is in the same wait, so the writer has stored if it is the second. */
  lemma RoundEnds(c: Config, s: State, p: nat)
    requires Inv(c, s) && Enabled(c, s, p) && AtBarrier(s.pc[p])
    requires MayEnter(s.bar, p) && s.bar.waiting + 1 == s.bar.needed
    ensures Shaped(c, Next(c, s, p)) && s.count == CountNow(c, Next(c, s, p))
  {
    LastArrival(s.bar, p);
    assert PartyOk(c, s, p) && s.bar.calls[p] == s.bar.round;
    WriterWaits(c, s, p);
  }

  /** At the end of a second wait its writer is in it, having stored; and at the end of a first
      one it has yet to store. */
  lemma WriterWaits(c: Config, s: State, p: nat)
    requires Inv(c, s) && p < c.Parties() && AtBarrier(s.pc[p]) && s.bar.calls[p] == s.bar.round && !s.bar.inside[p]
    requires forall q :: 0 <= q < c.Parties() && q != p ==> s.bar.calls[q] == s.bar.round + 1
    ensures var i := s.bar.round / 2; s.pc[c.Writer(i)].WaitB? <==> s.bar.round % 2 == 1
    ensures s.bar.round % 2 == 1 ==> s.bar.round / 2 < c.niters
  {
    var w := c.Writer(s.bar.round / 2);
    assert PartyOk(c, s, p) && PartyOk(c, s, w);
  }

  lemma CountStep(c: Config, s: State, p: nat)
    requires Inv(c, s) && Enabled(c, s, p) && !AtBarrier(s.pc[p])
    ensures Inv(c, Next(c, s, p))
  {
    assert PartyOk(c, s, p);
    forall q | 0 <= q < c.Parties() ensures PartyOk(c, Next(c, s, p), q) { CountParty(c, s, p, q); }
    CountCount(c, s, p);
  }

  lemma CountParty(c: Config, s: State, p: nat, q: nat)
    requires Inv(c, s) && Enabled(c, s, p) && !AtBarrier(s.pc[p]) && q < c.Parties()
    ensures Shaped(c, Next(c, s, p)) && PartyOk(c, Next(c, s, p), q)
  {
    assert PartyOk(c, s, p) && PartyOk(c, s, q);
  }

  lemma CountCount(c: Config, s: State, p: nat)
    requires Inv(c, s) && Enabled(c, s, p) && !AtBarrier(s.pc[p])
    ensures Shaped(c, Next(c, s, p)) && Next(c, s, p).count == CountNow(c, Next(c, s, p))
  {
    assert PartyOk(c, s, p);
  }

  lemma StepInv(c: Config, s: State, p: nat)
    requires Inv(c, s) && Enabled(c, s, p)
    ensures Inv(c, Next(c, s, p))
  {
    if AtBarrier(s.pc[p]) {
      WaitParty(c, s, p);
      forall q | 0 <= q < c.Parties() ensures PartyOk(c, Next(c, s, p), q) { if q != p { WaitOther(c, s, p, q); } }
      WaitCount(c, s, p);
    } else {
      CountStep(c, s, p);
    }
  }

  // ----- termination -----

  /** How many steps a party can take at most. */
  function StepsLeft(c: Config, pc: PC, inside: bool): int {
    (if inside then -1 else 0) +
    match pc
    case Check(i) => 8 * (c.niters - i) + 2
    case WaitA(i) => 8 * (c.niters - i) + 1
    case Load(i) => 8 * (c.niters - i) - 1
    case Store(i, _) => 8 * (c.niters - i) - 2
    case WaitB(i) => 8 * (c.niters - i) - 3
    case WaitC => 2
    case LastCheck => 1
    case _ => 0
  }

  function Ranks(c: Config, s: State): (r: seq<int>)
    requires Shaped(c, s)
    ensures |r| == |s.pc|
  {
    seq(|s.pc|, p requires 0 <= p < |s.pc| => StepsLeft(c, s.pc[p], s.bar.inside[p]))
  }

  lemma RanksNonNegative(c: Config, s: State)
    requires Inv(c, s)
    ensures forall p :: 0 <= p < c.Parties() ==> Ranks(c, s)[p] >= 0
  {
    forall p | 0 <= p < c.Parties() ensures Ranks(c, s)[p] >= 0 { assert PartyOk(c, s, p); }
  }

  ghost function Rank(c: Config, s: State): (r: int)
    requires Inv(c, s)
    ensures r >= 0
  {
    RanksNonNegative(c, s);
    SumNonNegative(Ranks(c, s));
    Sum(Ranks(c, s))
  }

  lemma RankDrops(c: Config, s: State, p: nat)
    requires Inv(c, s) && Enabled(c, s, p)
    ensures Inv(c, Next(c, s, p)) && Rank(c, Next(c, s, p)) < Rank(c, s)
  {
    StepInv(c, s, p);
    assert PartyOk(c, s, p);
    SumDrops(Ranks(c, s), Ranks(c, Next(c, s, p)), p);
  }

  // ----- what the programs promise -----

  lemma {:induction false} RunInv(c: Config, s: State, ps: seq<nat>)
    requires Inv(c, s) && Legal(c, s, ps)
    ensures Inv(c, Run(c, s, ps)) && |ps| <= Rank(c, s)
    decreases |ps|
  {
    if ps == [] {
    } else {
      RankDrops(c, s, ps[0]);
      RunInv(c, Next(c, s, ps[0]), ps[1..]);
    }
  }

  predicate Writing(pc: PC) { pc.Load? || pc.Store? }

  /** Nobody writes while another writes or reads. */
  lemma NoOverlap(c: Config, s: State, p: nat, q: nat)
    requires Inv(c, s) && p < c.Parties() && q < c.Parties() && p != q && Writing(s.pc[p])
    ensures !Writing(s.pc[q]) && !s.pc[q].Check? && !s.pc[q].LastCheck?
  {
    assert PartyOk(c, s, p) && PartyOk(c, s, q);
  }

  /** In round i everybody reads i, and after the loop everybody would read niters. */
  lemma ReadsAreRight(c: Config, s: State, p: nat)
    requires Inv(c, s) && p < c.Parties()
    ensures s.pc[p].Check? ==> s.count == s.pc[p].i
    ensures s.pc[p].LastCheck? || s.pc[p].WaitC? || s.pc[p].Done? ==> s.count == c.niters
  {
    assert PartyOk(c, s, p);
  }

  /** The parties that store to the counter, in order. */
  function Writers(c: Config, s: State, ps: seq<nat>): seq<nat>
    requires Legal(c, s, ps)
    decreases |ps|
  {
    if ps == [] then []
    else (if s.pc[ps[0]].Store? then [ps[0]] else []) + Writers(c, Next(c, s, ps[0]), ps[1..])
  }

  /** Writers of rounds a to b - 1, each its one writer. */
  function Turns(c: Config, a: int, b: int): seq<nat>
    requires c.nt > 0 && 0 <= a
    decreases b - a
  {
    if a >= b then [] else [c.Writer(a)] + Turns(c, a + 1, b)
  }

  lemma StepWrites(c: Config, s: State, p: nat)
    requires Inv(c, s) && Enabled(c, s, p)
    ensures Next(c, s, p).count == s.count + if s.pc[p].Store? then 1 else 0
    ensures s.pc[p].Store? ==> p == c.Writer(s.count)
  {
    assert PartyOk(c, s, p);
  }

  /** Exactly one party writes in each round, and it is the one whose turn it is. */
  lemma {:induction false} RunWrites(c: Config, s: State, ps: seq<nat>)
    requires Inv(c, s) && Legal(c, s, ps)
    ensures 0 <= s.count <= Run(c, s, ps).count
    ensures Writers(c, s, ps) == Turns(c, s.count, Run(c, s, ps).count)
    decreases |ps|
  {
    if ps == [] {
    } else {
      StepInv(c, s, ps[0]);
      StepWrites(c, s, ps[0]);
      RunWrites(c, Next(c, s, ps[0]), ps[1..]);
    }
  }

  /** Nobody is left at a barrier. */
  lemma NeverStuck(c: Config, s: State)
    requires Inv(c, s) && forall p :: !Enabled(c, s, p)
    ensures forall p :: 0 <= p < c.Parties() ==> s.pc[p].Done?
  {
    var f := SomebodyFree(s.bar);
    assert PartyOk(c, s, f) && !Enabled(c, s, f);
    assert s.pc[f].Done? || s.pc[f].LastCheck?;
    assert s.bar.round == s.bar.calls[f];
    forall p | 0 <= p < c.Parties() ensures s.pc[p].Done? || (s.pc[p].LastCheck? && c.Checks(p)) {
      assert PartyOk(c, s, p) && !Enabled(c, s, p);
    }
    forall p | 0 <= p < c.Parties() ensures s.pc[p].Done? { assert !Enabled(c, s, p); }
  }

  /** The main result, for all three programs: for every number of tasks and iterations and
      every schedule no CHECK fails, each round has its one writer, and when all are done all
      have waited equally often and the counter is niters. */
  lemma EveryRun(c: Config, ps: seq<nat>)
    requires c.nt > 0 && Legal(c, Initial(c), ps)
    ensures Inv(c, Initial(c)) && |ps| <= Rank(c, Initial(c))
    ensures var t := Run(c, Initial(c), ps);
      Shaped(c, t) && forall p :: 0 <= p < c.Parties() ==> !t.pc[p].Failed?
    ensures var t := Run(c, Initial(c), ps);
      (forall p :: 0 <= p < c.Parties() ==> t.pc[p].Done?) ==>
        && t.count == c.niters && Writers(c, Initial(c), ps) == Turns(c, 0, c.niters)
        && forall p :: 0 <= p < c.Parties() ==> t.bar.calls[p] == 2 * c.niters + if c.extraWait then 1 else 0
  {
    InitialInv(c);
    RunInv(c, Initial(c), ps);
    RunWrites(c, Initial(c), ps);
    Outcome(c, Run(c, Initial(c), ps));
  }

  lemma Outcome(c: Config, s: State)
    requires Inv(c, s)
    ensures forall p :: 0 <= p < c.Parties() ==> !s.pc[p].Failed?
    ensures (forall p :: 0 <= p < c.Parties() ==> s.pc[p].Done?) ==>
      && s.count == c.niters
      && forall p :: 0 <= p < c.Parties() ==> s.bar.calls[p] == 2 * c.niters + if c.extraWait then 1 else 0
  {
    forall p | 0 <= p < c.Parties()
      ensures !s.pc[p].Failed?
      ensures s.pc[p].Done? ==> s.count == c.niters && s.bar.calls[p] == 2 * c.niters + if c.extraWait then 1 else 0
    {
      assert PartyOk(c, s, p);
      ReadsAreRight(c, s, p);
    }
    assert s.pc[0].Done? ==> s.count == c.niters;
  }

  /** In blt/pip_barrier.c the counter is on task 0's stack. When task 0 has left its loop nobody
      follows the pointer to it any more; whoever is not through as well is in its last wait,
      which is over. */
  lemma OwnerMayGo(c: Config, s: State, q: nat)
    requires Inv(c, s) && c == Blt(c.nt, c.niters) && q < c.nt && (s.pc[0].LastCheck? || s.pc[0].Done?)
    ensures !s.pc[q].Check? && !Writing(s.pc[q])
    ensures s.pc[q].LastCheck? || s.pc[q].Done?
            || (s.pc[q].WaitB? && s.pc[q].i + 1 == c.niters && s.bar.inside[q] && MayLeave(s.bar, q))
  {
    assert PartyOk(c, s, 0) && PartyOk(c, s, q);
    assert s.bar.calls[0] == s.bar.round;
  }

  // ----- the owner of the barrier -----

  lemma Cons(c: Config, s: State, p: nat, rest: seq<nat>)
    requires Enabled(c, s, p) && Legal(c, Next(c, s, p), rest)
    ensures Legal(c, s, [p] + rest) && Run(c, s, [p] + rest) == Run(c, Next(c, s, p), rest)
  {
    assert ([p] + rest)[1..] == rest;
  }

  lemma {:induction false} Append(c: Config, s: State, a: seq<nat>, b: seq<nat>)
    requires Legal(c, s, a) && Legal(c, Run(c, s, a), b)
    ensures Legal(c, s, a + b) && Run(c, s, a + b) == Run(c, Run(c, s, a), b)
    decreases |a|
  {
    if a == [] {
      assert a + b == b;
    } else {
      assert (a + b)[0] == a[0] && (a + b)[1..] == a[1..] + b;
      Append(c, Next(c, s, a[0]), a[1..], b);
    }
  }

  /** Party q is inside its last wait, the one at the end of the last iteration. */
  predicate InLastWait(c: Config, s: State, q: nat) {
    Shaped(c, s) && q < c.Parties() && s.bar.inside[q] && s.pc[q].WaitB? && s.pc[q].i + 1 == c.niters
  }

  /** Only from its last wait a task other than task 0 gets to its end. */
  lemma NotYetDone(c: Config, s: State, p: nat, q: nat)
    requires c == Blt(c.nt, c.niters) && 0 < q < c.nt && Inv(c, s) && Enabled(c, s, p)
    requires !s.pc[q].Done? && !InLastWait(c, s, q)
    ensures Shaped(c, Next(c, s, p)) && !Next(c, s, p).pc[q].Done?
  {
    assert PartyOk(c, s, q);
  }

  /** Whatever the others do, a task comes to its last wait. */
  lemma {:induction false} ComesToLastWait(c: Config, s: State, q: nat) returns (ps: seq<nat>)
    requires c == Blt(c.nt, c.niters) && 0 < q < c.nt && Inv(c, s) && !s.pc[q].Done?
    ensures Legal(c, s, ps) && Inv(c, Run(c, s, ps)) && InLastWait(c, Run(c, s, ps), q)
    decreases Rank(c, s)
  {
    if InLastWait(c, s, q) {
      ps := [];
    } else if p :| Enabled(c, s, p) {
      NotYetDone(c, s, p, q);
      RankDrops(c, s, p);
      var rest := ComesToLastWait(c, Next(c, s, p), q);
      Cons(c, s, p, rest);
      ps := [p] + rest;
    } else {
      NeverStuck(c, s);
      assert false;
    }
  }

  /** While task q stays in its last wait, somebody else can go on until task 0 is done. */
  lemma OtherMoves(c: Config, s: State, q: nat) returns (p: nat)
    requires c == Blt(c.nt, c.niters) && 0 < q < c.nt && Inv(c, s) && InLastWait(c, s, q) && !s.pc[0].Done?
    ensures Enabled(c, s, p) && p != q
  {
    assert PartyOk(c, s, q) && PartyOk(c, s, 0);
    if MayLeave(s.bar, q) {
      Contract(s.bar, q);
      p := 0;
    } else {
      if forall i :: !Enabled(c, s, i) {
        NeverStuck(c, s);
        assert false;
      }
      p :| Enabled(c, s, p);
    }
  }

  lemma {:induction false} OwnerLeaves(c: Config, s: State, q: nat) returns (ps: seq<nat>)
    requires c == Blt(c.nt, c.niters) && 0 < q < c.nt && Inv(c, s) && InLastWait(c, s, q)
    ensures Legal(c, s, ps) && InLastWait(c, Run(c, s, ps), q) && Run(c, s, ps).pc[0].Done?
    decreases Rank(c, s)
  {
    if s.pc[0].Done? {
      ps := [];
    } else {
      var p := OtherMoves(c, s, q);
      RankDrops(c, s, p);
      assert InLastWait(c, Next(c, s, p), q);
      var rest := OwnerLeaves(c, Next(c, s, p), q);
      Cons(c, s, p, rest);
      ps := [p] + rest;
    }
  }

  /** The barrier, too, is on task 0's stack; and any other task may still be inside a wait on it
      when task 0 is done. */
  lemma BarrierOutlived(c: Config, q: nat) returns (ps: seq<nat>)
    requires c == Blt(c.nt, c.niters) && c.niters > 0 && 0 < q < c.nt
    ensures Legal(c, Initial(c), ps)
    ensures var t := Run(c, Initial(c), ps); InLastWait(c, t, q) && t.pc[0].Done?
  {
    InitialInv(c);
    var a := ComesToLastWait(c, Initial(c), q);
    var b := OwnerLeaves(c, Run(c, Initial(c), a), q);
    Append(c, Initial(c), a, b);
    ps := a + b;
  }

  /** Nobody is inside the barrier once its owner is done. */
  predicate OutlivesWaits(c: Config, s: State) {
    Shaped(c, s) && (s.pc[0].Done? ==> forall q :: 0 <= q < c.Parties() ==> !s.bar.inside[q])
  }

  lemma AloneOutlives(c: Config, s: State)
    requires Inv(c, s) && c == Blt(c.nt, c.niters) && (c.nt == 1 || c.niters == 0)
    ensures OutlivesWaits(c, s)
  {
    forall q | 0 <= q < c.Parties() && s.pc[0].Done? ensures !s.bar.inside[q] { assert PartyOk(c, s, q); }
  }

  /** The exact condition for the barrier to outlive all waits on it in every run: there is no
      other task, or no wait. */
  lemma OutlivesExactlyIfAlone(c: Config)
    requires c == Blt(c.nt, c.niters) && c.nt > 0
    ensures c.nt == 1 || c.niters == 0 <==>
            forall ps :: Legal(c, Initial(c), ps) ==> OutlivesWaits(c, Run(c, Initial(c), ps))
  {
    InitialInv(c);
    if c.nt == 1 || c.niters == 0 {
      forall ps | Legal(c, Initial(c), ps) ensures OutlivesWaits(c, Run(c, Initial(c), ps)) {
        RunInv(c, Initial(c), ps);
        AloneOutlives(c, Run(c, Initial(c), ps));
      }
    } else {
      var ps := BarrierOutlived(c, 1);
      assert !OutlivesWaits(c, Run(c, Initial(c), ps));
    }
  }
}
