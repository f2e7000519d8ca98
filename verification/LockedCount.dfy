/**
 porting/spinlock.c: threads add to a shared counter and subtract again, first without and
 then with a lock. `count += inc` is a load and a store, so the first phase may leave anything;
 main resets the counter between two barriers. Party nt is main.
 */
module LockedCount {
  import opened CyclicBarrier
  import opened Sums

  datatype Config = Config(nt: nat, niters: nat)
  {
    function Parties(): nat { nt + 1 }
    function Waits(): nat { 4 + nt }
  }

  function Inc(p: nat): int { p + 10 }

  datatype PC =
    | Wait(k: nat)                                                  // its barrier number k
    | Racing(i: nat, add: bool) | RacingStore(i: nat, add: bool, value: int)
    | Try(i: nat, add: bool) | Load(i: nat, add: bool) | Store(i: nat, add: bool, value: int)
    | Unlock(i: nat, add: bool)
    | Reset | CheckRace | ResetAgain | ReadCount | Join             // main
    | Done
    | NoRace                                                        // main gives up: the race left a zero
    | Failed

  /** The lock is free when it is -1; `seen` is what main has read. */
  datatype State = State(bar: Barrier, pc: seq<PC>, lock: int, count: int, seen: int)

  predicate Shaped(c: Config, s: State) {
    && c.nt > 0 && |s.pc| == c.Parties()
    && |s.bar.inside| == |s.bar.ticket| == |s.bar.calls| == c.Parties()
  }

  predicate Enabled(c: Config, s: State, p: nat) {
    && Shaped(c, s) && p < c.Parties()
    && match s.pc[p]
       case Wait(_) => MayEnter(s.bar, p) || MayLeave(s.bar, p)
       case Join => forall q :: 0 <= q < c.nt ==> s.pc[q].Done?
       case Done => false
       case NoRace => false
       case Failed => false
       case _ => true
  }

  function To(s: State, p: nat, pc: PC): State
    requires p < |s.pc|
  {
    s.(pc := s.pc[p := pc])
  }

  function Plus(p: nat, add: bool): int { if add then Inc(p) else -Inc(p) }

  function Next(c: Config, s: State, p: nat): State
    requires Enabled(c, s, p)
  {
    match s.pc[p]
    case Wait(k) =>
      if MayEnter(s.bar, p) then s.(bar := Enter(s.bar, p))
      else To(s, p, if p == c.nt then MainPassed(c, k) else ThreadPassed(c, k)).(bar := Leave(s.bar, p))
    case Racing(i, add) => To(s, p, RacingStore(i, add, s.count + Plus(p, add)))
    case RacingStore(i, add, value) =>
      To(s, p, if add then Racing(i, false) else if i + 1 < c.niters then Racing(i + 1, true) else Wait(1))
      .(count := value)
    case Try(i, add) => if s.lock == -1 then To(s, p, Load(i, add)).(lock := p) else s
    case Load(i, add) => To(s, p, Store(i, add, s.count + Plus(p, add)))
    case Store(i, add, value) => To(s, p, Unlock(i, add)).(count := value)
    case Unlock(i, add) =>
      To(s, p, if add then Try(i, false) else if i + 1 < c.niters then Try(i + 1, true) else Wait(3)).(lock := -1)
    case Reset => To(s, p, Wait(0)).(count := 0)
    case CheckRace => To(s, p, if c.nt > 1 && s.count == 0 then NoRace else ResetAgain)
    case ResetAgain => To(s, p, Wait(2)).(count := 0)
    case ReadCount => To(s, p, Wait(4)).(seen := s.count)
    case Join => To(s, p, if s.seen != 0 then Failed else Done)
  }

  function ThreadPassed(c: Config, k: nat): PC {
    if k == 0 && c.niters > 0 then Racing(0, true)
    else if k == 2 && c.niters > 0 then Try(0, true)
    else if k + 1 < c.Waits() then Wait(k + 1)
    else Done
  }

  function MainPassed(c: Config, k: nat): PC {
    if k == 1 then CheckRace else if k == 3 then ReadCount else if k + 1 < c.Waits() then Wait(k + 1) else Join
  }

  predicate Legal(c: Config, s: State, ps: seq<nat>)
    decreases |ps|
  {
    ps == [] || (Enabled(c, s, ps[0]) && Legal(c, Next(c, s, ps[0]), ps[1..]))
  }

  function Run(c: Config, s: State, ps: seq<nat>): State
    requires Legal(c, s, ps)
    decreases |ps|
  {
    if ps == [] then s else Run(c, Next(c, s, ps[0]), ps[1..])
  }

  predicate Initial(c: Config, s: State) {
    && Shaped(c, s) && s.bar == CyclicBarrier.Fresh(c.Parties(), c.Parties()) && s.lock == -1
    && s.pc[c.nt] == Reset && forall p :: 0 <= p < c.nt ==> s.pc[p] == Wait(0)
  }

  // ----- the invariant -----

  predicate Races(pc: PC) { pc.Racing? || pc.RacingStore? }
  predicate Locks(pc: PC) { pc.Try? || pc.Load? || pc.Store? || pc.Unlock? }
  predicate Holds(pc: PC) { pc.Load? || pc.Store? || pc.Unlock? }

  /** How many waits a party has started when it stands at `pc`. */
  function Calls(c: Config, pc: PC, inside: bool): nat {
    (if inside then 1 else 0) +
    match pc
    case Wait(k) => k
    case Racing(_, _) => 1
    case RacingStore(_, _, _) => 1
    case CheckRace => 2
    case NoRace => 2
    case ResetAgain => 2
    case ReadCount => 4
    case Join => c.Waits()
    case Done => c.Waits()
    case Reset => 0
    case _ => 3
  }

  ghost predicate PartyOk(c: Config, s: State, p: nat)
    requires Shaped(c, s) && p < c.Parties()
  {
    var pc := s.pc[p];
    && s.bar.calls[p] == Calls(c, pc, s.bar.inside[p])
    && (s.bar.inside[p] ==> pc.Wait?) && (pc.Wait? ==> pc.k < c.Waits()) && !pc.Failed?
    && (Races(pc) || Locks(pc) ==> pc.i < c.niters)
    && (p < c.nt ==> pc.Wait? || pc.Done? || Races(pc) || Locks(pc))
    && (p == c.nt ==> !Races(pc) && !Locks(pc))
    && (s.lock == p <==> Holds(pc))
    && (pc.Store? ==> pc.value == s.count + Plus(p, pc.add))
  }

  /** What a thread has added in the second phase and not taken back. */
  function Contribution(p: nat, pc: PC): int {
    match pc
    case Unlock(_, true) => Inc(p)
    case Try(_, false) => Inc(p)
    case Load(_, false) => Inc(p)
    case Store(_, false, _) => Inc(p)
    case _ => 0
  }

  function Contributions(s: State): (r: seq<int>)
    ensures |r| == |s.pc|
  {
    seq(|s.pc|, p requires 0 <= p < |s.pc| => Contribution(p, s.pc[p]))
  }

  /** Main has reset the counter for the second time. */
  predicate SecondPhase(c: Config, s: State)
    requires Shaped(c, s)
  {
    match s.pc[c.nt]
    case Wait(k) => k >= 2
    case ReadCount => true
    case Join => true
    case Done => true
    case _ => false
  }

  ghost predicate Inv(c: Config, s: State) {
    && Shaped(c, s) && Sound(s.bar) && s.bar.needed == c.Parties() && -1 <= s.lock < c.nt
    && (forall p :: 0 <= p < c.Parties() ==> PartyOk(c, s, p))
    && (SecondPhase(c, s) ==> s.count == Sum(Contributions(s)))
    && (SeenIt(c, s) ==> s.seen == 0)
  }

  predicate SeenIt(c: Config, s: State)
    requires Shaped(c, s)
  {
    match s.pc[c.nt]
    case Wait(k) => k >= 4
    case Join => true
    case Done => true
    case _ => false
  }

  lemma InitialInv(c: Config, s: State)
    requires Initial(c, s)
    ensures Inv(c, s)
  {
    FreshSound(c.Parties());
  }

  /** A thread in one of the loops has all the others in the same phase, and main waiting. */
  lemma Together(c: Config, s: State, p: nat, q: nat)
    requires Inv(c, s) && p < c.Parties() && q < c.Parties() && !s.bar.inside[p]
    ensures s.bar.round == s.bar.calls[p] == Calls(c, s.pc[p], false)
    ensures Calls(c, s.pc[p], false) <= s.bar.calls[q] == Calls(c, s.pc[q], s.bar.inside[q])
  {
    assert PartyOk(c, s, p) && PartyOk(c, s, q);
  }

  lemma WaitParty(c: Config, s: State, p: nat)
    requires Inv(c, s) && Enabled(c, s, p) && s.pc[p].Wait?
    ensures var t := Next(c, s, p);
      Shaped(c, t) && PartyOk(c, t, p) && Sound(t.bar) && t.bar.needed == c.Parties() && t.lock == s.lock
  {
    assert PartyOk(c, s, p);
    if MayEnter(s.bar, p) { EnterSound(s.bar, p); } else { LeaveSound(s.bar, p); }
  }

  lemma WaitOther(c: Config, s: State, p: nat, q: nat)
    requires Inv(c, s) && Enabled(c, s, p) && s.pc[p].Wait? && q < c.Parties() && q != p
    ensures Shaped(c, Next(c, s, p)) && PartyOk(c, Next(c, s, p), q)
  {
    assert PartyOk(c, s, p) && PartyOk(c, s, q);
  }

  lemma WaitSum(c: Config, s: State, p: nat)
    requires Inv(c, s) && Enabled(c, s, p) && s.pc[p].Wait?
    ensures var t := Next(c, s, p);
      && Contributions(t) == Contributions(s)
      && Shaped(c, t) && (SecondPhase(c, t) ==> SecondPhase(c, s)) && (SeenIt(c, t) ==> SeenIt(c, s))
      && t.count == s.count && t.seen == s.seen
  {
  }

  lemma WorkParty(c: Config, s: State, p: nat)
    requires Inv(c, s) && Enabled(c, s, p) && !s.pc[p].Wait?
    ensures var t := Next(c, s, p);
      && Shaped(c, t) && PartyOk(c, t, p) && t.bar == s.bar && -1 <= t.lock < c.nt
  {
    assert PartyOk(c, s, p);
  }

  lemma WorkOther(c: Config, s: State, p: nat, q: nat)
    requires Inv(c, s) && Enabled(c, s, p) && !s.pc[p].Wait? && q < c.Parties() && q != p
    ensures Shaped(c, Next(c, s, p)) && PartyOk(c, Next(c, s, p), q)
  {
    assert PartyOk(c, s, p) && PartyOk(c, s, q);
    if s.pc[q].Store? { Together(c, s, q, p); Together(c, s, p, q); }
  }

  /** In the second phase every store changes the counter by what the thread then owes, because
      the lock has kept the counter as the thread loaded it. */
  lemma WorkSum(c: Config, s: State, p: nat)
    requires Inv(c, s) && Enabled(c, s, p) && !s.pc[p].Wait?
    ensures var t := Next(c, s, p); Shaped(c, t) && (SecondPhase(c, t) ==> t.count == Sum(Contributions(t)))
  {
    var t := Next(c, s, p);
    assert PartyOk(c, s, p);
    Together(c, s, p, c.nt);
    if s.pc[p].ResetAgain? {
      forall q | 0 <= q < c.Parties() ensures Contributions(t)[q] == 0 {
        Together(c, s, p, q);
        assert PartyOk(c, s, q);
      }
      SumSame(Contributions(t), 0);
    } else {
      var d := Contribution(p, t.pc[p]);
      SumUpdate(Contributions(s), p, d);
      assert Contributions(t) == Contributions(s)[p := d];
    }
  }

  /** What main reads is 0: every thread has taken back what it added. */
  lemma WorkSeen(c: Config, s: State, p: nat)
    requires Inv(c, s) && Enabled(c, s, p) && !s.pc[p].Wait?
    ensures var t := Next(c, s, p); Shaped(c, t) && (SeenIt(c, t) ==> t.seen == 0)
  {
    assert PartyOk(c, s, p);
    if s.pc[p].ReadCount? {
      forall q | 0 <= q < c.Parties() ensures Contributions(s)[q] == 0 {
        Together(c, s, p, q);
        assert PartyOk(c, s, q);
      }
      SumSame(Contributions(s), 0);
    }
  }

  lemma StepInv(c: Config, s: State, p: nat)
    requires Inv(c, s) && Enabled(c, s, p)
    ensures Inv(c, Next(c, s, p))
  {
    if s.pc[p].Wait? {
      WaitParty(c, s, p);
      forall q | 0 <= q < c.Parties() ensures PartyOk(c, Next(c, s, p), q) { if q != p { WaitOther(c, s, p, q); } }
      WaitSum(c, s, p);
    } else {
      WorkParty(c, s, p);
      forall q | 0 <= q < c.Parties() ensures PartyOk(c, Next(c, s, p), q) { if q != p { WorkOther(c, s, p, q); } }
      WorkSum(c, s, p);
      WorkSeen(c, s, p);
    }
  }

  // ----- useful steps are bounded -----

  /** A step other than a trylock that fails. */
  predicate Useful(c: Config, s: State, p: nat) {
    Enabled(c, s, p) && (s.pc[p].Try? ==> s.lock == -1)
  }

  /** How many useful steps a party can take at most: main's go by its barriers, those of a
      thread by its barriers and loops. */
  function StepsLeft(c: Config, p: nat, pc: PC, inside: bool): int {
    if p == c.nt then MainLeft(c, pc, inside) else ThreadLeft(c, pc, inside)
  }

  function MainLeft(c: Config, pc: PC, inside: bool): int {
    match pc
    case Reset => 4 * c.Waits() + 3
    case Wait(k) => 4 * (c.Waits() - k) + if inside then 1 else 2
    case CheckRace => 4 * (c.Waits() - 1)
    case ResetAgain => 4 * (c.Waits() - 1) - 1
    case ReadCount => 4 * (c.Waits() - 3)
    case Join => 1
    case _ => 0
  }

  function ThreadLeft(c: Config, pc: PC, inside: bool): int {
    match pc
    case Wait(k) =>
      2 * (c.Waits() - k) - (if inside then 1 else 0)
      + (if k == 0 then 4 * c.niters + 2 else 0) + if k <= 2 then 8 * c.niters + 4 else 0
    case Racing(i, add) =>
      2 * (c.Waits() - 1) + 8 * c.niters + 4 + 4 * (c.niters - i) + if add then 1 else -1
    case RacingStore(i, add, _) =>
      2 * (c.Waits() - 1) + 8 * c.niters + 4 + 4 * (c.niters - i) + if add then 0 else -2
    case Try(i, add) => 2 * (c.Waits() - 3) + 8 * (c.niters - i) + if add then 4 else 0
    case Load(i, add) => 2 * (c.Waits() - 3) + 8 * (c.niters - i) + if add then 3 else -1
    case Store(i, add, _) => 2 * (c.Waits() - 3) + 8 * (c.niters - i) + if add then 2 else -2
    case Unlock(i, add) => 2 * (c.Waits() - 3) + 8 * (c.niters - i) + if add then 1 else -3
    case _ => 0
  }

  function Ranks(c: Config, s: State): (r: seq<int>)
    requires Shaped(c, s)
    ensures |r| == |s.pc|
  {
    seq(|s.pc|, p requires 0 <= p < |s.pc| => StepsLeft(c, p, s.pc[p], s.bar.inside[p]))
  }

  lemma RanksNonNegative(c: Config, s: State)
    requires Inv(c, s)
    ensures forall p :: 0 <= p < c.Parties() ==> Ranks(c, s)[p] >= 0
  {
    forall p | 0 <= p < c.Parties() ensures Ranks(c, s)[p] >= 0 { assert PartyOk(c, s, p); }
  }

  ghost function Rank(c: Config, s: State): (r: nat)
    requires Inv(c, s)
  {
    RanksNonNegative(c, s);
    SumNonNegative(Ranks(c, s));
    Sum(Ranks(c, s))
  }

  ghost predicate Drops(c: Config, s: State, p: nat)
    requires Enabled(c, s, p)
  {
    var t := Next(c, s, p);
    && Shaped(c, t) && t.pc == s.pc[p := t.pc[p]] && t.bar.inside == s.bar.inside[p := t.bar.inside[p]]
    && StepsLeft(c, p, t.pc[p], t.bar.inside[p]) < StepsLeft(c, p, s.pc[p], s.bar.inside[p])
  }

  lemma OwnRankDrops(c: Config, s: State, p: nat)
    requires Inv(c, s) && Useful(c, s, p)
    ensures Drops(c, s, p)
  {
    assert PartyOk(c, s, p);
    if s.pc[p].Wait? { WaitDrops(c, s, p); } else { WorkDrops(c, s, p); }
  }

  lemma WaitDrops(c: Config, s: State, p: nat)
    requires Enabled(c, s, p) && s.pc[p].Wait? && PartyOk(c, s, p)
    ensures Drops(c, s, p)
  {
  }

  lemma WorkDrops(c: Config, s: State, p: nat)
    requires Useful(c, s, p) && !s.pc[p].Wait? && PartyOk(c, s, p)
    ensures Drops(c, s, p)
  {
    assert s.bar.inside == s.bar.inside[p := s.bar.inside[p]];
  }

  lemma StepRank(c: Config, s: State, p: nat)
    requires Inv(c, s) && Enabled(c, s, p)
    ensures Inv(c, Next(c, s, p))
    ensures if Useful(c, s, p) then Rank(c, Next(c, s, p)) < Rank(c, s) else Next(c, s, p) == s
  {
    StepInv(c, s, p);
    if Useful(c, s, p) {
      OwnRankDrops(c, s, p);
      SumDrops(Ranks(c, s), Ranks(c, Next(c, s, p)), p);
    }
  }

  function UsefulSteps(c: Config, s: State, ps: seq<nat>): nat
    requires Legal(c, s, ps)
    decreases |ps|
  {
    if ps == [] then 0
    else (if Useful(c, s, ps[0]) then 1 else 0) + UsefulSteps(c, Next(c, s, ps[0]), ps[1..])
  }

  // ----- what the program promises -----

  lemma {:induction false} RunInv(c: Config, s: State, ps: seq<nat>)
    requires Inv(c, s) && Legal(c, s, ps)
    ensures Inv(c, Run(c, s, ps)) && UsefulSteps(c, s, ps) <= Rank(c, s)
    decreases |ps|
  {
    if ps == [] {
    } else {
      StepRank(c, s, ps[0]);
      RunInv(c, Next(c, s, ps[0]), ps[1..]);
    }
  }

  /** While the lock is free in the second phase, the counter is the sum of the increments of
      the threads between their two critical sections, whatever the races left before. */
  lemma FreeLockSum(c: Config, s: State)
    requires Inv(c, s) && SecondPhase(c, s) && s.lock == -1
    ensures s.count == Sum(seq(|s.pc|, p requires 0 <= p < |s.pc| =>
                               if s.pc[p].Try? && !s.pc[p].add then Inc(p) else 0))
  {
    var owed := seq(|s.pc|, p requires 0 <= p < |s.pc| => if s.pc[p].Try? && !s.pc[p].add then Inc(p) else 0);
    forall p | 0 <= p < |s.pc| ensures Contributions(s)[p] == owed[p] { assert PartyOk(c, s, p); }
    assert Contributions(s) == owed;
  }

  /** Two threads are never in critical sections at once. */
  lemma Exclusion(c: Config, s: State, p: nat, q: nat)
    requires Inv(c, s) && p < c.Parties() && q < c.Parties() && Holds(s.pc[p]) && Holds(s.pc[q])
    ensures p == q
  {
    assert PartyOk(c, s, p) && PartyOk(c, s, q);
  }

  /** When nothing but failing trylocks can happen, main has given up or all are done. */
  lemma NeverStuck(c: Config, s: State)
    requires Inv(c, s) && (forall p :: !Useful(c, s, p)) && s.pc[c.nt] != NoRace
    ensures forall p :: 0 <= p < c.Parties() ==> s.pc[p].Done?
  {
    var f := SomebodyFree(s.bar);
    Held(c, s, f);
    assert PartyOk(c, s, f);
    assert s.bar.round == c.Waits();
    forall p | 0 <= p < c.Parties() ensures s.pc[p].Done? || s.pc[p].Join? {
      Held(c, s, p);
      assert PartyOk(c, s, p);
      Together(c, s, f, p);
    }
    forall p | 0 <= p < c.nt ensures s.pc[p].Done? { assert PartyOk(c, s, p); }
    Held(c, s, c.nt);
    assert PartyOk(c, s, c.nt);
  }

  lemma Held(c: Config, s: State, p: nat)
    requires Inv(c, s) && p < c.Parties() && (forall q :: !Useful(c, s, q)) && s.pc[c.nt] != NoRace
    ensures s.pc[p].Done? || (s.pc[p].Join? && !Enabled(c, s, p)) || (s.bar.inside[p] && !MayLeave(s.bar, p))
  {
    assert PartyOk(c, s, p) && !Useful(c, s, p);
    if s.lock >= 0 { HolderMoves(c, s); }
  }

  lemma HolderMoves(c: Config, s: State)
    requires Inv(c, s) && s.lock >= 0
    ensures Useful(c, s, s.lock)
  {
    assert PartyOk(c, s, s.lock);
  }

  /** The main result: for every number of threads and iterations and every schedule, main's
      last CHECK holds: it never reads anything but 0. All but boundedly many steps are trylocks
      that fail and change nothing. */
  lemma EveryRun(c: Config, s: State, ps: seq<nat>)
    requires Initial(c, s) && Legal(c, s, ps)
    ensures Inv(c, s) && UsefulSteps(c, s, ps) <= Rank(c, s)
    ensures var t := Run(c, s, ps); Shaped(c, t) && forall p :: 0 <= p < c.Parties() ==> !t.pc[p].Failed?
    ensures var t := Run(c, s, ps); t.pc[c.nt].Join? || t.pc[c.nt].Done? ==> t.seen == 0
  {
    InitialInv(c, s);
    RunInv(c, s, ps);
    forall p | 0 <= p < c.Parties() ensures !Run(c, s, ps).pc[p].Failed? { assert PartyOk(c, Run(c, s, ps), p); }
  }
}
