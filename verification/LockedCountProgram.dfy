/** porting/spinlock.c with the lock and the counter updated in place. */
module LockedCountProgram {
  import opened CyclicBarrier
  import opened L = LockedCount
  import W = LockedWork

  class Program {
    const c: Config
    const pc: array<PC>
    var bar: Barrier
    var lock: int
    var count: int
    var seen: int

    ghost function View(): State
      reads this, pc
    {
      State(bar, pc[..], lock, count, seen)
    }

    ghost predicate Valid()
      reads this, pc
    {
      Inv(c, View())
    }

    constructor (c: Config)
      requires c.nt > 0
      ensures Valid() && this.c == c && Initial(c, View()) && fresh(pc)
    {
      this.c := c;
      pc := new PC[c.Parties()](p => if p == c.nt then Reset else Wait(0));
      bar, lock, count, seen := CyclicBarrier.Fresh(c.Parties(), c.Parties()), -1, 0, 0;
      new;
      InitialInv(c, View());
    }

    method CanExecute(p: nat) returns (r: bool)
      requires Valid()
      ensures r == Enabled(c, View(), p)
    {
      r := Enabled(c, State(bar, pc[..], lock, count, seen), p);
    }

    method Execute(p: nat)
      requires Valid() && Enabled(c, View(), p)
      modifies this, pc
      ensures Valid() && View() == Next(c, old(View()), p)
    {
      ghost var before := View();
      if Races(pc[p]) || Locks(pc[p]) { CountStep(p); } else { MainStep(p); }
      StepInv(c, before, p);
    }

    /** A step of one of the two loops of a thread. */
    method CountStep(p: nat)
      requires Valid() && Enabled(c, View(), p) && (Races(pc[p]) || Locks(pc[p]))
      modifies this, pc
      ensures View() == Next(c, old(View()), p)
    {
      match pc[p] {
        case Racing(i, add) =>
          pc[p] := RacingStore(i, add, count + Plus(p, add));
        case RacingStore(i, add, value) =>
          count := value;
          pc[p] := if add then Racing(i, false) else if i + 1 < c.niters then Racing(i + 1, true) else Wait(1);
        case Try(i, add) =>
          if lock == -1 { lock, pc[p] := p, Load(i, add); }
        case Load(i, add) =>
          pc[p] := Store(i, add, count + Plus(p, add));
        case Store(i, add, value) =>
          count, pc[p] := value, Unlock(i, add);
        case Unlock(i, add) =>
          lock := -1;
          pc[p] := if add then Try(i, false) else if i + 1 < c.niters then Try(i + 1, true) else Wait(3);
      }
    }

    /** A barrier, or a step of main between two of them. */
    method MainStep(p: nat)
      requires Valid() && Enabled(c, View(), p) && !Races(pc[p]) && !Locks(pc[p])
      modifies this, pc
      ensures View() == Next(c, old(View()), p)
    {
      match pc[p] {
        case Reset =>
          count, pc[p] := 0, Wait(0);
        case CheckRace =>
          pc[p] := if c.nt > 1 && count == 0 then NoRace else ResetAgain;
        case ResetAgain =>
          count, pc[p] := 0, Wait(2);
        case ReadCount =>
          seen, pc[p] := count, Wait(4);
        case Join =>
          pc[p] := if seen != 0 then Failed else Done;
        case Wait(k) =>
          if MayEnter(bar, p) {
            bar := Enter(bar, p);
          } else {
            bar, pc[p] := Leave(bar, p), if p == c.nt then MainPassed(c, k) else ThreadPassed(c, k);
          }
      }
    }
  }

  /** The threads and main under any schedule: main's last CHECK never fails, and when main has come
      to it, each thread has taken all the steps of both its loops. `taken` are the steps that were
      possible. */
  method RunThreads(c: Config, schedule: seq<nat>) returns (p: Program, ghost start: State, ghost taken: seq<nat>)
    requires c.nt > 0
    ensures p.Valid() && p.c == c && !p.pc[c.nt].Failed?
    ensures p.pc[c.nt].Join? || p.pc[c.nt].Done? ==> p.seen == 0
    ensures Initial(c, start) && Legal(c, start, taken)
    ensures forall t :: 0 <= t < c.nt && (p.pc[t].Done? || p.pc[c.nt].Join? || p.pc[c.nt].Done?) ==>
              |W.Work(c, start, taken, t)| == 12 * c.niters
  {
    p := new Program(c);
    start, taken := p.View(), [];
    for i := 0 to |schedule|
      invariant p.Valid() && p.c == c && fresh(p) && fresh(p.pc)
      invariant Legal(c, start, taken) && p.View() == Run(c, start, taken)
    {
      var possible := p.CanExecute(schedule[i]);
      if possible {
        RunExtends(c, start, taken, schedule[i]);
        p.Execute(schedule[i]);
        taken := taken + [schedule[i]];
      }
    }
    assert PartyOk(c, p.View(), c.nt);
    forall t | 0 <= t < c.nt && (p.pc[t].Done? || p.pc[c.nt].Join? || p.pc[c.nt].Done?)
      ensures |W.Work(c, start, taken, t)| == 12 * c.niters
    {
      W.EveryThreadWorks(c, start, taken, t);
    }
  }

  lemma {:induction false} RunExtends(c: Config, s: State, ps: seq<nat>, p: nat)
    requires Legal(c, s, ps) && Enabled(c, Run(c, s, ps), p)
    ensures Legal(c, s, ps + [p]) && Run(c, s, ps + [p]) == Next(c, Run(c, s, ps), p)
    decreases |ps|
  {
    if ps == [] {
      assert [p][1..] == [] && Run(c, s, [p]) == Run(c, Next(c, s, p), []);
    } else {
      assert (ps + [p])[0] == ps[0] && (ps + [p])[1..] == ps[1..] + [p];
      RunExtends(c, Next(c, s, ps[0]), ps[1..], p);
    }
  }
}
