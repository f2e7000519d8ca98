/** The three pip_barrier programs with the shared counter updated in place. */
module BarrierRoundsProgram {
  import opened CyclicBarrier
  import opened R = BarrierRounds

  class Program {
    const c: Config
    const pc: array<PC>
    var bar: Barrier
    var count: int

    ghost function View(): State
      reads this, pc
    {
      State(bar, pc[..], count)
    }

    ghost predicate Valid()
      reads this, pc
    {
      Inv(c, View())
    }

    constructor (c: Config)
      requires c.nt > 0
      ensures Valid() && this.c == c && View() == Initial(c) && fresh(pc)
    {
      this.c := c;
      pc := new PC[c.Parties()](p requires 0 <= p => Loop(c, p, 0));
      bar, count := CyclicBarrier.Fresh(c.Parties(), c.Parties()), 0;
      new;
      assert pc[..] == Initial(c).pc;
      InitialInv(c);
    }

    method CanExecute(p: nat) returns (r: bool)
      requires Valid()
      ensures r == Enabled(c, View(), p)
    {
      r := Enabled(c, State(bar, pc[..], count), p);
    }

    method Execute(p: nat)
      requires Valid() && Enabled(c, View(), p)
      modifies this, pc
      ensures Valid() && View() == Next(c, old(View()), p)
    {
      ghost var before := View();
      if AtBarrier(pc[p]) {
        Pass(p);
      } else {
        match pc[p] {
          case Check(i) =>
            pc[p] := if count != i then Failed else WaitA(i);
          case Load(i) =>
            pc[p] := Store(i, count + 1);
          case Store(i, value) =>
            count, pc[p] := value, WaitB(i);
          case LastCheck =>
            pc[p] := if count == c.niters then Done else Failed;
        }
      }
      StepInv(c, before, p);
    }

    method Pass(p: nat)
      requires Valid() && Enabled(c, View(), p) && AtBarrier(pc[p])
      modifies pc, `bar
      ensures View() == Next(c, old(View()), p)
    {
      if MayEnter(bar, p) {
        bar := Enter(bar, p);
      } else {
        bar := Leave(bar, p);
        pc[p] := Passed(c, p, pc[p]);
      }
    }
  }

  /** Any of the three programs under any schedule: no CHECK fails, and once all are done the
      counter is niters and all have waited equally often. */
  method RunRounds(c: Config, schedule: seq<nat>) returns (p: Program)
    requires c.nt > 0
    ensures p.Valid() && p.c == c && forall t :: 0 <= t < c.Parties() ==> !p.pc[t].Failed?
    ensures (forall t :: 0 <= t < c.Parties() ==> p.pc[t].Done?) ==>
      && p.count == c.niters
      && forall t :: 0 <= t < c.Parties() ==> p.bar.calls[t] == 2 * c.niters + if c.extraWait then 1 else 0
  {
    p := new Program(c);
    for i := 0 to |schedule|
      invariant p.Valid() && p.c == c && fresh(p) && fresh(p.pc)
    {
      var possible := p.CanExecute(schedule[i]);
      if possible { p.Execute(schedule[i]); }
    }
    R.Outcome(c, p.View());
  }
}
