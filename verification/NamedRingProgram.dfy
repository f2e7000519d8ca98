/** basics/pip_namexp.c with the tasks' variables and the named store updated in place. */
module NamedRingProgram {
  import opened CyclicBarrier
  import opened R = NamedRing

  class Program {
    const c: Config
    const pc: array<PC>
    const count: array<int>
    const countp: array<nat>
    var cp: nat
    var bar: Barrier
    var names: map<Name, nat>
    ghost var sweep: nat
    ghost var pos: nat

    ghost function View(): State
      reads this, pc, count, countp
    {
      State(bar, pc[..], count[..], countp[..], cp, names, sweep, pos)
    }

    ghost predicate Valid()
      reads this, pc, count, countp
    {
      Inv(c, View())
    }

    /** MAGIC is what the program puts into every counter first. */
    constructor (c: Config, MAGIC: int)
      requires c.nt >= 2
      ensures Valid() && this.c == c && Initial(c, View())
      ensures fresh(pc) && fresh(count) && fresh(countp)
    {
      this.c := c;
      pc := new PC[c.nt](_ => AtStart);
      count := new int[c.nt](_ => MAGIC);
      countp := new nat[c.nt](p => p);
      cp, bar, names, sweep, pos := 0, CyclicBarrier.Fresh(c.nt, c.nt), map[], 0, 0;
      new;
      InitialInv(c, View());
    }

    method CanExecute(p: nat) returns (r: bool)
      requires Valid()
      ensures r == Enabled(c, View(), p)
    {
      r := Enabled(c, State(bar, pc[..], count[..], countp[..], cp, names, 0, 0), p);
    }

    method Execute(p: nat)
      requires Valid() && Enabled(c, View(), p)
      modifies this, pc, count, countp
      ensures Valid() && View() == Next(c, old(View()), p)
    {
      ghost var before := View();
      if AtBarrier(pc[p]) {
        WaitStep(p);
      } else if pc[p].Export? || pc[p].Import? {
        NameStep(p);
      } else {
        CountStep(p);
      }
      StepInv(c, before, p);
    }

    method WaitStep(p: nat)
      requires Valid() && Enabled(c, View(), p) && AtBarrier(pc[p])
      modifies this, pc
      ensures View() == Next(c, old(View()), p)
    {
      if MayEnter(bar, p) {
        bar := Enter(bar, p);
      } else {
        bar := Leave(bar, p);
        pc[p] := if pc[p].AtStart? then Loop(c, p, 0) else Done;
      }
    }

    /** An export or an import of a name. */
    method NameStep(p: nat)
      requires Valid() && Enabled(c, View(), p) && (pc[p].Export? || pc[p].Import?)
      modifies this, pc, countp
      ensures View() == Next(c, old(View()), p)
    {
      var t := pc[p].t;
      if pc[p].Export? {
        var taken := NameOf(p, t) in names;
        if !taken { names, pos := names[NameOf(p, t) := countp[p]], pos + 1; }
        pc[p] := if taken then Failed else if p == 0 then Import(t) else Loop(c, p, t + 1);
      } else if p == 0 {
        cp := names[NameOf(Source(c, p, t), t)];
        pc[p] := ComparePointer(t);
      } else {
        countp[p] := names[NameOf(Source(c, p, t), t)];
        pc[p] := Load(t);
      }
    }

    /** A load, a store or a comparison of a counter. */
    method CountStep(p: nat)
      requires Valid() && Enabled(c, View(), p) && !AtBarrier(pc[p]) && !pc[p].Export? && !pc[p].Import?
      modifies this, pc, count, countp
      ensures View() == Next(c, old(View()), p)
    {
      match pc[p] {
        case Reset(t) =>
          count[p], countp[p], pc[p] := 1, p, Export(t);
        case ComparePointer(t) =>
          pc[p] := if cp == countp[p] then CompareCount(t) else Failed;
        case CompareCount(t) =>
          var ok := count[cp] == c.nt;
          if ok { sweep, pos := t + 1, 0; }
          pc[p] := if ok then Loop(c, p, t + 1) else Failed;
        case Load(t) =>
          pc[p] := Store(t, count[countp[p]] + 1);
        case Store(t, value) =>
          count[countp[p]], pc[p] := value, Export(t);
      }
    }
  }

  /** The ring under any schedule: no CHECK fails, and what task 0 has imported when it compares
      is its own pointer, to a counter of ntasks. */
  method RunRing(c: Config, MAGIC: int, schedule: seq<nat>) returns (p: Program)
    requires c.nt >= 2
    ensures p.Valid() && p.c == c && forall t :: 0 <= t < c.nt ==> !p.pc[t].Failed?
    ensures p.pc[0].ComparePointer? || p.pc[0].CompareCount? ==> p.cp == p.countp[0] == 0 && p.count[0] == c.nt
    ensures (forall t :: 0 <= t < c.nt ==> p.pc[t].Done?) ==>
      forall t: nat, i: nat :: t < c.nt ==> (NameOf(t, i) in p.names <==> i < 2 * c.niters)
  {
    p := new Program(c, MAGIC);
    for i := 0 to |schedule|
      invariant p.Valid() && p.c == c && fresh(p) && fresh(p.pc) && fresh(p.count) && fresh(p.countp)
    {
      var possible := p.CanExecute(schedule[i]);
      if possible { p.Execute(schedule[i]); }
    }
    R.Outcome(c, p.View());
  }
}
