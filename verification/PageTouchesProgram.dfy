/** compat/pagefault.c with the shared array of addresses and the mappings updated in place. */
module PageTouchesProgram {
  import opened CyclicBarrier
  import opened P = PageTouches

  class Program {
    const c: Config
    const pc: array<PC>
    const page: array<nat>
    const maps: array<int>
    var bar: Barrier
    var mapped: set<nat>
    ghost var touches: seq<seq<nat>>

    ghost function View(): State
      reads this, pc, page, maps
    {
      State(bar, pc[..], page[..], maps[..], mapped, touches)
    }

    ghost predicate Valid()
      reads this, pc, page, maps
    {
      Inv(c, View())
    }

    constructor (c: Config)
      ensures Valid() && this.c == c && Initial(c, View())
      ensures fresh(pc) && fresh(page) && fresh(maps)
    {
      this.c := c;
      pc := new PC[c.Parties()](_ => Mmap);
      page := new nat[c.Parties()](_ => 0);
      maps := new int[c.Parties()](_ => -1);
      bar, mapped := CyclicBarrier.Fresh(c.Parties(), c.Parties()), {};
      touches := seq(c.Parties(), _ => seq(c.Parties(), _ => 0));
      new;
      InitialInv(c, View());
    }

    method CanExecute(st: Step) returns (r: bool)
      requires Valid()
      ensures r == Enabled(c, View(), st)
    {
      var none: seq<seq<nat>> := seq(c.Parties(), _ => seq(c.Parties(), _ => 0));
      r := Enabled(c, State(bar, pc[..], page[..], maps[..], mapped, none), st);
    }

    method Execute(st: Step)
      requires Valid() && Enabled(c, View(), st)
      modifies this, pc, page, maps
      ensures Valid() && View() == Next(c, old(View()), st)
    {
      ghost var before := View();
      var p := st.p;
      if AtBarrier(pc[p]) {
        Pass(p);
      } else {
        match pc[p] {
          case Mmap =>
            page[p], mapped, pc[p] := st.page, mapped + {st.page}, Publish;
          case Publish =>
            maps[p], pc[p] := page[p], WaitA;
          case Upper(i) =>
            if i < c.Parties() { Touch(p, i); } else { pc[p] := Lower(0); }
          case Lower(i) =>
            if p < c.nt && i < p { Touch(p, i); } else { pc[p] := WaitB; }
          case Join =>
            pc[p] := Munmap;
          case Munmap =>
            pc[p] := if page[p] in mapped then Done else Failed;
            mapped := mapped - {page[p]};
        }
      }
      assert View() == Next(c, before, st);
      StepInv(c, before, st);
    }

    /** A store through maps[i]. */
    method Touch(p: nat, i: nat)
      requires Valid() && p < c.Parties() && i < c.Parties() && (pc[p] == Upper(i) || pc[p] == Lower(i))
      modifies pc, `touches
      ensures var then' := if old(pc[p]).Upper? then Upper(i + 1) else Lower(i + 1);
        View() == P.Touch(c, old(View()), p, i, then')
    {
      var ok := maps[i] >= 0 && maps[i] in mapped;
      if ok { touches := Mark(touches, p, i); }
      pc[p] := if !ok then Failed else if pc[p].Upper? then Upper(i + 1) else Lower(i + 1);
    }

    method Pass(p: nat)
      requires Valid() && Enabled(c, View(), Go(p)) && AtBarrier(pc[p])
      modifies pc, `bar
      ensures View() == Next(c, old(View()), Go(p))
    {
      if MayEnter(bar, p) {
        bar := Enter(bar, p);
      } else {
        bar := Leave(bar, p);
        pc[p] := if pc[p].WaitA? then Upper(c.First(p)) else if p == c.nt then Join else Munmap;
      }
    }
  }

  /** The parties under any schedule: no store faults and no munmap fails, and once all are done
      each has stored to every page exactly once and nothing is mapped. */
  method RunParties(c: Config, schedule: seq<Step>) returns (p: Program)
    ensures p.Valid() && p.c == c && forall t :: 0 <= t < c.Parties() ==> !p.pc[t].Failed?
    ensures (forall t :: 0 <= t < c.Parties() ==> p.pc[t].Done?) ==>
      p.mapped == {} && forall t, i :: 0 <= t < c.Parties() && 0 <= i < c.Parties() ==> p.touches[t][i] == 1
  {
    p := new Program(c);
    for i := 0 to |schedule|
      invariant p.Valid() && p.c == c && fresh(p) && fresh(p.pc) && fresh(p.page) && fresh(p.maps)
    {
      var possible := p.CanExecute(schedule[i]);
      if possible { p.Execute(schedule[i]); }
    }
    P.Outcome(c, p.View());
  }
}
