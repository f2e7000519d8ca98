/** compat/malloc-x.c with the slot table, the locks and the counter updated in place. */
module MallocProgram {
  import opened CyclicBarrier
  import opened M = MallocSlots
  import W = MallocWork

  class Program {
    const c: Config
    const pc: array<PC>
    const region: array<int>
    const who: array<int>
    const lock: array<int>
    var bar: Barrier
    var count: int
    var live: set<nat>
    ghost var owner: map<nat, nat>

    ghost function View(): State
      reads this, pc, region, who, lock
    {
      State(bar, pc[..], region[..], who[..], lock[..], count, live, owner)
    }

    ghost predicate Valid()
      reads this, pc, region, who, lock
    {
      && region != who && region != lock && who != lock
      && Inv(c, View())
    }

    constructor (c: Config)
      requires c.nt > 0
      ensures Valid() && this.c == c && Initial(c, View())
      ensures fresh(pc) && fresh(region) && fresh(who) && fresh(lock)
    {
      this.c := c;
      pc := new PC[c.nt](_ => FirstMalloc);
      region := new int[c.nt](_ => -1);
      who := new int[c.nt](_ => -1);
      lock := new int[c.nt](_ => -1);
      bar := CyclicBarrier.Fresh(c.nt, c.nt);
      count, live, owner := c.nt - 1, {}, map[];
      new;
      InitialInv(c, View());
    }

    method CanExecute(st: Step) returns (r: bool)
      requires Valid()
      ensures r == Enabled(c, View(), st)
    {
      r := Enabled(c, State(bar, pc[..], region[..], who[..], lock[..], count, live, map[]), st);
    }

    method Execute(st: Step)
      requires Valid() && Enabled(c, View(), st)
      modifies this, pc, region, who, lock
      ensures Valid() && View() == Next(c, old(View()), st)
    {
      ghost var before := View();
      var p := st.p;
      if st.Choose? {
        pc[p] := Look(pc[p].i, st.n);
      } else if st.Get? {
        pc[p] := if pc[p].FirstMalloc? then FirstStore(st.b) else Store(pc[p].i, pc[p].n, st.b);
        live, owner := live + {st.b}, owner[st.b := p];
      } else if SlotStep(pc[p]) {
        ReplaceBlock(p);
      } else {
        Outside(p);
      }
      StepInv(c, before, st);
    }

    /** From the trylock to the unlock. */
    method ReplaceBlock(p: nat)
      requires Valid() && Enabled(c, View(), Go(p)) && SlotStep(pc[p])
      modifies this, pc, region, who, lock
      ensures View() == Move(c, old(View()), p)
      ensures region != who && region != lock && who != lock
    {
      TaskInvariant(p);
      var i, n := pc[p].i, pc[p].n;
      match pc[p] {
        case TryLock(_, _) =>
          if lock[n] == -1 {
            lock[n], pc[p] := p, Probe(i, n);
          } else {
            pc[p] := CheckCount(i);
          }
        case Probe(_, _) =>
          pc[p] := Free(i, n);
        case Free(_, _) =>
          live := live - {region[n]};
          pc[p] := Malloc(i, n);
        case Store(_, _, b) =>
          region[n], pc[p] := b, SetWho(i, n);
        case SetWho(_, _) =>
          who[n], pc[p] := p, Unlock(i, n);
        case Unlock(_, _) =>
          lock[n], pc[p] := -1, CheckCount(i + 1);
      }
    }

    /** mprobe and free() find the block live. */
    lemma TaskInvariant(p: nat)
      requires Valid() && p < c.nt
      ensures SlotInRange(c, pc[p])
      ensures pc[p].Probe? || pc[p].Free? ==> Holds(View(), region[pc[p].n], who[pc[p].n])
    {
      assert TaskOk(c, View(), p);
      if pc[p].Probe? || pc[p].Free? { VictimIsForeign(c, View(), p, pc[p].n); }
    }

    method Outside(p: nat)
      requires Valid() && Enabled(c, View(), Go(p)) && !SlotStep(pc[p])
      modifies this, pc, region, who
      ensures View() == Move(c, old(View()), p)
      ensures region != who && region != lock && who != lock
    {
      match pc[p] {
        case FirstStore(b) =>
          region[p], pc[p] := b, FirstWho;
        case FirstWho =>
          who[p], pc[p] := p, AtBarrier;
        case AtBarrier =>
          if MayEnter(bar, p) {
            bar := Enter(bar, p);
          } else {
            bar := CyclicBarrier.Leave(bar, p);
            pc[p] := CheckCount(0);
          }
        case CheckCount(i) =>
          pc[p] := if i == c.niters || count == 0 then Leave else Pick(i);
        case Look(i, n) =>
          pc[p] := if who[n] == p then CheckCount(i) else TryLock(i, n);
        case Leave =>
          count, pc[p] := count - 1, Finished;
      }
    }
  }

  /** The tasks under any schedule: no heap check fails, and once they are finished the slots
      hold a live block each, all different, every lock is free and nothing else is live. `taken`
      are the steps that were possible: a task at the head of its loop has replaced as many blocks
      as it counts, and one that has left it niters, or it is the last. */
  method RunTasks(c: Config, schedule: seq<Step>) returns (p: Program, ghost start: State, ghost taken: seq<Step>)
    requires c.nt > 0
    ensures Initial(c, start) && Legal(c, start, taken) && p.pc.Length == c.nt
    ensures forall t :: 0 <= t < c.nt ==> W.WorkDone(c, p.pc[..], t, |W.Work(c, start, taken, t)|)
    ensures p.Valid() && p.c == c && forall t :: 0 <= t < c.nt ==> !p.pc[t].HeapError?
    ensures (forall t :: 0 <= t < c.nt ==> p.pc[t].Finished?) ==>
      && (forall n :: 0 <= n < c.nt ==> p.lock[n] == -1 && p.region[n] >= 0 && p.region[n] in p.live)
      && (forall n, m :: 0 <= n < m < c.nt ==> p.region[n] != p.region[m])
      && (forall b :: b in p.live ==> exists n :: 0 <= n < c.nt && p.region[n] == b)
      && p.count == -1
  {
    p := new Program(c);
    start, taken := p.View(), [];
    for i := 0 to |schedule|
      invariant p.Valid() && p.c == c && Legal(c, start, taken) && p.View() == Run(c, start, taken)
      invariant fresh(p) && fresh(p.pc) && fresh(p.region) && fresh(p.who) && fresh(p.lock)
    {
      var possible := p.CanExecute(schedule[i]);
      if possible {
        RunExtends(c, start, taken, schedule[i]);
        p.Execute(schedule[i]);
        taken := taken + [schedule[i]];
      }
    }
    Outcome(c, p.View());
    forall t | 0 <= t < c.nt ensures W.WorkDone(c, p.pc[..], t, |W.Work(c, start, taken, t)|) {
      W.EveryTaskWorks(c, start, taken, t);
    }
  }

  lemma {:induction false} RunExtends(c: Config, s: State, sts: seq<Step>, st: Step)
    requires Legal(c, s, sts) && Enabled(c, Run(c, s, sts), st)
    ensures Legal(c, s, sts + [st]) && Run(c, s, sts + [st]) == Next(c, Run(c, s, sts), st)
    decreases |sts|
  {
    if sts == [] {
      assert [st][1..] == [] && Run(c, s, [st]) == Run(c, Next(c, s, st), []);
    } else {
      assert (sts + [st])[0] == sts[0] && (sts + [st])[1..] == sts[1..] + [st];
      RunExtends(c, Next(c, s, sts[0]), sts[1..], st);
    }
  }

  lemma Outcome(c: Config, s: State)
    requires Inv(c, s)
    ensures forall t :: 0 <= t < c.nt ==> !s.pc[t].HeapError?
    ensures (forall t :: 0 <= t < c.nt ==> s.pc[t].Finished?) ==>
      && (forall n :: 0 <= n < c.nt ==> s.lock[n] == -1 && s.region[n] >= 0 && s.region[n] in s.live)
      && (forall n, m :: 0 <= n < m < c.nt ==> s.region[n] != s.region[m])
      && (forall b :: b in s.live ==> exists n :: 0 <= n < c.nt && s.region[n] == b)
      && s.count == -1
  {
    forall t | 0 <= t < c.nt ensures !s.pc[t].HeapError? { assert TaskOk(c, s, t); }
    if forall t :: 0 <= t < c.nt ==> s.pc[t].Finished? { AfterwardsClean(c, s); }
  }
}
