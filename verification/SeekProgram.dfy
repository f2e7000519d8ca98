/**
 basics/seek.c as it is written: the participants' locals, the barrier and the file are
 updated in place, one step at a time, in whatever order a schedule asks for.
 */
module SeekProgram {
  import opened CyclicBarrier
  import opened T = SeekTurns
  import B = SeekBarrier
  import S = SeekSync
  import R = SeekRecords
  import V = SeekVariants
  import F = SeekFormat

  /** The USE_BARRIER variant. */
  class BarrierProgram {
    const c: Config
    const pc: array<B.PC>
    const check: array<string>
    var bar: Barrier
    var rewound: bool
    var contents: string
    var offset: nat
    var failed: bool
    ghost var turns: nat

    ghost function View(): B.State
      reads this, pc, check
    {
      B.State(bar, pc[..], rewound, World(contents, offset, check[..]), turns, failed)
    }

    ghost predicate Valid()
      reads this, pc, check
    {
      pc.Length == check.Length == c.Parties() && B.Inv(c, View())
    }

    constructor (c: Config, w: World)
      requires WorldOk(c, w)
      ensures Valid() && this.c == c && View() == B.Initial(c, w)
      ensures fresh(pc) && fresh(check)
    {
      this.c := c;
      pc := new B.PC[c.Parties()](_ => if c.Rounds() == 0 then B.Done else B.Before(0, 0));
      check := new string[c.Parties()](i requires 0 <= i < |w.check| => w.check[i]);
      bar := CyclicBarrier.Fresh(c.Parties(), c.Parties());
      rewound, contents, offset, failed, turns := false, w.contents, w.offset, false, 0;
      new;
      assert check[..] == w.check;
      assert pc[..] == B.Initial(c, w).pc;
      B.InitialInv(c, w);
    }

    method Execute(st: B.Step)
      requires Valid() && B.Enabled(c, View(), st)
      modifies this, pc, check
      ensures Valid() && View() == B.Next(c, old(View()), st)
    {
      ghost var before := View();
      var q := B.Actor(st);
      match st {
        case Call(_) =>
          bar := Enter(bar, q);
        case Return(_) =>
          bar := Leave(bar, q);
          pc[q] := if pc[q].Before? then B.Before(pc[q].i, pc[q].ii + 1) else B.After(pc[q].i, pc[q].ii + 1);
        case Begin(_) =>
          pc[q] := B.Using(pc[q].i, 0, false);
        case Seek =>
          rewound, offset := true, 0;
        case Transfer(_, count) =>
          MoveBytes(q, count);
        case Eof(_) =>
          pc[q] := B.Using(pc[q].i, pc[q].moved, true);
        case Finish(_) =>
          CheckTransfer(q);
        case Again(_) =>
          pc[q] := if pc[q].i + 1 < c.Rounds() then B.Before(pc[q].i + 1, 0) else B.Done;
      }
      assert View() == B.Next(c, before, st);
      B.StepInv(c, before, st);
    }

    /** One read() or write() that moves `count` bytes. */
    method MoveBytes(q: nat, count: nat)
      requires Valid() && B.Enabled(c, View(), B.Transfer(q, count))
      modifies this, pc, check
      ensures View() == B.Next(c, old(View()), B.Transfer(q, count))
    {
      var i, moved, ended := pc[q].i, pc[q].moved, pc[q].ended;
      if KindOf(c, q, i).Write? {
        contents := Overwrite(contents, offset, Rec(c, q)[moved..moved + count]);
      } else {
        check[q] := Splice(check[q], moved, contents[offset..offset + count]);
      }
      offset := offset + count;
      pc[q] := B.Using(i, moved + count, ended);
    }

    /** The CHECKs that follow my_read or my_write. */
    method CheckTransfer(q: nat)
      requires Valid() && B.Enabled(c, View(), B.Finish(q))
      modifies this, pc
      ensures View() == B.Next(c, old(View()), B.Finish(q))
    {
      var i, moved := pc[q].i, pc[q].moved;
      if KindOf(c, q, i).Read? && ((q > 0 && moved == 0) || check[q] != Rec(c, q)) {
        pc[q] := B.Failed(i, moved, pc[q].ended);
        failed := true;
      } else {
        pc[q] := B.After(i, q);
        turns := turns + 1;
      }
    }

    /** Follows a schedule, passing over steps that are not possible when they come up. */
    method Drive(schedule: seq<B.Step>) returns (ghost taken: seq<B.Step>)
      requires Valid()
      modifies this, pc, check
      ensures Valid() && B.Legal(c, old(View()), taken) && View() == B.Run(c, old(View()), taken)
    {
      ghost var start := View();
      taken := [];
      for k := 0 to |schedule|
        invariant Valid() && B.Legal(c, start, taken) && View() == B.Run(c, start, taken)
      {
        var possible := CanExecute(schedule[k]);
        if possible {
          RunExtends(c, start, taken, schedule[k]);
          Execute(schedule[k]);
          taken := taken + [schedule[k]];
        }
      }
    }

    method CanExecute(st: B.Step) returns (r: bool)
      requires Valid()
      ensures r == B.Enabled(c, View(), st)
    {
      r := B.Enabled(c, B.State(bar, pc[..], rewound, World(contents, offset, check[..]), 0, failed), st);
    }
  }

  lemma {:induction false} RunExtends(c: Config, s: B.State, sts: seq<B.Step>, st: B.Step)
    requires B.Legal(c, s, sts) && B.Enabled(c, B.Run(c, s, sts), st)
    ensures B.Legal(c, s, sts + [st]) && B.Run(c, s, sts + [st]) == B.Next(c, B.Run(c, s, sts), st)
    decreases |sts|
  {
    if sts == [] {
      assert ([] + [st])[1..] == [];
    } else {
      assert (sts + [st])[1..] == sts[1..] + [st];
      RunExtends(c, B.Next(c, s, sts[0]), sts[1..], st);
    }
  }

  /** The variant without USE_BARRIER. */
  class SyncProgram {
    const c: Config
    const pc: array<S.PC>
    const check: array<string>
    var sync: int
    var rewound: bool
    var contents: string
    var offset: nat
    var failed: bool
    ghost var turns: nat

    ghost function View(): S.State
      reads this, pc, check
    {
      S.State(sync, pc[..], rewound, World(contents, offset, check[..]), turns, failed)
    }

    ghost predicate Valid()
      reads this, pc, check
    {
      pc.Length == check.Length == c.Parties() && S.Inv(c, View())
    }

    constructor (c: Config, w: World)
      requires WorldOk(c, w)
      ensures Valid() && this.c == c && View() == S.Initial(c, w)
      ensures fresh(pc) && fresh(check)
    {
      this.c := c;
      pc := new S.PC[c.Parties()](_ => if c.Rounds() == 0 then S.Done else S.Waiting(0));
      check := new string[c.Parties()](i requires 0 <= i < |w.check| => w.check[i]);
      sync, rewound, contents, offset, failed, turns := -1, false, w.contents, w.offset, false, 0;
      new;
      assert check[..] == w.check;
      assert pc[..] == S.Initial(c, w).pc;
      S.InitialInv(c, w);
    }

    method Execute(st: S.Step)
      requires Valid() && S.Enabled(c, View(), st)
      modifies this, pc, check
      ensures Valid() && View() == S.Next(c, old(View()), st)
    {
      ghost var before := View();
      var q := S.Actor(st);
      match st {
        case Begin(_) =>
          pc[q] := S.Using(pc[q].i, 0, false);
        case Seek =>
          rewound, offset := true, 0;
        case Transfer(_, count) =>
          MoveBytes(q, count);
        case Eof(_) =>
          pc[q] := S.Using(pc[q].i, pc[q].moved, true);
        case Finish(_) =>
          CheckTransfer(q);
        case Hand(_) =>
          sync := if q == 0 then 0 else sync + 1;
          pc[q] := if q == 0 then S.Spinning(pc[q].i) else S.Again(c, pc[q].i);
        case Go =>
          pc[0] := S.Again(c, pc[0].i);
      }
      assert View() == S.Next(c, before, st);
      S.StepInv(c, before, st);
    }

    method MoveBytes(q: nat, count: nat)
      requires Valid() && S.Enabled(c, View(), S.Transfer(q, count))
      modifies this, pc, check
      ensures View() == S.Next(c, old(View()), S.Transfer(q, count))
    {
      var i, moved, ended := pc[q].i, pc[q].moved, pc[q].ended;
      if KindOf(c, q, i).Write? {
        contents := Overwrite(contents, offset, Rec(c, q)[moved..moved + count]);
      } else {
        check[q] := Splice(check[q], moved, contents[offset..offset + count]);
      }
      offset := offset + count;
      pc[q] := S.Using(i, moved + count, ended);
    }

    method CheckTransfer(q: nat)
      requires Valid() && S.Enabled(c, View(), S.Finish(q))
      modifies this, pc
      ensures View() == S.Next(c, old(View()), S.Finish(q))
    {
      var i, moved := pc[q].i, pc[q].moved;
      if KindOf(c, q, i).Read? && ((q > 0 && moved == 0) || check[q] != Rec(c, q)) {
        pc[q] := S.Failed(i, moved, pc[q].ended);
        failed := true;
      } else {
        pc[q] := S.Handing(i);
        turns := turns + 1;
      }
    }

    /** Follows a schedule, passing over steps that are not possible when they come up. */
    method Drive(schedule: seq<S.Step>) returns (ghost taken: seq<S.Step>)
      requires Valid()
      modifies this, pc, check
      ensures Valid() && S.Legal(c, old(View()), taken) && View() == S.Run(c, old(View()), taken)
    {
      ghost var start := View();
      taken := [];
      for k := 0 to |schedule|
        invariant Valid() && S.Legal(c, start, taken) && View() == S.Run(c, start, taken)
      {
        var possible := CanExecute(schedule[k]);
        if possible {
          SyncRunExtends(c, start, taken, schedule[k]);
          Execute(schedule[k]);
          taken := taken + [schedule[k]];
        }
      }
    }

    method CanExecute(st: S.Step) returns (r: bool)
      requires Valid()
      ensures r == S.Enabled(c, View(), st)
    {
      r := S.Enabled(c, S.State(sync, pc[..], rewound, World(contents, offset, check[..]), 0, failed), st);
    }
  }

  lemma {:induction false} SyncRunExtends(c: Config, s: S.State, sts: seq<S.Step>, st: S.Step)
    requires S.Legal(c, s, sts) && S.Enabled(c, S.Run(c, s, sts), st)
    ensures S.Legal(c, s, sts + [st]) && S.Run(c, s, sts + [st]) == S.Next(c, S.Run(c, s, sts), st)
    decreases |sts|
  {
    if sts == [] {
      assert [st][1..] == [] && S.Run(c, s, [st]) == S.Run(c, S.Next(c, s, st), []);
    } else {
      assert (sts + [st])[0] == sts[0] && (sts + [st])[1..] == sts[1..] + [st];
      SyncRunExtends(c, S.Next(c, s, sts[0]), sts[1..], st);
    }
  }

  // ----- the program in file mode -----

  /** Under any schedule no CHECK fails; and once everybody is done the file holds every record
      in order, and the offset is at its end, everything having been read back. */
  method RunBarrierFile(ntasks: nat, niters: nat, schedule: seq<B.Step>) returns (p: BarrierProgram)
    requires niters > 0
    ensures p.c == ProgramConfig(FileMode, ntasks, niters) && !p.failed
    ensures (forall q :: 0 <= q < p.pc.Length ==> p.pc[q].Done?) ==>
      p.contents == R.Times(R.Concat(p.c.records), niters) && p.offset == |p.contents|
  {
    var c := ProgramConfig(FileMode, ntasks, niters);
    F.ProgramConfigValid(FileMode, ntasks, niters);
    p := new BarrierProgram(c, World("", 0, Blank(c)));
    var taken := p.Drive(schedule);
    V.BarrierFileMode(c, World("", 0, Blank(c)), taken);
    if forall q :: 0 <= q < p.pc.Length ==> p.pc[q].Done? { assert B.Stuck(c, p.View()); }
  }

  method RunSyncFile(ntasks: nat, niters: nat, schedule: seq<S.Step>) returns (p: SyncProgram)
    requires niters > 0
    ensures p.c == ProgramConfig(FileMode, ntasks, niters) && !p.failed
    ensures (forall q :: 0 <= q < p.pc.Length ==> p.pc[q].Done?) ==>
      p.contents == R.Times(R.Concat(p.c.records), niters) && p.offset == |p.contents|
  {
    var c := ProgramConfig(FileMode, ntasks, niters);
    F.ProgramConfigValid(FileMode, ntasks, niters);
    p := new SyncProgram(c, World("", 0, Blank(c)));
    var taken := p.Drive(schedule);
    V.SyncFileMode(c, World("", 0, Blank(c)), taken);
    if forall q :: 0 <= q < p.pc.Length ==> p.pc[q].Done? { assert S.Stuck(c, p.View()); }
  }
}
