/** compat/fork.c with its one flat pid table, updated in place through IDX(P,I) = P*nfork+I. */
module ForkProgram {
  import opened F = ForkReap

  /** Where row `a` begins. */
  function Base(nfork: nat, a: nat): nat {
    if a == 0 then 0 else Base(nfork, a - 1) + nfork
  }

  /** The flat table cut into one row for each task. */
  function Rows(flat: seq<nat>, nfork: nat, n: nat): seq<seq<nat>>
    requires |flat| == Base(nfork, n)
    decreases n
  {
    if n == 0 then [] else Rows(flat[..Base(nfork, n - 1)], nfork, n - 1) + [flat[Base(nfork, n - 1)..]]
  }

  lemma {:induction false} BaseIs(nfork: nat, a: nat)
    ensures Base(nfork, a) == a * nfork
  {
    if a == 0 {
    } else {
      BaseIs(nfork, a - 1);
      assert a * nfork == (a - 1) * nfork + nfork;
    }
  }

  lemma {:induction false} BaseGrows(nfork: nat, a: nat, b: nat)
    requires a < b
    ensures Base(nfork, a) + nfork <= Base(nfork, b)
  {
    if a < b - 1 { BaseGrows(nfork, a, b - 1); }
  }

  lemma {:induction false} RowsShape(flat: seq<nat>, nfork: nat, n: nat)
    requires |flat| == Base(nfork, n)
    ensures |Rows(flat, nfork, n)| == n
    ensures forall a :: 0 <= a < n ==> |Rows(flat, nfork, n)[a]| == nfork
    decreases n
  {
    if n == 0 {
    } else {
      RowsShape(flat[..Base(nfork, n - 1)], nfork, n - 1);
    }
  }

  /** IDX names each entry of the table: reading there is reading row a at i, and storing
      there changes that entry and no other. */
  lemma {:induction false} IdxAddresses(flat: seq<nat>, nfork: nat, n: nat, a: nat, i: nat, pid: nat)
    requires |flat| == Base(nfork, n) && a < n && i < nfork
    ensures a * nfork + i < |flat|
    ensures |Rows(flat, nfork, n)| == n && |Rows(flat, nfork, n)[a]| == nfork
    ensures flat[a * nfork + i] == Rows(flat, nfork, n)[a][i]
    ensures Rows(flat[a * nfork + i := pid], nfork, n) == Put(Rows(flat, nfork, n), a, i, pid)
    decreases n
  {
    BaseIs(nfork, a);
    RowsShape(flat, nfork, n);
    var at, base := a * nfork + i, Base(nfork, n - 1);
    if a == n - 1 {
      assert flat[at := pid][..base] == flat[..base];
      assert flat[at := pid][base..] == flat[base..][i := pid];
    } else {
      BaseGrows(nfork, a, n - 1);
      IdxAddresses(flat[..base], nfork, n - 1, a, i, pid);
      assert flat[at := pid][..base] == flat[..base][at := pid];
      assert flat[at := pid][base..] == flat[base..];
    }
  }

  lemma {:induction false} RowsClear(flat: seq<nat>, nfork: nat, n: nat)
    requires |flat| == Base(nfork, n) && forall m :: 0 <= m < |flat| ==> flat[m] == 0
    ensures var rows := Rows(flat, nfork, n);
      |rows| == n && forall a :: 0 <= a < n ==> |rows[a]| == nfork && forall i :: 0 <= i < nfork ==> rows[a][i] == 0
    decreases n
  {
    if n == 0 {
    } else {
      RowsClear(flat[..Base(nfork, n - 1)], nfork, n - 1);
    }
  }

  class Program {
    const c: Config
    const pc: array<PC>
    const table: array<nat>
    const forked: array<bool>
    const finished: array<bool>
    var check: bool
    var kids: map<nat, nat>
    ghost var open: map<nat, nat>

    ghost function View(): State
      requires table.Length == Base(c.nfork, c.nt)
      reads this, pc, table, forked, finished
    {
      State(pc[..], Rows(table[..], c.nfork, c.nt), kids, forked[..], check, finished[..], open)
    }

    ghost predicate Valid()
      reads this, pc, table, forked, finished
    {
      table.Length == Base(c.nfork, c.nt) && forked != finished && Inv(c, View())
    }

    /** Task 0 clears the table before it exports it. */
    constructor (c: Config)
      requires c.nt > 0 && c.nfork > 0
      ensures Valid() && this.c == c && Initial(c, View())
      ensures fresh(pc) && fresh(table) && fresh(forked) && fresh(finished)
    {
      this.c := c;
      pc := new PC[c.nt](_ => Forking(0));
      BaseIs(c.nfork, c.nt);
      table := new nat[c.nt * c.nfork](_ => 0);
      forked := new bool[c.nt](_ => false);
      finished := new bool[c.nt](_ => false);
      check, kids, open := false, map[], map[];
      new;
      RowsClear(table[..], c.nfork, c.nt);
      InitialInv(c, View());
    }

    method CanExecute(st: Step) returns (r: bool)
      requires Valid()
      ensures r == Enabled(c, View(), st)
    {
      r := Enabled(c, State(pc[..], Rows(table[..], c.nfork, c.nt), kids, forked[..], check, finished[..], map[]), st);
    }

    method Execute(st: Step)
      requires Valid() && Enabled(c, View(), st)
      modifies this, pc, table, forked, finished
      ensures Valid() && View() == Next(c, old(View()), st)
    {
      ghost var before := View();
      var p := st.p;
      match st {
        case Fork(_, pid) =>
          kids, open := kids[pid := p], open[pid := p];
          pc[p] := Storing(pc[p].i, pid);
        case Wait(_, pid) =>
          kids := kids - {pid};
          pc[p] := Scan(pc[p].n, pid, 0, 0, false);
        case Go(_) =>
          if pc[p].Storing? {
            StorePid(p);
          } else if pc[p].Scan? {
            Look(p);
          } else if pc[p].Clear? {
            CrossOut(p);
          } else {
            Handshake(p);
          }
      }
      StepInv(c, before, st);
    }

    method StorePid(p: nat)
      requires Valid() && Enabled(c, View(), Go(p)) && pc[p].Storing?
      modifies pc, table
      ensures table.Length == Base(c.nfork, c.nt) && View() == Next(c, old(View()), Go(p))
    {
      var i, pid := pc[p].i, pc[p].pid;
      SetAt(p, i, pid);
      pc[p] := Forking(i + 1);
    }

    method CrossOut(p: nat)
      requires Valid() && Enabled(c, View(), Go(p)) && pc[p].Clear?
      modifies this, pc, table
      ensures table.Length == Base(c.nfork, c.nt) && View() == Next(c, old(View()), Go(p))
    {
      var n, pid, j, k := pc[p].n, pc[p].pid, pc[p].j, pc[p].k;
      SetAt(j, k, 0);
      open := open - {pid};
      pc[p] := Scan(n - 1, pid, j + 1, 0, true);
    }

    method Look(p: nat)
      requires Valid() && Enabled(c, View(), Go(p)) && pc[p].Scan?
      modifies pc
      ensures View() == Next(c, old(View()), Go(p))
    {
      var n, pid, j, k, found := pc[p].n, pc[p].pid, pc[p].j, pc[p].k, pc[p].found;
      assert Next(c, View(), Go(p)) == To(View(), p, Compare(c, View(), p, n, pid, j, k, found));
      if j >= c.nt {
        pc[p] := if n > 0 then Reap(n) else if p == 0 then Gather(1) else SayDone;
      } else if (!c.threaded && j != p) || k >= c.nfork {
        pc[p] := Scan(n, pid, j + 1, 0, found);
      } else {
        LookAt(p, n, pid, j, k, found);
      }
    }

    /** The comparison itself. */
    method LookAt(p: nat, n: int, pid: nat, j: nat, k: nat, found: bool)
      requires Valid() && p < c.nt && pc[p] == Scan(n, pid, j, k, found) && j < c.nt && k < c.nfork
      requires c.threaded || j == p
      modifies pc
      ensures View() == old(View()).(pc := old(pc[..])[p := Compare(c, old(View()), p, n, pid, j, k, found)])
    {
      var hit := At(j, k) == pid;
      pc[p] := if hit then Clear(n, pid, j, k) else Scan(n, pid, j, k + 1, found);
    }

    /** Stores to forked[IDX(j,k)]. */
    method SetAt(j: nat, k: nat, pid: nat)
      requires table.Length == Base(c.nfork, c.nt) && j < c.nt && k < c.nfork
      modifies table
      ensures table.Length == Base(c.nfork, c.nt)
      ensures var was := Rows(old(table[..]), c.nfork, c.nt);
        |was| == c.nt && |was[j]| == c.nfork && Rows(table[..], c.nfork, c.nt) == Put(was, j, k, pid)
    {
      IdxAddresses(table[..], c.nfork, c.nt, j, k, pid);
      var at := j * c.nfork + k;
      table[at] := pid;
    }

    /** Loads forked[IDX(j,k)]. */
    function At(j: nat, k: nat): (pid: nat)
      requires table.Length == Base(c.nfork, c.nt) && j < c.nt && k < c.nfork
      reads this, table
      ensures |Rows(table[..], c.nfork, c.nt)| == c.nt && |Rows(table[..], c.nfork, c.nt)[j]| == c.nfork
      ensures pid == Rows(table[..], c.nfork, c.nt)[j][k]
    {
      IdxAddresses(table[..], c.nfork, c.nt, j, k, 0);
      table[j * c.nfork + k]
    }

    /** The exports and imports around the loops. */
    method Handshake(p: nat)
      requires Valid() && Enabled(c, View(), Go(p)) && !pc[p].Storing? && !pc[p].Scan? && !pc[p].Clear?
      modifies this, pc, forked, finished
      ensures forked != finished && View() == Next(c, old(View()), Go(p))
    {
      match pc[p] {
        case Forking(_) =>
          pc[p] := if p == 0 then Collect(1) else Announce;
        case Collect(i) =>
          check := check || i >= c.nt;
          pc[p] := if i < c.nt then Collect(i + 1) else Reap(c.nfork);
        case Announce =>
          forked[p], pc[p] := true, AwaitCheck;
        case AwaitCheck =>
          pc[p] := Reap(c.nfork);
        case Reap(_) =>
          pc[p] := NoChild;
        case Gather(i) =>
          pc[p] := if i < c.nt then Gather(i + 1) else Returned;
        case SayDone =>
          finished[p], pc[p] := true, Returned;
      }
    }
  }

  /** The tasks under any schedule: no wait() fails, and once all have returned no child is left
      and the flat table is as it was before the first fork. */
  method RunTasks(c: Config, schedule: seq<Step>) returns (p: Program)
    requires c.nt > 0 && c.nfork > 0
    ensures p.Valid() && p.c == c && forall t :: 0 <= t < c.nt ==> !p.pc[t].NoChild?
    ensures (forall t :: 0 <= t < c.nt ==> p.pc[t].Returned?) ==>
      p.kids == map[] && forall m :: 0 <= m < c.nt * c.nfork ==> m < p.table.Length && p.table[m] == 0
  {
    p := new Program(c);
    for i := 0 to |schedule|
      invariant p.Valid() && p.c == c
      invariant fresh(p) && fresh(p.pc) && fresh(p.table) && fresh(p.forked) && fresh(p.finished)
    {
      var possible := p.CanExecute(schedule[i]);
      if possible { p.Execute(schedule[i]); }
    }
    Outcome(c, p.View(), p.table[..]);
  }

  lemma Outcome(c: Config, s: State, flat: seq<nat>)
    requires Inv(c, s) && |flat| == Base(c.nfork, c.nt) && s.table == Rows(flat, c.nfork, c.nt)
    ensures forall t :: 0 <= t < c.nt ==> !s.pc[t].NoChild?
    ensures |flat| == c.nt * c.nfork
    ensures (forall t :: 0 <= t < c.nt ==> s.pc[t].Returned?) ==>
      s.kids == map[] && forall m :: 0 <= m < |flat| ==> flat[m] == 0
  {
    forall t | 0 <= t < c.nt ensures !s.pc[t].NoChild? { assert TaskOk(c, s, t); }
    BaseIs(c.nfork, c.nt);
    if forall t :: 0 <= t < c.nt ==> s.pc[t].Returned? {
      AllReaped(c, s);
      RowsAreClear(flat, c.nfork, c.nt);
    }
  }

  lemma {:induction false} RowsAreClear(flat: seq<nat>, nfork: nat, n: nat)
    requires |flat| == Base(nfork, n)
    requires var rows := Rows(flat, nfork, n);
      |rows| == n && forall a :: 0 <= a < n ==> |rows[a]| == nfork && forall i :: 0 <= i < nfork ==> rows[a][i] == 0
    ensures forall m :: 0 <= m < |flat| ==> flat[m] == 0
    decreases n
  {
    if n == 0 {
    } else {
      var base := Base(nfork, n - 1);
      RowsShape(flat[..base], nfork, n - 1);
      assert Rows(flat, nfork, n)[..n - 1] == Rows(flat[..base], nfork, n - 1);
      assert forall a :: 0 <= a < n - 1 ==> Rows(flat[..base], nfork, n - 1)[a] == Rows(flat, nfork, n)[a];
      RowsAreClear(flat[..base], nfork, n - 1);
      assert Rows(flat, nfork, n)[n - 1] == flat[base..];
      forall m | 0 <= m < |flat| ensures flat[m] == 0 {
        if m >= base { assert flat[m] == flat[base..][m - base]; } else { assert flat[m] == flat[..base][m]; }
      }
    }
  }
}
