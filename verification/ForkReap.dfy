/**
 compat/fork.c: every task forks nfork children and records their pids in a shared table;
 after a handshake each waits for children, looks each pid up and counts down. In thread mode
 wait() may hand a task another task's child. Every fork, store, wait, comparison and store
 of a zero is a step.
 */
module ForkReap {
  import opened Sums
  import opened Supply

  datatype Config = Config(nt: nat, nfork: nat, threaded: bool)

  datatype PC =
    | Forking(i: nat) | Storing(i: nat, pid: nat)
    | Collect(i: nat)                                    // task 0 imports "forked" from task i
    | Announce | AwaitCheck                              // the others
    | Reap(n: int)
    | Scan(n: int, pid: nat, j: nat, k: nat, found: bool)
    | Clear(n: int, pid: nat, j: nat, k: nat)
    | Gather(i: nat)                                     // task 0 imports "DONE" from task i
    | SayDone
    | Returned
    | NoChild                                            // wait() failed with ECHILD

  /** `kids` are the children nobody has waited for, with the task that forked them; `open`
      is history: the pids that have been forked and not yet been crossed out, likewise. */
  datatype State = State(
    pc: seq<PC>, table: seq<seq<nat>>, kids: map<nat, nat>,
    forked: seq<bool>, check: bool, finished: seq<bool>, open: map<nat, nat>)

  datatype Step = Go(p: nat) | Fork(p: nat, pid: nat) | Wait(p: nat, pid: nat)

  predicate Shaped(c: Config, s: State) {
    && c.nt > 0 && c.nfork > 0
    && |s.pc| == |s.table| == |s.forked| == |s.finished| == c.nt
    && forall p :: 0 <= p < c.nt ==> |s.table[p]| == c.nfork
  }

  /** The children that wait() can return to task p. */
  predicate Eligible(c: Config, s: State, p: nat, pid: nat) {
    pid in s.kids && (c.threaded || s.kids[pid] == p)
  }

  predicate Childless(c: Config, s: State, p: nat) {
    forall pid :: pid in s.kids ==> !Eligible(c, s, p, pid)
  }

  predicate Enabled(c: Config, s: State, st: Step) {
    && Shaped(c, s) && st.p < c.nt
    && var pc := s.pc[st.p];
       match st
       case Fork(_, pid) => pc.Forking? && pc.i < c.nfork && pid > 0 && pid !in s.kids
       case Wait(p, pid) => pc.Reap? && Eligible(c, s, p, pid)
       case Go(p) =>
         match pc
         case Forking(i) => i >= c.nfork
         case Storing(i, _) => i < c.nfork
         case Collect(i) => i >= c.nt || s.forked[i]
         case AwaitCheck => s.check
         case Reap(_) => Childless(c, s, p)
         case Clear(_, _, j, k) => j < c.nt && k < c.nfork
         case Gather(i) => i >= c.nt || s.finished[i]
         case Returned => false
         case NoChild => false
         case _ => true
  }

  function Next(c: Config, s: State, st: Step): State
    requires Enabled(c, s, st)
  {
    var p, pc := st.p, s.pc[st.p];
    match st
    case Fork(_, pid) => To(s, p, Storing(pc.i, pid)).(kids := s.kids[pid := p], open := s.open[pid := p])
    case Wait(_, pid) => To(s, p, Scan(pc.n, pid, 0, 0, false)).(kids := s.kids - {pid})
    case Go(_) =>
      match pc
      case Forking(_) => To(s, p, if p == 0 then Collect(1) else Announce)
      case Storing(i, pid) => To(s, p, Forking(i + 1)).(table := Put(s.table, p, i, pid))
      case Collect(i) => if i < c.nt then To(s, p, Collect(i + 1)) else To(s, p, Reap(c.nfork)).(check := true)
      case Announce => To(s, p, AwaitCheck).(forked := s.forked[p := true])
      case AwaitCheck => To(s, p, Reap(c.nfork))
      case Reap(_) => To(s, p, NoChild)
      case Scan(n, pid, j, k, found) => To(s, p, Compare(c, s, p, n, pid, j, k, found))
      case Clear(n, pid, j, k) =>
        To(s, p, Scan(n - 1, pid, j + 1, 0, true)).(table := Put(s.table, j, k, 0), open := s.open - {pid})
      case Gather(i) => To(s, p, if i < c.nt then Gather(i + 1) else Returned)
      case SayDone => To(s, p, Returned).(finished := s.finished[p := true])
  }

  function Put(table: seq<seq<nat>>, j: nat, k: nat, pid: nat): seq<seq<nat>>
    requires j < |table| && k < |table[j]|
  {
    var row: seq<nat> := table[j][k := pid];
    table[j := row]
  }

  function To(s: State, p: nat, pc: PC): State
    requires p < |s.pc|
  {
    s.(pc := s.pc[p := pc])
  }

  /** One turn of the nested search loops, and of the loop around them at their end. */
  function Compare(c: Config, s: State, p: nat, n: int, pid: nat, j: nat, k: nat, found: bool): PC
    requires Shaped(c, s)
  {
    if j >= c.nt then (if n > 0 then Reap(n) else if p == 0 then Gather(1) else SayDone)
    else if (!c.threaded && j != p) || k >= c.nfork then Scan(n, pid, j + 1, 0, found)
    else if s.table[j][k] == pid then Clear(n, pid, j, k)
    else Scan(n, pid, j, k + 1, found)
  }

  predicate Legal(c: Config, s: State, sts: seq<Step>)
    decreases |sts|
  {
    sts == [] || (Enabled(c, s, sts[0]) && Legal(c, Next(c, s, sts[0]), sts[1..]))
  }

  function Run(c: Config, s: State, sts: seq<Step>): State
    requires Legal(c, s, sts)
    decreases |sts|
  {
    if sts == [] then s else Run(c, Next(c, s, sts[0]), sts[1..])
  }

  /** Task 0 has cleared and exported the table; nobody else gets past its import before. */
  predicate Initial(c: Config, s: State) {
    && Shaped(c, s) && s.kids == map[] && !s.check && s.open == map[]
    && forall p :: 0 <= p < c.nt ==>
         s.pc[p] == Forking(0) && !s.forked[p] && !s.finished[p] && forall i :: 0 <= i < c.nfork ==> s.table[p][i] == 0
  }

  // ----- the invariant -----

  predicate PastFork(pc: PC) { !pc.Forking? && !pc.Storing? }

  predicate Reaping(pc: PC) { PastFork(pc) && !pc.Collect? && !pc.Announce? && !pc.AwaitCheck? }

  /** The pid that a task has got from wait() and not yet crossed out. */
  predicate InHand(pc: PC) { (pc.Scan? && !pc.found) || pc.Clear? }

  /** Children that a task has forked, or still has to cross out. */
  function Due(c: Config, pc: PC): int {
    match pc
    case Forking(i) => i
    case Storing(i, _) => i + 1
    case Reap(n) => n
    case Scan(n, _, _, _, _) => n
    case Clear(n, _, _, _) => n
    case Gather(_) => 0
    case SayDone => 0
    case Returned => 0
    case _ => c.nfork
  }

  function Dues(c: Config, s: State): (r: seq<int>)
    ensures |r| == |s.pc|
  {
    seq(|s.pc|, p requires 0 <= p < |s.pc| => Due(c, s.pc[p]))
  }

  /** Pid `pid` stands in the table at a place the search has yet to reach. */
  ghost predicate Ahead(c: Config, s: State, p: nat, pid: nat, j: nat, k: nat)
    requires Shaped(c, s)
  {
    exists a: nat, b: nat :: a < c.nt && b < c.nfork && s.table[a][b] == pid
                             && (a > j || (a == j && b >= k)) && (c.threaded || a == p)
  }

  ghost predicate TaskOk(c: Config, s: State, p: nat)
    requires Shaped(c, s) && p < c.nt
  {
    && (s.forked[p] ==> PastFork(s.pc[p]) && p > 0)
    && (Reaping(s.pc[p]) ==> s.check)
    && match s.pc[p]
       case Forking(i) => i <= c.nfork && forall m :: i <= m < c.nfork ==> s.table[p][m] == 0
       case Storing(i, pid) =>
         i < c.nfork && pid > 0 && pid in s.kids && s.kids[pid] == p
         && forall m :: i <= m < c.nfork ==> s.table[p][m] == 0
       case Collect(i) => p == 0 && 1 <= i <= c.nt && forall q :: 1 <= q < i ==> s.forked[q]
       case Announce => p > 0
       case AwaitCheck => p > 0 && s.forked[p]
       case Reap(n) => 1 <= n <= c.nfork
       case Scan(n, pid, j, k, found) =>
         && 0 <= n <= c.nfork && j <= c.nt && k <= c.nfork && pid > 0
         && (!found ==> n > 0 && pid in s.open && pid !in s.kids && Ahead(c, s, p, pid, j, k))
         && (found ==> forall a, b :: 0 <= a < c.nt && 0 <= b < c.nfork ==> s.table[a][b] != pid)
       case Clear(n, pid, j, k) =>
         && 1 <= n <= c.nfork && j < c.nt && k < c.nfork && (c.threaded || j == p)
         && pid > 0 && pid in s.open && pid !in s.kids && s.table[j][k] == pid
       case Gather(i) => p == 0 && 1 <= i
       case SayDone => p > 0
       case Returned => p == 0 || s.finished[p]
       case NoChild => false
  }

  /** Every recorded pid is a child still to be waited for, or in somebody's hand. */
  ghost predicate Known(c: Config, s: State, pid: nat) {
    pid in s.kids || exists p :: 0 <= p < |s.pc| && InHand(s.pc[p]) && s.pc[p].pid == pid
  }

  /** A child not yet waited for stands in its forker's row, or is about to be put there. */
  ghost predicate Placed(c: Config, s: State, pid: nat)
    requires Shaped(c, s) && pid in s.kids
  {
    var p := s.kids[pid];
    && p < c.nt && pid > 0 && pid in s.open && s.open[pid] == p
    && ((exists i: nat :: i < c.nfork && s.table[p][i] == pid) || (s.pc[p].Storing? && s.pc[p].pid == pid))
  }

  ghost predicate CellOk(c: Config, s: State, a: nat, i: nat)
    requires Shaped(c, s) && a < c.nt && i < c.nfork
  {
    s.table[a][i] != 0 ==>
      && s.table[a][i] in s.open && s.open[s.table[a][i]] == a
      && !(s.pc[a].Storing? && s.pc[a].pid == s.table[a][i])
  }

  ghost predicate TasksOk(c: Config, s: State)
    requires Shaped(c, s)
  {
    && (forall p :: 0 <= p < c.nt ==> TaskOk(c, s, p))
    && (s.check ==> PastFork(s.pc[0]) && forall p :: 1 <= p < c.nt ==> s.forked[p])
  }

  ghost predicate PidsOk(c: Config, s: State)
    requires Shaped(c, s)
  {
    && (forall pid :: pid in s.open ==> Known(c, s, pid))
    && (forall pid :: pid in s.kids ==> Placed(c, s, pid))
    && (forall a, i :: 0 <= a < c.nt && 0 <= i < c.nfork ==> CellOk(c, s, a, i))
  }

  /** No pid is at two places of a row or in two hands. */
  ghost predicate Apart(c: Config, s: State)
    requires Shaped(c, s)
  {
    && (forall a, i, k ::
          0 <= a < c.nt && 0 <= i < k < c.nfork && s.table[a][i] != 0 ==> s.table[a][i] != s.table[a][k])
    && (forall p, q :: 0 <= p < q < c.nt && InHand(s.pc[p]) && InHand(s.pc[q]) ==> s.pc[p].pid != s.pc[q].pid)
  }

  ghost predicate Inv(c: Config, s: State) {
    Shaped(c, s) && TasksOk(c, s) && PidsOk(c, s) && Apart(c, s) && CountOk(c, s)
  }

  /** Counting: in thread mode over all tasks together, in process mode task by task. */
  ghost predicate CountOk(c: Config, s: State) {
    if c.threaded then |s.open.Keys| == Sum(Dues(c, s))
    else forall p :: 0 <= p < |s.pc| ==> |OpenOf(s.open, p)| == Due(c, s.pc[p])
  }

  function OpenOf(open: map<nat, nat>, p: nat): set<nat> {
    set pid | pid in open && open[pid] == p
  }

  lemma InitialInv(c: Config, s: State)
    requires Initial(c, s)
    ensures Inv(c, s)
  {
    SumSame(Dues(c, s), 0);
    assert forall p: nat :: OpenOf(s.open, p) == {};
  }

  /** When one task reaps, all have forked. */
  lemma AllForked(c: Config, s: State, p: nat, q: nat)
    requires Inv(c, s) && p < c.nt && q < c.nt && Reaping(s.pc[p])
    ensures PastFork(s.pc[q])
  {
    assert TaskOk(c, s, p) && TaskOk(c, s, q);
  }

  /** A child that was forked and not crossed out is in nobody's hand while anyone forks. */
  lemma NotYetInHand(c: Config, s: State, p: nat, pid: nat)
    requires Inv(c, s) && p < c.nt && !PastFork(s.pc[p]) && pid in s.open
    ensures pid in s.kids
  {
    assert Known(c, s, pid);
    if pid !in s.kids {
      var q :| 0 <= q < |s.pc| && InHand(s.pc[q]) && s.pc[q].pid == pid;
      AllForked(c, s, q, p);
      assert false;
    }
  }

  lemma NobodyReaps(c: Config, s: State, p: nat)
    requires Inv(c, s) && p < c.nt && !PastFork(s.pc[p])
    ensures forall q :: 0 <= q < c.nt ==> !Reaping(s.pc[q]) && !InHand(s.pc[q])
  {
    forall q | 0 <= q < c.nt ensures !Reaping(s.pc[q]) { assert TaskOk(c, s, q) && TaskOk(c, s, p); }
  }

  // ----- steps that leave children and table alone -----

  /** What a task has crossed out according to its own countdown. */
  function Reaped(c: Config, pc: PC): int { if PastFork(pc) then c.nfork - Due(c, pc) else 0 }

  ghost predicate Quiet(c: Config, s: State, t: State, p: nat) {
    && Shaped(c, s) && Shaped(c, t) && p < c.nt
    && t.pc == s.pc[p := t.pc[p]] && t.table == s.table && t.kids == s.kids && t.open == s.open
    && t.forked == s.forked[p := t.forked[p]] && (s.forked[p] ==> t.forked[p])
    && t.finished == s.finished[p := t.finished[p]] && (s.finished[p] ==> t.finished[p])
    && (s.check ==> t.check)
    && !s.pc[p].Storing? && !t.pc[p].Storing?
    && (PastFork(s.pc[p]) ==> PastFork(t.pc[p]))
    && InHand(s.pc[p]) == InHand(t.pc[p]) && (InHand(s.pc[p]) ==> t.pc[p].pid == s.pc[p].pid)
    && Due(c, t.pc[p]) == Due(c, s.pc[p]) && Reaped(c, t.pc[p]) == Reaped(c, s.pc[p])
  }

  /** The other steps: a fork, a store of a pid, a wait() and a store of a zero. */
  predicate Heavy(s: State, st: Step) {
    st.p < |s.pc| && (!st.Go? || s.pc[st.p].Storing? || s.pc[st.p].Clear?)
  }

  lemma QuietStep(c: Config, s: State, st: Step)
    requires Shaped(c, s) && Enabled(c, s, st) && !Heavy(s, st) && TaskOk(c, s, st.p) && !s.pc[st.p].Reap?
    ensures Quiet(c, s, Next(c, s, st), st.p)
  {
    if s.pc[st.p].Scan? { QuietScan(c, s, st.p); } else { QuietShake(c, s, st.p); }
  }

  lemma QuietScan(c: Config, s: State, p: nat)
    requires Enabled(c, s, Go(p)) && s.pc[p].Scan? && TaskOk(c, s, p)
    ensures Quiet(c, s, Next(c, s, Go(p)), p)
  {
    assert s.forked == s.forked[p := s.forked[p]] && s.finished == s.finished[p := s.finished[p]];
  }

  lemma QuietShake(c: Config, s: State, p: nat)
    requires Enabled(c, s, Go(p)) && !Heavy(s, Go(p)) && !s.pc[p].Scan? && TaskOk(c, s, p) && !s.pc[p].Reap?
    ensures Quiet(c, s, Next(c, s, Go(p)), p)
  {
  }

  lemma QuietTask(c: Config, s: State, st: Step)
    requires Inv(c, s) && Enabled(c, s, st) && !Heavy(s, st) && !s.pc[st.p].Reap?
    ensures Shaped(c, Next(c, s, st)) && TaskOk(c, Next(c, s, st), st.p)
  {
    assert TaskOk(c, s, st.p);
    if s.pc[st.p].Scan? { CompareTask(c, s, st.p); } else { ShakeTask(c, s, st.p); }
  }

  lemma ShakeTask(c: Config, s: State, p: nat)
    requires Enabled(c, s, Go(p)) && !Heavy(s, Go(p)) && !s.pc[p].Scan? && TaskOk(c, s, p) && !s.pc[p].Reap?
    ensures Shaped(c, Next(c, s, Go(p))) && TaskOk(c, Next(c, s, Go(p)), p)
  {
  }

  /** Task 0 lets the others go only when it has heard from all of them. */
  lemma QuietCheck(c: Config, s: State, st: Step)
    requires Inv(c, s) && Enabled(c, s, st) && Quiet(c, s, Next(c, s, st), st.p)
    ensures var t := Next(c, s, st); t.check ==> PastFork(t.pc[0]) && forall p :: 1 <= p < c.nt ==> t.forked[p]
  {
    assert TaskOk(c, s, st.p);
  }

  /** A search that has not found its pid has it still ahead, so it does not end without it. */
  lemma CompareTask(c: Config, s: State, p: nat)
    requires Shaped(c, s) && Enabled(c, s, Go(p)) && s.pc[p].Scan? && TaskOk(c, s, p)
    ensures var t := Next(c, s, Go(p)); Shaped(c, t) && TaskOk(c, t, p)
  {
    var Scan(n, pid, j, k, found) := s.pc[p];
    if !found {
      var a: nat, b: nat :| a < c.nt && b < c.nfork && s.table[a][b] == pid
                            && (a > j || (a == j && b >= k)) && (c.threaded || a == p);
      assert j < c.nt;
      var t := Next(c, s, Go(p));
      if t.pc[p].Scan? {
        assert t.table[a][b] == pid && (a > t.pc[p].j || (a == t.pc[p].j && b >= t.pc[p].k));
      }
    }
  }

  lemma QuietOther(c: Config, s: State, t: State, p: nat, q: nat)
    requires Quiet(c, s, t, p) && q < c.nt && q != p && TaskOk(c, s, q)
    ensures TaskOk(c, t, q)
  {
    var pc := s.pc[q];
    if pc.Scan? && !pc.found { assert Ahead(c, t, q, pc.pid, pc.j, pc.k); }
  }

  lemma QuietInv(c: Config, s: State, t: State, p: nat)
    requires Inv(c, s) && Quiet(c, s, t, p) && TaskOk(c, t, p)
    requires t.check ==> PastFork(t.pc[0]) && forall q :: 1 <= q < c.nt ==> t.forked[q]
    ensures Inv(c, t)
  {
    forall q | 0 <= q < c.nt ensures TaskOk(c, t, q) {
      if q != p { QuietOther(c, s, t, p, q); }
    }
    forall pid | pid in t.open ensures Known(c, t, pid) {
      KnownStays(c, s, t, p, pid);
    }
    forall pid | pid in t.kids ensures Placed(c, t, pid) { PlacedStays(c, s, t, p, pid); }
    forall a, i | 0 <= a < c.nt && 0 <= i < c.nfork ensures CellOk(c, t, a, i) { assert CellOk(c, s, a, i); }
    assert Dues(c, t) == Dues(c, s);
    forall q | 0 <= q < c.nt && !c.threaded ensures |OpenOf(t.open, q)| == Due(c, t.pc[q]) {
      assert OpenOf(t.open, q) == OpenOf(s.open, q);
    }
  }

  lemma PlacedStays(c: Config, s: State, t: State, p: nat, pid: nat)
    requires Shaped(c, s) && Shaped(c, t) && p < c.nt && pid in s.kids && pid in t.kids && Placed(c, s, pid)
    requires t.kids[pid] == s.kids[pid] && pid in t.open && t.open[pid] == s.open[pid]
    requires forall q :: 0 <= q < c.nt && q != p ==> t.pc[q] == s.pc[q]
    requires s.pc[p].Storing? ==> s.pc[p].pid != pid || t.pc[p] == s.pc[p]
    requires forall a, i :: 0 <= a < c.nt && 0 <= i < c.nfork && s.table[a][i] == pid ==> t.table[a][i] == pid
    ensures Placed(c, t, pid)
  {
    var f := s.kids[pid];
    if !(s.pc[f].Storing? && s.pc[f].pid == pid) {
      var i: nat :| i < c.nfork && s.table[f][i] == pid;
      assert t.table[f][i] == pid;
    }
  }

  lemma KnownStays(c: Config, s: State, t: State, p: nat, pid: nat)
    requires p < |s.pc| && p < |t.pc| && t.pc == s.pc[p := t.pc[p]]
    requires Known(c, s, pid) && (pid in s.kids ==> pid in t.kids)
    requires InHand(s.pc[p]) && s.pc[p].pid == pid ==> InHand(t.pc[p]) && t.pc[p].pid == pid
    ensures Known(c, t, pid)
  {
    if pid !in s.kids {
      var q :| 0 <= q < |s.pc| && InHand(s.pc[q]) && s.pc[q].pid == pid;
      assert InHand(t.pc[q]) && t.pc[q].pid == pid;
    }
  }

  // ----- steps that do not -----

  lemma ForkInv(c: Config, s: State, p: nat, pid: nat)
    requires Inv(c, s) && Enabled(c, s, Fork(p, pid))
    ensures Inv(c, Next(c, s, Fork(p, pid)))
  {
    ForkTasks(c, s, p, pid);
    ForkPids(c, s, p, pid);
    NobodyReaps(c, s, p);
    if pid in s.open { NotYetInHand(c, s, p, pid); }
    DueChanges(c, s, Next(c, s, Fork(p, pid)), p, pid);
  }

  lemma ForkTasks(c: Config, s: State, p: nat, pid: nat)
    requires Inv(c, s) && Enabled(c, s, Fork(p, pid))
    ensures Shaped(c, Next(c, s, Fork(p, pid))) && TasksOk(c, Next(c, s, Fork(p, pid)))
  {
    assert TaskOk(c, s, p);
    NobodyReaps(c, s, p);
    forall q | 0 <= q < c.nt ensures TaskOk(c, Next(c, s, Fork(p, pid)), q) { assert TaskOk(c, s, q); }
  }

  lemma ForkPids(c: Config, s: State, p: nat, pid: nat)
    requires Inv(c, s) && Enabled(c, s, Fork(p, pid))
    ensures Shaped(c, Next(c, s, Fork(p, pid))) && PidsOk(c, Next(c, s, Fork(p, pid)))
  {
    var t := Next(c, s, Fork(p, pid));
    assert TaskOk(c, s, p);
    if pid in s.open { NotYetInHand(c, s, p, pid); }
    forall x | x in t.open ensures Known(c, t, x) { if x != pid { NotYetInHand(c, s, p, x); } }
    forall x | x in t.kids ensures Placed(c, t, x) { if x != pid { PlacedStays(c, s, t, p, x); } }
    forall a, i | 0 <= a < c.nt && 0 <= i < c.nfork ensures CellOk(c, t, a, i) { assert CellOk(c, s, a, i); }
  }

  lemma StoreInv(c: Config, s: State, p: nat)
    requires Inv(c, s) && Enabled(c, s, Go(p)) && s.pc[p].Storing?
    ensures Inv(c, Next(c, s, Go(p)))
  {
    var t := Next(c, s, Go(p));
    StoreTasks(c, s, p);
    StoreKeepsPids(c, s, p);
    forall a, i, k | 0 <= a < c.nt && 0 <= i < k < c.nfork && t.table[a][i] != 0
      ensures t.table[a][i] != t.table[a][k]
    {
      StoreCell(c, s, p, a, i, k);
    }
    NobodyReaps(c, s, p);
    DueChanges(c, s, t, p, s.pc[p].pid);
  }

  lemma StoreTasks(c: Config, s: State, p: nat)
    requires Inv(c, s) && Enabled(c, s, Go(p)) && s.pc[p].Storing?
    ensures Shaped(c, Next(c, s, Go(p))) && TasksOk(c, Next(c, s, Go(p)))
  {
    assert TaskOk(c, s, p);
    NobodyReaps(c, s, p);
    forall q | 0 <= q < c.nt ensures TaskOk(c, Next(c, s, Go(p)), q) { assert TaskOk(c, s, q); }
  }

  lemma StoreKeepsPids(c: Config, s: State, p: nat)
    requires Inv(c, s) && Enabled(c, s, Go(p)) && s.pc[p].Storing?
    ensures Shaped(c, Next(c, s, Go(p))) && PidsOk(c, Next(c, s, Go(p)))
  {
    var t := Next(c, s, Go(p));
    var Storing(m, pid) := s.pc[p];
    assert TaskOk(c, s, p) && Placed(c, s, pid);
    forall x | x in t.open ensures Known(c, t, x) { NotYetInHand(c, s, p, x); }
    forall x | x in t.kids ensures Placed(c, t, x) {
      if x == pid { assert t.table[p][m] == x; } else { PlacedStays(c, s, t, p, x); }
    }
    forall a, i | 0 <= a < c.nt && 0 <= i < c.nfork ensures CellOk(c, t, a, i) { StoreCell(c, s, p, a, i, i); }
  }

  /** The pid stored is in no other place yet. */
  lemma StoreCell(c: Config, s: State, p: nat, a: nat, i: nat, k: nat)
    requires Inv(c, s) && Enabled(c, s, Go(p)) && s.pc[p].Storing? && a < c.nt && i <= k < c.nfork
    ensures var t := Next(c, s, Go(p)); Shaped(c, t) && CellOk(c, t, a, i)
    ensures var t := Next(c, s, Go(p)); i != k && t.table[a][i] != 0 ==> t.table[a][i] != t.table[a][k]
  {
    assert TaskOk(c, s, p) && Placed(c, s, s.pc[p].pid);
    assert CellOk(c, s, a, i) && CellOk(c, s, a, k);
  }

  lemma WaitInv(c: Config, s: State, p: nat, pid: nat)
    requires Inv(c, s) && Enabled(c, s, Wait(p, pid))
    ensures Inv(c, Next(c, s, Wait(p, pid)))
  {
    WaitTasks(c, s, p, pid);
    WaitPids(c, s, p, pid);
    WaitApart(c, s, p, pid);
    WaitCount(c, s, p, pid);
  }

  lemma WaitCount(c: Config, s: State, p: nat, pid: nat)
    requires Shaped(c, s) && CountOk(c, s) && Enabled(c, s, Wait(p, pid))
    ensures CountOk(c, Next(c, s, Wait(p, pid)))
  {
    DueChanges(c, s, Next(c, s, Wait(p, pid)), p, pid);
  }

  lemma WaitTasks(c: Config, s: State, p: nat, pid: nat)
    requires Inv(c, s) && Enabled(c, s, Wait(p, pid))
    ensures Shaped(c, Next(c, s, Wait(p, pid))) && TasksOk(c, Next(c, s, Wait(p, pid)))
  {
    forall q | 0 <= q < c.nt ensures TaskOk(c, Next(c, s, Wait(p, pid)), q) {
      if q == p { WaitTask(c, s, p, pid); } else { WaitOther(c, s, p, pid, q); }
    }
  }

  lemma WaitPids(c: Config, s: State, p: nat, pid: nat)
    requires Inv(c, s) && Enabled(c, s, Wait(p, pid))
    ensures Shaped(c, Next(c, s, Wait(p, pid))) && PidsOk(c, Next(c, s, Wait(p, pid)))
  {
    var t := Next(c, s, Wait(p, pid));
    assert InHand(t.pc[p]) && t.pc[p].pid == pid;
    forall x | x in t.open ensures Known(c, t, x) { if x != pid { KnownStays(c, s, t, p, x); } }
    forall x | x in t.kids ensures Placed(c, t, x) { PlacedStays(c, s, t, p, x); }
    forall a, i | 0 <= a < c.nt && 0 <= i < c.nfork ensures CellOk(c, t, a, i) { WaitCell(c, s, p, pid, a, i); }
  }

  lemma WaitApart(c: Config, s: State, p: nat, pid: nat)
    requires Inv(c, s) && Enabled(c, s, Wait(p, pid))
    ensures Shaped(c, Next(c, s, Wait(p, pid))) && Apart(c, Next(c, s, Wait(p, pid)))
  {
    forall q | 0 <= q < c.nt && InHand(s.pc[q]) ensures s.pc[q].pid != pid { assert TaskOk(c, s, q); }
  }

  lemma WaitCell(c: Config, s: State, p: nat, pid: nat, a: nat, i: nat)
    requires Inv(c, s) && Enabled(c, s, Wait(p, pid)) && a < c.nt && i < c.nfork
    ensures Shaped(c, Next(c, s, Wait(p, pid))) && CellOk(c, Next(c, s, Wait(p, pid)), a, i)
  {
    assert CellOk(c, s, a, i);
  }

  /** wait() returns only what has been recorded, and nobody had it before. */
  lemma WaitTask(c: Config, s: State, p: nat, pid: nat)
    requires Inv(c, s) && Enabled(c, s, Wait(p, pid))
    ensures TaskOk(c, Next(c, s, Wait(p, pid)), p)
  {
    assert TaskOk(c, s, p) && Placed(c, s, pid);
    var a := s.kids[pid];
    AllForked(c, s, p, a);
    var i: nat :| i < c.nfork && s.table[a][i] == pid;
    assert Ahead(c, Next(c, s, Wait(p, pid)), p, pid, 0, 0);
  }

  lemma WaitOther(c: Config, s: State, p: nat, pid: nat, q: nat)
    requires Inv(c, s) && Enabled(c, s, Wait(p, pid)) && q < c.nt && q != p
    ensures TaskOk(c, Next(c, s, Wait(p, pid)), q)
  {
    assert TaskOk(c, s, q);
    AllForked(c, s, p, q);
    var pc := s.pc[q];
    if pc.Scan? && !pc.found { assert Ahead(c, Next(c, s, Wait(p, pid)), q, pc.pid, pc.j, pc.k); }
  }

  lemma ClearInv(c: Config, s: State, p: nat)
    requires Inv(c, s) && Enabled(c, s, Go(p)) && s.pc[p].Clear?
    ensures Inv(c, Next(c, s, Go(p)))
  {
    ClearTasks(c, s, p);
    ClearPids(c, s, p);
    ClearApart(c, s, p);
    ClearsOwn(c, s, p);
    ClearCount(c, s, p);
  }

  lemma ClearsOwn(c: Config, s: State, p: nat)
    requires Inv(c, s) && p < c.nt && s.pc[p].Clear?
    ensures s.pc[p].pid in s.open && (c.threaded || s.open[s.pc[p].pid] == p)
  {
    assert TaskOk(c, s, p) && CellOk(c, s, s.pc[p].j, s.pc[p].k);
  }

  lemma ClearCount(c: Config, s: State, p: nat)
    requires Shaped(c, s) && CountOk(c, s) && Enabled(c, s, Go(p)) && s.pc[p].Clear?
    requires s.pc[p].pid in s.open && (c.threaded || s.open[s.pc[p].pid] == p)
    ensures CountOk(c, Next(c, s, Go(p)))
  {
    DueChanges(c, s, Next(c, s, Go(p)), p, s.pc[p].pid);
  }

  lemma ClearTasks(c: Config, s: State, p: nat)
    requires Inv(c, s) && Enabled(c, s, Go(p)) && s.pc[p].Clear?
    ensures Shaped(c, Next(c, s, Go(p))) && TasksOk(c, Next(c, s, Go(p)))
  {
    assert TaskOk(c, s, p);
    forall q | 0 <= q < c.nt ensures TaskOk(c, Next(c, s, Go(p)), q) {
      if q == p { ClearTask(c, s, p); } else { ClearOther(c, s, p, q); }
    }
  }

  lemma ClearPids(c: Config, s: State, p: nat)
    requires Inv(c, s) && Enabled(c, s, Go(p)) && s.pc[p].Clear?
    ensures Shaped(c, Next(c, s, Go(p))) && PidsOk(c, Next(c, s, Go(p)))
  {
    var t := Next(c, s, Go(p));
    assert TaskOk(c, s, p);
    forall x | x in t.open ensures Known(c, t, x) { KnownStays(c, s, t, p, x); }
    forall x | x in t.kids ensures Placed(c, t, x) { ClearPlaced(c, s, p, x); }
    forall a, i | 0 <= a < c.nt && 0 <= i < c.nfork ensures CellOk(c, t, a, i) { ClearCell(c, s, p, a, i); }
  }

  lemma ClearApart(c: Config, s: State, p: nat)
    requires Inv(c, s) && Enabled(c, s, Go(p)) && s.pc[p].Clear?
    ensures Shaped(c, Next(c, s, Go(p))) && Apart(c, Next(c, s, Go(p)))
  {
  }

  lemma ClearPlaced(c: Config, s: State, p: nat, x: nat)
    requires Inv(c, s) && Enabled(c, s, Go(p)) && s.pc[p].Clear? && x in s.kids
    ensures Shaped(c, Next(c, s, Go(p))) && x in Next(c, s, Go(p)).kids && Placed(c, Next(c, s, Go(p)), x)
  {
    assert TaskOk(c, s, p) && Placed(c, s, x);
    PlacedStays(c, s, Next(c, s, Go(p)), p, x);
  }

  lemma ClearCell(c: Config, s: State, p: nat, a: nat, i: nat)
    requires Inv(c, s) && Enabled(c, s, Go(p)) && s.pc[p].Clear? && a < c.nt && i < c.nfork
    ensures Shaped(c, Next(c, s, Go(p))) && CellOk(c, Next(c, s, Go(p)), a, i)
  {
    assert CellOk(c, s, a, i);
    OnlyCell(c, s, p, a, i);
  }

  /** A pid is recorded at one place only. */
  lemma OnlyCell(c: Config, s: State, p: nat, a: nat, i: nat)
    requires Inv(c, s) && p < c.nt && a < c.nt && i < c.nfork && s.pc[p].Clear?
    ensures var pc := s.pc[p]; s.table[a][i] == pc.pid ==> a == pc.j && i == pc.k
  {
    var pc := s.pc[p];
    assert TaskOk(c, s, p) && CellOk(c, s, a, i) && CellOk(c, s, pc.j, pc.k);
  }

  lemma ClearTask(c: Config, s: State, p: nat)
    requires Inv(c, s) && Enabled(c, s, Go(p)) && s.pc[p].Clear?
    ensures TaskOk(c, Next(c, s, Go(p)), p)
  {
    var t := Next(c, s, Go(p));
    assert TaskOk(c, s, p);
    forall a, b | 0 <= a < c.nt && 0 <= b < c.nfork ensures t.table[a][b] != s.pc[p].pid { OnlyCell(c, s, p, a, b); }
  }

  lemma ClearOther(c: Config, s: State, p: nat, q: nat)
    requires Inv(c, s) && Enabled(c, s, Go(p)) && s.pc[p].Clear? && q < c.nt && q != p
    ensures TaskOk(c, Next(c, s, Go(p)), q)
  {
    assert TaskOk(c, s, q) && TaskOk(c, s, p);
    AllForked(c, s, p, q);
    assert s.check && Next(c, s, Go(p)).check;
    if s.pc[q].Scan? { ClearScanner(c, s, p, q); } else { ClearRest(c, s, p, q); }
  }

  lemma ClearScanner(c: Config, s: State, p: nat, q: nat)
    requires Inv(c, s) && Enabled(c, s, Go(p)) && s.pc[p].Clear? && q < c.nt && q != p && s.pc[q].Scan?
    requires TaskOk(c, s, q) && TaskOk(c, s, p)
    ensures TaskOk(c, Next(c, s, Go(p)), q)
  {
    if !s.pc[q].found { StillAhead(c, s, Next(c, s, Go(p)), q, s.pc[p].pid); }
  }

  lemma ClearRest(c: Config, s: State, p: nat, q: nat)
    requires Shaped(c, s) && Apart(c, s) && Enabled(c, s, Go(p)) && s.pc[p].Clear? && q < c.nt && q != p
    requires !s.pc[q].Scan? && PastFork(s.pc[q]) && TaskOk(c, s, q) && TaskOk(c, s, p)
    ensures TaskOk(c, Next(c, s, Go(p)), q)
  {
  }

  lemma StillAhead(c: Config, s: State, t: State, q: nat, gone: nat)
    requires Shaped(c, s) && Shaped(c, t) && q < c.nt && s.pc[q].Scan? && s.pc[q].pid != gone
    requires forall a, i ::
      0 <= a < c.nt && 0 <= i < c.nfork && s.table[a][i] != gone ==> t.table[a][i] == s.table[a][i]
    requires var pc := s.pc[q]; Ahead(c, s, q, pc.pid, pc.j, pc.k)
    ensures var pc := s.pc[q]; Ahead(c, t, q, pc.pid, pc.j, pc.k)
  {
    var pc := s.pc[q];
    var a: nat, b: nat :| a < c.nt && b < c.nfork && s.table[a][b] == pc.pid
                          && (a > pc.j || (a == pc.j && b >= pc.k)) && (c.threaded || a == q);
    assert t.table[a][b] == pc.pid;
  }

  /** What a task is due and the children that are open change together. */
  ghost predicate Moves(c: Config, s: State, t: State, p: nat, pid: nat) {
    && Shaped(c, s) && Shaped(c, t) && p < c.nt && t.pc == s.pc[p := t.pc[p]]
    && var more := Due(c, t.pc[p]) - Due(c, s.pc[p]);
       if more == 0 then t.open == s.open
       else if more == 1 then pid !in s.open && t.open == s.open[pid := p]
       else more == -1 && pid in s.open && (c.threaded || s.open[pid] == p) && t.open == s.open - {pid}
  }

  lemma DueChanges(c: Config, s: State, t: State, p: nat, pid: nat)
    requires Moves(c, s, t, p, pid) && CountOk(c, s)
    ensures CountOk(c, t)
  {
    if c.threaded {
      assert Dues(c, t) == Dues(c, s)[p := Due(c, t.pc[p])];
      SumUpdate(Dues(c, s), p, Due(c, t.pc[p]));
      OpenKeys(c, s, t, p, pid);
    } else {
      forall q | 0 <= q < |t.pc| ensures |OpenOf(t.open, q)| == Due(c, t.pc[q]) { OwnKeys(c, s, t, p, pid, q); }
    }
  }

  lemma OpenKeys(c: Config, s: State, t: State, p: nat, pid: nat)
    requires Moves(c, s, t, p, pid)
    ensures |t.open.Keys| - |s.open.Keys| == Due(c, t.pc[p]) - Due(c, s.pc[p])
  {
    var more := Due(c, t.pc[p]) - Due(c, s.pc[p]);
    if more == 1 { assert t.open.Keys == s.open.Keys + {pid}; }
    if more == -1 { assert t.open.Keys == s.open.Keys - {pid}; }
  }

  lemma OwnKeys(c: Config, s: State, t: State, p: nat, pid: nat, q: nat)
    requires Moves(c, s, t, p, pid) && CountOk(c, s) && !c.threaded && q < c.nt
    ensures |OpenOf(t.open, q)| == Due(c, t.pc[q])
  {
    assert |OpenOf(s.open, q)| == Due(c, s.pc[q]);
    if pid in s.open { OneLess(s.open, pid, q); } else { OneMore(s.open, p, pid, q); }
  }

  lemma OneMore(open: map<nat, nat>, p: nat, pid: nat, q: nat)
    requires pid !in open
    ensures |OpenOf(open[pid := p], q)| == |OpenOf(open, q)| + if p == q then 1 else 0
  {
    assert OpenOf(open[pid := p], q) == if p == q then OpenOf(open, q) + {pid} else OpenOf(open, q);
  }

  lemma OneLess(open: map<nat, nat>, pid: nat, q: nat)
    requires pid in open
    ensures |OpenOf(open - {pid}, q)| == |OpenOf(open, q)| - if open[pid] == q then 1 else 0
  {
    assert OpenOf(open - {pid}, q) == if open[pid] == q then OpenOf(open, q) - {pid} else OpenOf(open, q);
  }

  // ----- wait() always finds a child -----

  function HandFlag(pc: PC): int { if InHand(pc) then 1 else 0 }

  function Hands(pcs: seq<PC>): (r: set<nat>) {
    if pcs == [] then {} else (if InHand(pcs[0]) then {pcs[0].pid} else {}) + Hands(pcs[1..])
  }

  lemma {:induction false} HandsHas(pcs: seq<PC>, p: nat)
    requires p < |pcs| && InHand(pcs[p])
    ensures pcs[p].pid in Hands(pcs)
  {
    if p == 0 {
    } else {
      HandsHas(pcs[1..], p - 1);
    }
  }

  /** Tasks hold no more pids than they have due, and fewer if one holds less than it has due. */
  lemma {:induction false} HandsBound(c: Config, pcs: seq<PC>, dues: seq<int>, p: nat)
    requires |dues| == |pcs| && forall i :: 0 <= i < |pcs| ==> HandFlag(pcs[i]) <= dues[i]
    ensures |Hands(pcs)| <= Sum(dues)
    ensures p < |pcs| && HandFlag(pcs[p]) < dues[p] ==> |Hands(pcs)| < Sum(dues)
  {
    if pcs == [] {
    } else {
      assert HandFlag(pcs[0]) <= dues[0];
      forall i | 0 <= i < |pcs[1..]| ensures HandFlag(pcs[1..][i]) <= dues[1..][i] {
        assert HandFlag(pcs[i + 1]) <= dues[i + 1];
      }
      HandsBound(c, pcs[1..], dues[1..], if p > 0 then p - 1 else |pcs|);
      if p > 0 && p < |pcs| { assert pcs[1..][p - 1] == pcs[p] && dues[1..][p - 1] == dues[p]; }
    }
  }

  /** While a task still has children to reap, there is one that wait() can give it. */
  lemma NeverEchild(c: Config, s: State, p: nat)
    requires Inv(c, s) && p < c.nt && s.pc[p].Reap?
    ensures !Childless(c, s, p)
  {
    assert TaskOk(c, s, p);
    if Childless(c, s, p) {
      if c.threaded { SharedChildLeft(c, s, p); } else { OwnChildLeft(c, s, p); }
      assert false;
    }
  }

  lemma SharedChildLeft(c: Config, s: State, p: nat)
    requires Inv(c, s) && p < c.nt && s.pc[p].Reap? && c.threaded
    ensures exists pid :: pid in s.kids && Eligible(c, s, p, pid)
  {
    if forall pid :: pid in s.kids ==> !Eligible(c, s, p, pid) {
      forall pid | pid in s.open ensures pid in Hands(s.pc) {
        assert Known(c, s, pid) && !Eligible(c, s, p, pid);
        var q :| 0 <= q < |s.pc| && InHand(s.pc[q]) && s.pc[q].pid == pid;
        HandsHas(s.pc, q);
      }
      SubsetSize(s.open.Keys, Hands(s.pc));
      forall i | 0 <= i < |s.pc| ensures HandFlag(s.pc[i]) <= Dues(c, s)[i] { assert TaskOk(c, s, i); }
      assert TaskOk(c, s, p);
      HandsBound(c, s.pc, Dues(c, s), p);
      assert false;
    }
  }

  lemma {:induction false} SubsetSize(a: set<nat>, b: set<nat>)
    requires a <= b
    ensures |a| <= |b|
  {
    if a == {} {
    } else {
      var x :| x in a;
      SubsetSize(a - {x}, b - {x});
    }
  }

  lemma OwnChildLeft(c: Config, s: State, p: nat)
    requires Inv(c, s) && p < c.nt && s.pc[p].Reap? && !c.threaded
    ensures exists pid :: pid in s.kids && Eligible(c, s, p, pid)
  {
    assert TaskOk(c, s, p) && |OpenOf(s.open, p)| == Due(c, s.pc[p]);
    assert OpenOf(s.open, p) != {};
    var pid :| pid in OpenOf(s.open, p);
    assert Known(c, s, pid);
    if pid in s.kids {
      assert Placed(c, s, pid);
      assert Eligible(c, s, p, pid);
    } else {
      var q :| 0 <= q < |s.pc| && InHand(s.pc[q]) && s.pc[q].pid == pid;
      HeldByForker(c, s, q);
      assert false;
    }
  }

  /** In process mode a task holds only children of its own. */
  lemma HeldByForker(c: Config, s: State, q: nat)
    requires Inv(c, s) && q < c.nt && InHand(s.pc[q]) && !c.threaded
    ensures s.pc[q].pid in s.open && s.open[s.pc[q].pid] == q
  {
    assert TaskOk(c, s, q);
    if s.pc[q].Clear? {
      assert CellOk(c, s, s.pc[q].j, s.pc[q].k);
    } else {
      var pid := s.pc[q].pid;
      var a: nat, b: nat :| a < c.nt && b < c.nfork && s.table[a][b] == pid && (c.threaded || a == q);
      assert CellOk(c, s, a, b);
    }
  }

  lemma StepInv(c: Config, s: State, st: Step)
    requires Inv(c, s) && Enabled(c, s, st)
    ensures Inv(c, Next(c, s, st))
  {
    assert TaskOk(c, s, st.p);
    if Heavy(s, st) {
      match st {
        case Fork(p, pid) => ForkInv(c, s, p, pid);
        case Wait(p, pid) => WaitInv(c, s, p, pid);
        case Go(p) => if s.pc[p].Storing? { StoreInv(c, s, p); } else { ClearInv(c, s, p); }
      }
    } else {
      if s.pc[st.p].Reap? { NeverEchild(c, s, st.p); }
      QuietStep(c, s, st);
      QuietTask(c, s, st);
      QuietCheck(c, s, st);
      QuietInv(c, s, Next(c, s, st), st.p);
    }
  }

  // ----- termination -----

  /** Steps to search the table from row j on. */
  function Search(c: Config, j: nat): nat
    decreases c.nt - j
  {
    if j >= c.nt then 0 else c.nfork + 2 + Search(c, j + 1)
  }

  /** Steps left at the end of a search with n children still due. */
  function After(c: Config, n: int): nat {
    if n <= 0 then c.nt + 2 else After(c, n - 1) + Search(c, 0) + 2
  }

  /** How many steps a task can take at most. */
  function StepsLeft(c: Config, pc: PC): int {
    match pc
    case Forking(i) => After(c, c.nfork) + c.nt + 3 + 2 * (c.nfork - i)
    case Storing(i, _) => After(c, c.nfork) + c.nt + 2 + 2 * (c.nfork - i)
    case Collect(i) => After(c, c.nfork) + 1 + if i < c.nt then c.nt - i else 0
    case Announce => After(c, c.nfork) + 2
    case AwaitCheck => After(c, c.nfork) + 1
    case Reap(n) => After(c, n) - 1
    case Scan(n, _, j, k, found) => After(c, if found then n else n - 1) + if j < c.nt then Search(c, j) - k else 0
    case Clear(n, _, j, k) => After(c, n - 1) + Search(c, j) - k - 1
    case Gather(i) => 1 + if i < c.nt then c.nt - i else 0
    case SayDone => 1
    case _ => 0
  }

  function Ranks(c: Config, s: State): (r: seq<int>)
    ensures |r| == |s.pc|
  {
    seq(|s.pc|, p requires 0 <= p < |s.pc| => StepsLeft(c, s.pc[p]))
  }

  lemma RanksNonNegative(c: Config, s: State)
    requires Inv(c, s)
    ensures forall p :: 0 <= p < c.nt ==> Ranks(c, s)[p] >= 0
  {
    forall p | 0 <= p < c.nt ensures Ranks(c, s)[p] >= 0 { assert TaskOk(c, s, p); }
  }

  ghost function Rank(c: Config, s: State): (r: nat)
    requires Inv(c, s)
  {
    RanksNonNegative(c, s);
    SumNonNegative(Ranks(c, s));
    Sum(Ranks(c, s))
  }

  lemma OwnRankDrops(c: Config, s: State, st: Step)
    requires Inv(c, s) && Enabled(c, s, st)
    ensures |Next(c, s, st).pc| == c.nt && StepsLeft(c, Next(c, s, st).pc[st.p]) < StepsLeft(c, s.pc[st.p])
  {
    assert TaskOk(c, s, st.p);
    OnlyActor(c, s, st);
    if s.pc[st.p].Scan? {
      SearchDrops(c, s, st.p);
    } else {
      if s.pc[st.p].Reap? && st.Go? { NeverEchild(c, s, st.p); }
      if Heavy(s, st) { HeavyDrops(c, s, st); } else { QuietDrops(c, s, st); }
    }
  }

  lemma SearchDrops(c: Config, s: State, p: nat)
    requires Enabled(c, s, Go(p)) && s.pc[p].Scan? && TaskOk(c, s, p)
    ensures |Next(c, s, Go(p)).pc| == c.nt && StepsLeft(c, Next(c, s, Go(p)).pc[p]) < StepsLeft(c, s.pc[p])
  {
  }

  lemma HeavyDrops(c: Config, s: State, st: Step)
    requires Enabled(c, s, st) && Heavy(s, st) && TaskOk(c, s, st.p)
    ensures |Next(c, s, st).pc| == c.nt && StepsLeft(c, Next(c, s, st).pc[st.p]) < StepsLeft(c, s.pc[st.p])
  {
    match st
    case Fork(_, _) =>
    case Wait(_, _) => assert After(c, s.pc[st.p].n) == After(c, s.pc[st.p].n - 1) + Search(c, 0) + 2;
    case Go(_) =>
      if s.pc[st.p].Clear? { assert Search(c, s.pc[st.p].j) == c.nfork + 2 + Search(c, s.pc[st.p].j + 1); }
  }

  lemma QuietDrops(c: Config, s: State, st: Step)
    requires Enabled(c, s, st) && !Heavy(s, st) && TaskOk(c, s, st.p) && !s.pc[st.p].Reap? && !s.pc[st.p].Scan?
    ensures |Next(c, s, st).pc| == c.nt && StepsLeft(c, Next(c, s, st).pc[st.p]) < StepsLeft(c, s.pc[st.p])
  {
  }

  lemma RankDrops(c: Config, s: State, st: Step)
    requires Inv(c, s) && Enabled(c, s, st)
    ensures Inv(c, Next(c, s, st)) && Rank(c, Next(c, s, st)) < Rank(c, s)
  {
    StepInv(c, s, st);
    OnlyActor(c, s, st);
    OwnRankDrops(c, s, st);
    RanksDrop(c, s, Next(c, s, st), st.p);
  }

  lemma RanksDrop(c: Config, s: State, t: State, p: nat)
    requires p < |s.pc| == |t.pc| && t.pc == s.pc[p := t.pc[p]] && StepsLeft(c, t.pc[p]) < StepsLeft(c, s.pc[p])
    ensures Sum(Ranks(c, t)) < Sum(Ranks(c, s))
  {
    assert Ranks(c, t) == Ranks(c, s)[p := Ranks(c, t)[p]];
    SumDrops(Ranks(c, s), Ranks(c, t), p);
  }

  // ----- what the program promises -----

  lemma {:induction false} RunInv(c: Config, s: State, sts: seq<Step>)
    requires Inv(c, s) && Legal(c, s, sts)
    ensures Inv(c, Run(c, s, sts)) && |sts| <= Rank(c, s)
    decreases |sts|
  {
    if sts == [] {
    } else {
      RankDrops(c, s, sts[0]);
      RunInv(c, Next(c, s, sts[0]), sts[1..]);
    }
  }

  /** How often in a run wait() returns to task p, and how often p crosses out an entry. */
  function Waits(sts: seq<Step>, p: nat): nat {
    if sts == [] then 0 else (if sts[0].Wait? && sts[0].p == p then 1 else 0) + Waits(sts[1..], p)
  }

  function Crossings(c: Config, s: State, sts: seq<Step>, p: nat): nat
    requires Legal(c, s, sts)
    decreases |sts|
  {
    if sts == [] then 0
    else (if sts[0] == Go(p) && s.pc[p].Clear? then 1 else 0) + Crossings(c, Next(c, s, sts[0]), sts[1..], p)
  }

  lemma StepCounts(c: Config, s: State, st: Step, p: nat)
    requires Inv(c, s) && Enabled(c, s, st) && p < c.nt
    ensures var t := Next(c, s, st);
      && |t.pc| == c.nt
      && Reaped(c, t.pc[p]) - Reaped(c, s.pc[p]) == (if st == Go(p) && s.pc[p].Clear? then 1 else 0)
      && HandFlag(t.pc[p]) - HandFlag(s.pc[p])
         == (if st.Wait? && st.p == p then 1 else 0) - (if st == Go(p) && s.pc[p].Clear? then 1 else 0)
  {
    OnlyActor(c, s, st);
    if st.p == p {
      assert TaskOk(c, s, p);
      if Heavy(s, st) {
        HeavyCounts(c, s, st);
      } else {
        if s.pc[p].Reap? { NeverEchild(c, s, p); }
        QuietStep(c, s, st);
      }
    }
  }

  lemma HeavyCounts(c: Config, s: State, st: Step)
    requires Enabled(c, s, st) && Heavy(s, st) && TaskOk(c, s, st.p)
    ensures var t, p := Next(c, s, st), st.p;
      && |t.pc| == c.nt
      && Reaped(c, t.pc[p]) - Reaped(c, s.pc[p]) == (if s.pc[p].Clear? then 1 else 0)
      && HandFlag(t.pc[p]) - HandFlag(s.pc[p]) == (if st.Wait? then 1 else 0) - (if s.pc[p].Clear? then 1 else 0)
  {
  }

  lemma OnlyActor(c: Config, s: State, st: Step)
    requires Enabled(c, s, st)
    ensures var t := Next(c, s, st); |t.pc| == |s.pc| && t.pc == s.pc[st.p := t.pc[st.p]]
  {
  }

  /** The countdown `n` is exact: each wait() that returns to a task is followed by exactly one
      crossing out, before that task waits again. */
  lemma {:induction false} RunCounts(c: Config, s: State, sts: seq<Step>, p: nat)
    requires Inv(c, s) && Legal(c, s, sts) && p < c.nt
    ensures var t := Run(c, s, sts);
      && |t.pc| == c.nt
      && Crossings(c, s, sts, p) == Reaped(c, t.pc[p]) - Reaped(c, s.pc[p])
      && Waits(sts, p) == Crossings(c, s, sts, p) + HandFlag(t.pc[p]) - HandFlag(s.pc[p])
    decreases |sts|
  {
    if sts == [] {
    } else {
      StepInv(c, s, sts[0]);
      StepCounts(c, s, sts[0], p);
      RunCounts(c, Next(c, s, sts[0]), sts[1..], p);
    }
  }

  /** When a wait() returns anything, every task has recorded all its children. */
  lemma WaitsComeLast(c: Config, s: State, p: nat, pid: nat)
    requires Inv(c, s) && Enabled(c, s, Wait(p, pid))
    ensures forall q :: 0 <= q < c.nt ==> PastFork(s.pc[q])
    ensures exists a: nat, i: nat :: a < c.nt && i < c.nfork && s.table[a][i] == pid
  {
    forall q | 0 <= q < c.nt ensures PastFork(s.pc[q]) { AllForked(c, s, p, q); }
    assert Placed(c, s, pid);
    AllForked(c, s, p, s.kids[pid]);
  }

  /** The three ways to be held up by another task. */
  predicate Waiting(c: Config, s: State, p: nat)
    requires Shaped(c, s) && p < c.nt
  {
    match s.pc[p]
    case Collect(i) => i < c.nt && !s.forked[i]
    case AwaitCheck => !s.check
    case Gather(i) => i < c.nt && !s.finished[i]
    case _ => false
  }

  lemma HeldUp(c: Config, s: State, p: nat, pid: nat)
    requires Inv(c, s) && p < c.nt && pid > 0 && pid !in s.kids && forall st :: !Enabled(c, s, st)
    ensures s.pc[p].Returned? || Waiting(c, s, p)
  {
    assert TaskOk(c, s, p) && !Enabled(c, s, Go(p)) && !Enabled(c, s, Fork(p, pid));
    if s.pc[p].Reap? { var st := ReaperMoves(c, s, p); }
  }

  lemma ReaperMoves(c: Config, s: State, p: nat) returns (st: Step)
    requires Inv(c, s) && p < c.nt && s.pc[p].Reap?
    ensures Enabled(c, s, st)
  {
    NeverEchild(c, s, p);
    var kid :| kid in s.kids && Eligible(c, s, p, kid);
    st := Wait(p, kid);
  }

  /** If everybody is held up or has returned, task 0 has let the others go. */
  lemma CheckIsSet(c: Config, s: State)
    requires Inv(c, s) && forall p :: 0 <= p < c.nt ==> s.pc[p].Returned? || Waiting(c, s, p)
    ensures s.check
  {
    assert TaskOk(c, s, 0);
    if s.pc[0].Collect? && s.pc[0].i < c.nt { HasForked(c, s, s.pc[0].i); }
  }

  lemma HasForked(c: Config, s: State, p: nat)
    requires Inv(c, s) && 1 <= p < c.nt && (s.pc[p].Returned? || Waiting(c, s, p))
    ensures s.forked[p]
  {
    assert TaskOk(c, s, p);
  }

  lemma HasFinished(c: Config, s: State, p: nat)
    requires Inv(c, s) && 1 <= p < c.nt && s.pc[p].Returned?
    ensures s.finished[p]
  {
    assert TaskOk(c, s, p);
  }

  lemma NobodyWaits(c: Config, s: State, p: nat)
    requires Inv(c, s) && s.check && p < c.nt
    requires p == 0 ==> forall q :: 1 <= q < c.nt ==> s.pc[q].Returned?
    ensures !Waiting(c, s, p)
  {
    assert TaskOk(c, s, p);
    if s.pc[p].Gather? && s.pc[p].i < c.nt { HasFinished(c, s, s.pc[p].i); }
  }

  /** Whatever has happened, some task can take a step unless all have returned. */
  lemma NeverStuck(c: Config, s: State)
    requires Inv(c, s) && forall st :: !Enabled(c, s, st)
    ensures forall p :: 0 <= p < c.nt ==> s.pc[p].Returned?
  {
    var pid := NotInUse(s.kids.Keys);
    forall p | 0 <= p < c.nt ensures s.pc[p].Returned? || Waiting(c, s, p) { HeldUp(c, s, p, pid); }
    CheckIsSet(c, s);
    forall p | 1 <= p < c.nt ensures s.pc[p].Returned? { NobodyWaits(c, s, p); }
    NobodyWaits(c, s, 0);
  }

  /** The main result: for every number of tasks and children, in both modes and in every
      interleaving, runs are finite and no wait() fails with ECHILD. When nothing more can happen
      all tasks have returned, each has waited for and crossed out exactly nfork children, no
      child is left, and the table is empty. */
  lemma EveryRun(c: Config, s: State, sts: seq<Step>)
    requires Initial(c, s) && Legal(c, s, sts)
    ensures Inv(c, s) && |sts| <= Rank(c, s)
    ensures var t := Run(c, s, sts); Shaped(c, t) && forall p :: 0 <= p < c.nt ==> !t.pc[p].NoChild?
    ensures var t := Run(c, s, sts);
      (forall st :: !Enabled(c, t, st)) ==> forall p :: 0 <= p < c.nt ==> t.pc[p].Returned?
    ensures var t := Run(c, s, sts);
      (forall p :: 0 <= p < c.nt ==> t.pc[p].Returned?) ==>
        && (forall p :: 0 <= p < c.nt ==> Waits(sts, p) == Crossings(c, s, sts, p) == c.nfork)
        && t.kids == map[]
        && (forall a, i :: 0 <= a < c.nt && 0 <= i < c.nfork ==> t.table[a][i] == 0)
  {
    InitialInv(c, s);
    RunInv(c, s, sts);
    var t := Run(c, s, sts);
    forall p | 0 <= p < c.nt
      ensures !t.pc[p].NoChild? && (t.pc[p].Returned? ==> Waits(sts, p) == Crossings(c, s, sts, p) == c.nfork)
    {
      assert TaskOk(c, t, p);
      RunCounts(c, s, sts, p);
    }
    if forall st :: !Enabled(c, t, st) { NeverStuck(c, t); }
    if forall p :: 0 <= p < c.nt ==> t.pc[p].Returned? { AllReaped(c, t); }
  }

  lemma AllReaped(c: Config, t: State)
    requires Inv(c, t) && forall p :: 0 <= p < c.nt ==> t.pc[p].Returned?
    ensures t.kids == map[] && forall a, i :: 0 <= a < c.nt && 0 <= i < c.nfork ==> t.table[a][i] == 0
  {
    NothingOpen(c, t);
    KidsAreOpen(c, t);
    assert t.kids.Keys == {};
    forall a, i | 0 <= a < c.nt && 0 <= i < c.nfork ensures t.table[a][i] == 0 { assert CellOk(c, t, a, i); }
  }

  lemma NothingOpen(c: Config, t: State)
    requires Inv(c, t) && forall p :: 0 <= p < c.nt ==> t.pc[p].Returned?
    ensures t.open.Keys == {}
  {
    SumSame(Dues(c, t), 0);
    if !c.threaded {
      forall pid | pid in t.open ensures pid in OpenOf(t.open, t.open[pid]) && t.open[pid] < c.nt {
        assert Known(c, t, pid) && Placed(c, t, pid);
      }
      assert forall p :: 0 <= p < c.nt ==> OpenOf(t.open, p) == {};
    }
  }

  lemma KidsAreOpen(c: Config, s: State)
    requires Inv(c, s)
    ensures s.kids.Keys <= s.open.Keys
  {
    forall pid | pid in s.kids ensures pid in s.open { assert Placed(c, s, pid); }
  }
}
