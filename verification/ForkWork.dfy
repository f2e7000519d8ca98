/**
 The steps of compat/fork.c one by one: which children a task forks and records, which rows of the
 table a search goes over, and who returns last.
 */
module ForkWork {
  import opened ForkReap
  import opened Sequences

  // ----- task 0 is last -----

  /** Task 0 has heard from the tasks below i, each of which had nothing else to do. */
  ghost predicate Heard(c: Config, s: State) {
    && Shaped(c, s) && (forall q :: 1 <= q < c.nt && s.finished[q] ==> s.pc[q].Returned?)
    && match s.pc[0]
       case Gather(i) => forall q :: 1 <= q < i && q < c.nt ==> s.finished[q]
       case Returned => forall q :: 1 <= q < c.nt ==> s.finished[q]
       case _ => true
  }

  lemma HeardStep(c: Config, s: State, st: Step)
    requires Inv(c, s) && Heard(c, s) && Enabled(c, s, st)
    ensures Heard(c, Next(c, s, st))
  {
    assert TaskOk(c, s, st.p);
    StaysShaped(c, s, st);
    OnlyActor(c, s, st);
    FinishedStep(c, s, st);
    if st.p == 0 { ZeroStep(c, s, st); }
  }

  lemma FinishedStep(c: Config, s: State, st: Step)
    requires Enabled(c, s, st)
    ensures var t, p := Next(c, s, st), st.p;
      && |t.pc| == |s.pc| && t.finished == s.finished[p := t.finished[p]] && !s.pc[p].Returned?
      && (s.finished[p] ==> t.finished[p]) && (t.finished[p] && !s.finished[p] ==> t.pc[p].Returned?)
  {
    assert s.finished == s.finished[st.p := s.finished[st.p]];
  }

  lemma ZeroStep(c: Config, s: State, st: Step)
    requires Enabled(c, s, st) && st.p == 0 && TaskOk(c, s, 0)
    ensures var t := Next(c, s, st);
      && |t.pc| == |s.pc|
      && (t.pc[0].Gather? ==> t.pc[0].i == 1 || (s.pc[0] == Gather(t.pc[0].i - 1) && s.finished[s.pc[0].i]))
      && (t.pc[0].Returned? ==> s.pc[0].Gather? && s.pc[0].i >= c.nt)
  {
    if s.pc[0].Scan? { ZeroScans(c, s); }
  }

  lemma ZeroScans(c: Config, s: State)
    requires Enabled(c, s, Go(0)) && s.pc[0].Scan?
    ensures var t := Next(c, s, Go(0));
      |t.pc| == |s.pc| && !t.pc[0].Returned? && (t.pc[0].Gather? ==> t.pc[0].i == 1)
  {
  }

  lemma {:induction false} HeardRun(c: Config, s: State, sts: seq<Step>)
    requires Inv(c, s) && Heard(c, s) && Legal(c, s, sts)
    ensures Heard(c, Run(c, s, sts))
    decreases |sts|
  {
    if sts == [] {
    } else {
      StepInv(c, s, sts[0]);
      HeardStep(c, s, sts[0]);
      HeardRun(c, Next(c, s, sts[0]), sts[1..]);
    }
  }

  /** When task 0 returns, all others have. */
  lemma TaskZeroIsLast(c: Config, s: State, sts: seq<Step>)
    requires Initial(c, s) && Legal(c, s, sts)
    ensures var t := Run(c, s, sts);
      Shaped(c, t) && (t.pc[0].Returned? ==> forall q :: 0 <= q < c.nt ==> t.pc[q].Returned?)
  {
    InitialInv(c, s);
    HeardRun(c, s, sts);
  }

  // ----- children are recorded one by one -----

  function NewPid(st: Step, p: nat): seq<nat> { if st.Fork? && st.p == p then [st.pid] else [] }

  function NewStore(s: State, st: Step, p: nat): seq<PC>
    requires p < |s.pc|
  {
    if st == Go(p) && s.pc[p].Storing? then [s.pc[p]] else []
  }

  /** The pids that task p gets from fork() in a run, and the stores it makes of them. */
  function Forked(sts: seq<Step>, p: nat): seq<nat> {
    if sts == [] then [] else NewPid(sts[0], p) + Forked(sts[1..], p)
  }

  function Stored(c: Config, s: State, sts: seq<Step>, p: nat): seq<PC>
    requires Legal(c, s, sts) && Shaped(c, s) && p < c.nt
    decreases |sts|
  {
    if sts == [] then []
    else
      StaysShaped(c, s, sts[0]);
      NewStore(s, sts[0], p) + Stored(c, Next(c, s, sts[0]), sts[1..], p)
  }

  ghost predicate Recorded(c: Config, s: State, p: nat, f: seq<nat>, w: seq<PC>)
    requires p < |s.pc|
  {
    && |w| <= |f| && (forall i :: 0 <= i < |w| ==> w[i] == Storing(i, f[i]))
    && match s.pc[p]
       case Forking(i) => |f| == |w| == i <= c.nfork
       case Storing(i, pid) => |f| == i + 1 && |w| == i < c.nfork && f[i] == pid
       case _ => |f| == |w| == c.nfork
  }

  lemma RecordedStep(c: Config, s: State, st: Step, p: nat, f: seq<nat>, w: seq<PC>)
    requires Enabled(c, s, st) && p < c.nt && Recorded(c, s, p, f, w)
    ensures |Next(c, s, st).pc| == |s.pc|
    ensures Recorded(c, Next(c, s, st), p, f + NewPid(st, p), w + NewStore(s, st, p))
  {
    OnlyActor(c, s, st);
    NothingMore(f);
    NothingMore(w);
    if st.p == p && !PastFork(s.pc[p]) { OwnRecord(c, s, st, f, w); }
  }

  lemma OwnRecord(c: Config, s: State, st: Step, f: seq<nat>, w: seq<PC>)
    requires Enabled(c, s, st) && Recorded(c, s, st.p, f, w) && !PastFork(s.pc[st.p])
    ensures st.p < |Next(c, s, st).pc|
    ensures Recorded(c, Next(c, s, st), st.p, f + NewPid(st, st.p), w + NewStore(s, st, st.p))
  {
    NothingMore(f);
    NothingMore(w);
    if s.pc[st.p].Storing? {
      var v := w + [s.pc[st.p]];
      assert forall i :: 0 <= i < |v| ==> v[i] == Storing(i, f[i]);
    }
  }

  lemma {:induction false} RecordedRun(c: Config, s: State, sts: seq<Step>, p: nat, f: seq<nat>, w: seq<PC>)
    requires Legal(c, s, sts) && Shaped(c, s) && p < c.nt && Recorded(c, s, p, f, w)
    ensures p < |Run(c, s, sts).pc| && Recorded(c, Run(c, s, sts), p, f + Forked(sts, p), w + Stored(c, s, sts, p))
    decreases |sts|
  {
    if sts == [] {
      NothingMore(f);
      NothingMore(w);
    } else {
      var st, t := sts[0], Next(c, s, sts[0]);
      StaysShaped(c, s, st);
      RecordedStep(c, s, st, p, f, w);
      RecordedRun(c, t, sts[1..], p, f + NewPid(st, p), w + NewStore(s, st, p));
      Associates(f, NewPid(st, p), Forked(sts[1..], p));
      Associates(w, NewStore(s, st, p), Stored(c, t, sts[1..], p));
    }
  }

  lemma StaysShaped(c: Config, s: State, st: Step)
    requires Enabled(c, s, st)
    ensures Shaped(c, Next(c, s, st))
  {
  }

  /** A task forks nfork children and no more, and puts the i-th one at place i of its row. */
  lemma ForksAndRecords(c: Config, s: State, sts: seq<Step>, p: nat)
    requires Initial(c, s) && Legal(c, s, sts) && p < c.nt
    ensures var f, w := Forked(sts, p), Stored(c, s, sts, p);
      |w| <= |f| <= c.nfork && forall i :: 0 <= i < |w| ==> w[i] == Storing(i, f[i])
    ensures var t := Run(c, s, sts);
      p < |t.pc| && (PastFork(t.pc[p]) ==> |Stored(c, s, sts, p)| == c.nfork)
  {
    RecordedRun(c, s, sts, p, [], []);
    NothingMore(Forked(sts, p));
    NothingMore(Stored(c, s, sts, p));
  }

  // ----- a search goes over all rows -----

  function RowDone(s: State, t: State, p: nat): nat
    requires p < |s.pc| && p < |t.pc|
  {
    if (s.pc[p].Scan? || s.pc[p].Clear?) && t.pc[p].Scan? && t.pc[p].j != s.pc[p].j then 1 else 0
  }

  /** How often task p is through with a row of the table. */
  function Rows(c: Config, s: State, sts: seq<Step>, p: nat): nat
    requires Legal(c, s, sts) && Shaped(c, s) && p < c.nt
    decreases |sts|
  {
    if sts == [] then 0
    else
      StaysShaped(c, s, sts[0]);
      RowDone(s, Next(c, s, sts[0]), p) + Rows(c, Next(c, s, sts[0]), sts[1..], p)
  }

  function Product(n: nat, k: nat): nat { if k == 0 then 0 else Product(n, k - 1) + n }

  lemma {:induction false} ProductIs(n: nat, k: nat)
    ensures Product(n, k) == k * n
  {
    if k == 0 {
    } else {
      ProductIs(n, k - 1);
      assert k * n == (k - 1) * n + n;
    }
  }

  predicate Searching(pc: PC) { pc.Scan? || pc.Clear? }

  /** In process mode entries are compared in the task's own row only. */
  predicate RowOk(c: Config, p: nat, pc: PC) {
    && (pc.Scan? ==> pc.j <= c.nt && (pc.k > 0 ==> c.threaded || pc.j == p))
    && (pc.Clear? ==> pc.j < c.nt && (c.threaded || pc.j == p))
  }

  /** After `waits` returns from wait() a task at `pc` is through with that many rows. */
  function RowsDue(c: Config, pc: PC, waits: nat): nat {
    if !Searching(pc) then Product(c.nt, waits) else if waits == 0 then 0 else Product(c.nt, waits - 1) + pc.j
  }

  ghost predicate Searched(c: Config, p: nat, pc: PC, waits: nat, rows: nat) {
    RowOk(c, p, pc) && (Searching(pc) ==> waits > 0) && rows == RowsDue(c, pc, waits)
  }

  function NewWait(st: Step, p: nat): nat { if st.Wait? && st.p == p then 1 else 0 }

  lemma SearchedStep(c: Config, s: State, st: Step, p: nat, waits: nat, rows: nat)
    requires Enabled(c, s, st) && p < c.nt && Searched(c, p, s.pc[p], waits, rows) && Shaped(c, Next(c, s, st))
    ensures Searched(c, p, Next(c, s, st).pc[p], waits + NewWait(st, p), rows + RowDone(s, Next(c, s, st), p))
  {
    OnlyActor(c, s, st);
    if st.p == p {
      if s.pc[p].Scan? || s.pc[p].Clear? {
        SearchGoesOn(c, s, p, waits, rows);
      } else {
        NoSearch(c, s, st, waits, rows);
      }
    }
  }

  lemma SearchGoesOn(c: Config, s: State, p: nat, waits: nat, rows: nat)
    requires Enabled(c, s, Go(p)) && (s.pc[p].Scan? || s.pc[p].Clear?) && Searched(c, p, s.pc[p], waits, rows)
    requires Shaped(c, Next(c, s, Go(p)))
    ensures Searched(c, p, Next(c, s, Go(p)).pc[p], waits, rows + RowDone(s, Next(c, s, Go(p)), p))
  {
    assert Product(c.nt, waits) == Product(c.nt, waits - 1) + c.nt;
  }

  lemma NoSearch(c: Config, s: State, st: Step, waits: nat, rows: nat)
    requires Enabled(c, s, st) && !s.pc[st.p].Scan? && !s.pc[st.p].Clear? && Searched(c, st.p, s.pc[st.p], waits, rows)
    requires Shaped(c, Next(c, s, st))
    ensures var t := Next(c, s, st);
      Searched(c, st.p, t.pc[st.p], waits + NewWait(st, st.p), rows + RowDone(s, t, st.p))
  {
  }

  lemma FirstStep(c: Config, s: State, sts: seq<Step>, p: nat)
    requires sts != [] && Legal(c, s, sts) && Shaped(c, s) && Shaped(c, Next(c, s, sts[0])) && p < c.nt
    ensures Waits(sts, p) == NewWait(sts[0], p) + Waits(sts[1..], p)
    ensures var t := Next(c, s, sts[0]);
      && Rows(c, s, sts, p) == RowDone(s, t, p) + Rows(c, t, sts[1..], p) && Run(c, s, sts) == Run(c, t, sts[1..])
  {
  }

  lemma {:induction false} SearchedRun(c: Config, s: State, sts: seq<Step>, p: nat, waits: nat, rows: nat)
    requires Legal(c, s, sts) && Shaped(c, s) && p < c.nt && Searched(c, p, s.pc[p], waits, rows)
    ensures p < |Run(c, s, sts).pc|
    ensures Searched(c, p, Run(c, s, sts).pc[p], waits + Waits(sts, p), rows + Rows(c, s, sts, p))
    decreases |sts|
  {
    if sts == [] {
    } else {
      var t, rest := Next(c, s, sts[0]), sts[1..];
      StaysShaped(c, s, sts[0]);
      SearchedStep(c, s, sts[0], p, waits, rows);
      var w, r := waits + NewWait(sts[0], p), rows + RowDone(s, t, p);
      SearchedRun(c, t, rest, p, w, r);
      FirstStep(c, s, sts, p);
      assert waits + Waits(sts, p) == w + Waits(rest, p) && rows + Rows(c, s, sts, p) == r + Rows(c, t, rest, p);
    }
  }

  /** Every search goes over all rows to the end, also behind the pid it looks for, but looks into the
      others' rows only in thread mode. */
  lemma SearchesAllRows(c: Config, s: State, sts: seq<Step>, p: nat)
    requires Initial(c, s) && Legal(c, s, sts) && p < c.nt
    ensures var t := Run(c, s, sts);
      && p < |t.pc|
      && (t.pc[p].Reap? || t.pc[p].Gather? || t.pc[p].SayDone? || t.pc[p].Returned? ==>
            Rows(c, s, sts, p) == Waits(sts, p) * c.nt)
      && (t.pc[p].Scan? && t.pc[p].k > 0 ==> c.threaded || t.pc[p].j == p)
  {
    SearchedRun(c, s, sts, p, 0, 0);
    ProductIs(c.nt, Waits(sts, p));
  }

  /** A task that has no child to wait for would notice. */
  lemma ChildlessIsNoticed(c: Config, s: State, p: nat)
    requires Shaped(c, s) && p < c.nt && s.pc[p].Reap?
    requires forall pid :: pid in s.kids ==> !c.threaded && s.kids[pid] != p
    ensures Enabled(c, s, Go(p)) && Next(c, s, Go(p)).pc == s.pc[p := NoChild]
  {
  }
}
