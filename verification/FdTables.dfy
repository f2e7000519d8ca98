/**
 The setup of basics/hook_and_coe.c: the root opens ntasks+1 pipes, marks its own two ends
 close-on-exec, and spawns the tasks one after the other; every task inherits a copy of the
 root's descriptor table, its `bhook` moves two pipe ends to 0 and 1, and the descriptors
 marked close-on-exec are gone when its main starts.
 */
module FdTables {

  /** What a descriptor refers to. */
  datatype End = ReadEnd(pipe: nat) | WriteEnd(pipe: nat) | Terminal

  /** Descriptor numbers: 0, 1, 2, and the two numbers that pipe() returned for pipes[i]. */
  datatype Fd = Std(n: nat) | R(i: nat) | W(i: nat)

  datatype Slot = Slot(end: End, coe: bool)

  type Table = map<Fd, Slot>

  // ----- system calls -----

  function Pipe(t: Table, i: nat): Table {
    t[R(i) := Slot(ReadEnd(i), false)][W(i) := Slot(WriteEnd(i), false)]
  }

  function SetCoe(t: Table, fd: Fd): Table {
    if fd in t then t[fd := t[fd].(coe := true)] else t
  }

  function Dup2(t: Table, from: Fd, to: Fd): Table
    requires from in t
  {
    if from == to then t else t[to := Slot(t[from].end, false)]
  }

  function Close(t: Table, fd: Fd): Table {
    map f | f in t && f != fd :: t[f]
  }

  function Exec(t: Table): Table {
    map f | f in t && !t[f].coe :: t[f]
  }

  /** bhook( {r, w} ), run in the new task on its copy of the table. */
  function Bhook(t: Table, r: Fd, w: Fd): Table
    requires r in t && w in t && w != Std(0) && w != r
  {
    var t1 := if r != Std(0) then Close(Dup2(t, r, Std(0)), r) else t;
    if w != Std(1) then Close(Dup2(t1, w, Std(1)), w) else t1
  }

  predicate HoldsWrite(t: Table, pipe: nat) {
    exists fd :: fd in t && t[fd].end == WriteEnd(pipe)
  }

  predicate HoldsRead(t: Table, pipe: nat) {
    exists fd :: fd in t && t[fd].end == ReadEnd(pipe)
  }

  // ----- the tables that the setup is meant to produce -----

  /** Root's table once it has opened the pipes and spawned k of n tasks. */
  ghost predicate IsRootTable(n: nat, k: nat, t: Table) {
    forall fd: Fd :: match fd
      case Std(m) => (fd in t <==> m < 3) && (fd in t ==> t[fd] == Slot(Terminal, false))
      case R(j) => (fd in t <==> k <= j <= n) && (fd in t ==> t[fd] == Slot(ReadEnd(j), j == n))
      case W(j) => (fd in t <==> j == 0 || k < j <= n) && (fd in t ==> t[fd] == Slot(WriteEnd(j), j == 0))
  }

  /** Task k of n when its main starts: pipe k on 0, pipe k+1 on 1, and whatever the root still
      had open for the tasks behind it. */
  ghost predicate IsTaskTable(n: nat, k: nat, t: Table) {
    forall fd: Fd :: match fd
      case Std(m) =>
        (fd in t <==> m < 3)
        && (fd in t ==>
              t[fd] == Slot(if m == 0 then ReadEnd(k) else if m == 1 then WriteEnd(k + 1) else Terminal, false))
      case R(j) => (fd in t <==> k < j < n) && (fd in t ==> t[fd] == Slot(ReadEnd(j), false))
      case W(j) => (fd in t <==> k + 1 < j <= n) && (fd in t ==> t[fd] == Slot(WriteEnd(j), false))
  }

  /** What root is started with. */
  const INHERITED: Table :=
    map[Std(0) := Slot(Terminal, false), Std(1) := Slot(Terminal, false), Std(2) := Slot(Terminal, false)]

  class Launcher {
    var table: Table
    var tasks: seq<Table>

    constructor ()
      ensures table == INHERITED
      ensures tasks == []
    {
      table := INHERITED;
      tasks := [];
    }

    /** pip_spawn with the before-hook and { r, w } as its argument. */
    method Spawn(r: Fd, w: Fd)
      requires r in table && w in table && w != Std(0) && w != r
      modifies this
      ensures table == old(table) && tasks == old(tasks) + [Exec(Bhook(old(table), r, w))]
    {
      tasks := tasks + [Exec(Bhook(table, r, w))];
    }

    /** Spawns task k and closes the root's copies of the ends handed to it. */
    method SpawnNext(n: nat, k: nat)
      requires k < n && |tasks| == k && IsRootTable(n, k, table)
      requires forall i :: 0 <= i < k ==> IsTaskTable(n, i, tasks[i])
      modifies this
      ensures |tasks| == k + 1 && IsRootTable(n, k + 1, table)
      ensures forall i :: 0 <= i < k + 1 ==> IsTaskTable(n, i, tasks[i])
    {
      SpawnedTable(n, k, table);
      Spawn(R(k), W(k + 1));
      table := Close(table, R(k));
      table := Close(table, W(k + 1));
    }

    /** pipe() for every stage, and the close-on-exec marks on the root's two ends. */
    method OpenPipes(n: nat)
      requires n > 0
      requires table == INHERITED
      modifies this`table
      ensures IsRootTable(n, 0, table)
    {
      table := SetCoe(Pipe(table, 0), W(0));
      for i := 1 to n
        invariant IsOpening(i, table)
      {
        table := Pipe(table, i);
      }
      table := SetCoe(Pipe(table, n), R(n));
    }

    method Setup(n: nat)
      requires n > 0 && tasks == []
      requires table == INHERITED
      modifies this
      ensures |tasks| == n && IsRootTable(n, n, table)
      ensures forall k :: 0 <= k < n ==> IsTaskTable(n, k, tasks[k])
    {
      OpenPipes(n);
      SpawnNext(n, 0);
      var i := 1;
      while i < n - 1
        invariant 1 <= i <= n && (i < n || n == 1)
        invariant |tasks| == i && IsRootTable(n, i, table)
        invariant forall k :: 0 <= k < i ==> IsTaskTable(n, k, tasks[k])
      {
        SpawnNext(n, i);
        i := i + 1;
      }
      if n > 1 {
        SpawnNext(n, n - 1);
      }
    }
  }

  /** Root's table with the first m pipes open. */
  ghost predicate IsOpening(m: nat, t: Table) {
    forall fd: Fd :: match fd
      case Std(s) => (fd in t <==> s < 3) && (fd in t ==> t[fd] == Slot(Terminal, false))
      case R(j) => (fd in t <==> j < m) && (fd in t ==> t[fd] == Slot(ReadEnd(j), false))
      case W(j) => (fd in t <==> j < m) && (fd in t ==> t[fd] == Slot(WriteEnd(j), j == 0))
  }

  lemma SpawnedTable(n: nat, k: nat, t: Table)
    requires k < n && IsRootTable(n, k, t)
    ensures R(k) in t && W(k + 1) in t
    ensures IsTaskTable(n, k, Exec(Bhook(t, R(k), W(k + 1))))
  {
  }

  /** Whatever two ends a task is handed, even ones marked close-on-exec, its main finds them on 0
      and 1. */
  lemma HandedEndsSurvive(t: Table, r: Fd, w: Fd)
    requires r in t && w in t && w != Std(0) && w != r && r != Std(0) && w != Std(1)
    ensures var u := Exec(Bhook(t, r, w));
      && Std(0) in u && u[Std(0)].end == t[r].end && Std(1) in u && u[Std(1)].end == t[w].end
      && (r != Std(1) ==> r !in u) && w !in u
  {
  }

  /** It makes no difference whether the close-on-exec descriptors go before the hook runs or
      after it: the hook touches none of them and marks none. */
  lemma HookAndExecCommute(n: nat, k: nat, t: Table)
    requires k < n && IsRootTable(n, k, t)
    ensures R(k) in Exec(t) && W(k + 1) in Exec(t)
    ensures Bhook(Exec(t), R(k), W(k + 1)) == Exec(Bhook(t, R(k), W(k + 1)))
  {
  }

  /** Who can keep a reader of pipe j from seeing its end: for pipe 0 the root alone, for
      pipe j exactly the tasks 0..j-1. */
  lemma TaskEnds(n: nat, k: nat, t: Table, j: nat)
    requires k < n && IsTaskTable(n, k, t)
    ensures HoldsWrite(t, j) <==> k < j <= n
    ensures HoldsRead(t, j) <==> k <= j < n
  {
    assert Std(0) in t && Std(1) in t;
    if k + 1 < j <= n { assert W(j) in t; }
    if k < j < n { assert R(j) in t; }
  }

  lemma RootEnds(n: nat, t: Table, j: nat)
    requires n > 0 && IsRootTable(n, n, t)
    ensures HoldsWrite(t, j) <==> j == 0
    ensures HoldsRead(t, j) <==> j == n
  {
    assert W(0) in t && R(n) in t;
  }

  /** Without close-on-exec the hooks would not be enough: task 0 would keep the write end of
      its own input open and never see an end of file. */
  lemma WithoutCoe(n: nat, t: Table)
    requires n > 0 && IsRootTable(n, 0, t)
    ensures R(0) in t && W(1) in t && HoldsWrite(Bhook(t, R(0), W(1)), 0)
  {
    assert W(0) in Bhook(t, R(0), W(1));
  }

  // ----- the tables while the program runs and shuts down -----

  /** Root's table with fd_out and fd_in still open or already closed. */
  ghost predicate RootHolds(n: nat, t: Table, out: bool, inn: bool) {
    forall fd: Fd :: match fd
      case Std(m) => fd in t ==> t[fd].end == Terminal
      case R(j) => (fd in t <==> inn && j == n) && (fd in t ==> t[fd].end == ReadEnd(j))
      case W(j) => (fd in t <==> out && j == 0) && (fd in t ==> t[fd].end == WriteEnd(j))
  }

  /** Task k's table with descriptors 0 and 1 still open or already closed. */
  ghost predicate TaskHolds(n: nat, k: nat, t: Table, inn: bool, out: bool) {
    forall fd: Fd :: match fd
      case Std(m) =>
        (m == 0 ==> (fd in t <==> inn)) && (m == 1 ==> (fd in t <==> out))
        && (fd in t ==> t[fd].end == if m == 0 then ReadEnd(k) else if m == 1 then WriteEnd(k + 1) else Terminal)
      case R(j) => (fd in t <==> k < j < n) && (fd in t ==> t[fd].end == ReadEnd(j))
      case W(j) => (fd in t <==> k + 1 < j <= n) && (fd in t ==> t[fd].end == WriteEnd(j))
  }

  lemma RootHoldsEnds(n: nat, t: Table, out: bool, inn: bool, j: nat)
    requires n > 0 && RootHolds(n, t, out, inn)
    ensures HoldsWrite(t, j) <==> out && j == 0
    ensures HoldsRead(t, j) <==> inn && j == n
  {
    assert out ==> W(0) in t;
    assert inn ==> R(n) in t;
  }

  /** A task's inherited ends stay open until it exits, closing 0 and 1 or not. */
  lemma TaskHoldsEnds(n: nat, k: nat, t: Table, inn: bool, out: bool, j: nat)
    requires k < n && TaskHolds(n, k, t, inn, out)
    ensures HoldsWrite(t, j) <==> k + 1 < j <= n || (out && j == k + 1)
    ensures HoldsRead(t, j) <==> k < j < n || (inn && j == k)
  {
    assert inn ==> Std(0) in t;
    assert out ==> Std(1) in t;
    if k + 1 < j <= n { assert W(j) in t; }
    if k < j < n { assert R(j) in t; }
  }

}
