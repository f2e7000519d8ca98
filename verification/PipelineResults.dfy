/**
 What basics/hook_and_coe.c promises, from the invariant of its step machine: nothing breaks or
 wedges, and every run is finite and delivers the file.
 */
module PipelineResults {
  import opened FdTables
  import opened Sums
  import opened Pipeline

  // ----- conservation -----

  /** Conservation and order: what root has got, followed by everything on its way from the
      last pipe back to the first, is what root has sent. */
  lemma {:induction false} FlowIs(c: Config, s: State, j: nat)
    requires Flowing(c, s) && j <= c.n
    ensures Low(c, s, j) <= |s.sent| && Flow(s.pipes, s.relay, j) == s.sent[Low(c, s, j)..]
  {
    assert PipeOk(c, s, j);
    if j == 0 {
    } else {
      FlowIs(c, s, j - 1);
      assert BufferOk(c, s, j - 1);
      Stretches(s.sent, Low(c, s, j), s.given[j - 1], s.taken[j - 1]);
    }
  }

  lemma Stretches(x: string, a: nat, b: nat, d: nat)
    requires a <= b <= d <= |x|
    ensures x[a..b] + x[b..d] + x[d..] == x[a..]
  {
  }

  lemma Conservation(c: Config, s: State)
    requires Flowing(c, s)
    ensures s.got + Flow(s.pipes, s.relay, c.n) == s.sent
    ensures Inv(c, s) ==> |Flow(s.pipes, s.relay, c.n)| <= BUFSZ
  {
    FlowIs(c, s, c.n);
    assert s.got + s.sent[|s.got|..] == s.sent;
  }

  // ----- nobody writes into a broken pipe -----

  /** A task that has bytes to write finds the reader they are meant for. */
  lemma NoBrokenPipe(c: Config, s: State, k: nat)
    requires Inv(c, s) && k < c.n && s.relay[k].Writing?
    ensures if k + 1 < c.n then HoldsRead(s.tables[k + 1], k + 1) else HoldsRead(s.rootTable, c.n)
  {
    assert BufferOk(c, s, k);
    if k + 1 < c.n {
      assert CascadeOk(c, s, k + 1) && TableOk(c, s, k + 1);
      TaskHoldsEnds(c.n, k + 1, s.tables[k + 1], true, true, k + 1);
    } else {
      BytesUnderWay(c, s, k);
      RootHoldsEnds(c.n, s.rootTable, OutOpen(s.root), InOpen(s.root), c.n);
    }
  }

  lemma AtMostOneBlock(c: Config, s: State)
    requires Inv(c, s)
    ensures |s.sent| <= |s.got| + BUFSZ
    ensures s.root.Feed? ==> |s.sent| == |s.got| + s.root.pw
    ensures s.root.Collect? ==> |s.sent| == |s.got| + |s.root.block| - |s.root.check|
  {
  }

  // ----- progress -----

  /** The first task that has not exited, once root is only waiting. */
  lemma FirstLeft(c: Config, s: State) returns (k: nat)
    requires Inv(c, s) && exists i :: 0 <= i < c.n && !s.relay[i].Exited?
    ensures k < c.n && !s.relay[k].Exited? && forall i :: 0 <= i < k ==> s.relay[i].Exited?
  {
    k := 0;
    while s.relay[k].Exited?
      invariant k < c.n && (forall i :: 0 <= i < k ==> s.relay[i].Exited?)
      decreases c.n - k
    {
      assert exists i :: 0 <= i < c.n && !s.relay[i].Exited? && i > k;
      k := k + 1;
    }
  }

  ghost predicate Stuck(c: Config, s: State) {
    forall st :: !Enabled(c, s, st)
  }

  /** What the pipeline holds when every pipe is full and every task is left with one byte. */
  function Hold(cap: nat, n: nat): nat {
    if n == 0 then cap else Hold(cap, n - 1) + 1 + cap
  }

  lemma {:induction false} HoldIs(cap: nat, n: nat)
    ensures Hold(cap, n) == (n + 1) * cap + n
  {
    if n == 0 {
    } else {
      HoldIs(cap, n - 1);
      assert (n + 1) * cap == n * cap + cap;
    }
  }

  /** A block of root's fits in. POSIX asks for 512 bytes a pipe, which is enough for any n. */
  predicate Roomy(c: Config) { Hold(c.cap, c.n) >= BUFSZ || Hold(c.cap, c.n) >= |c.file| }

  /** 512 bytes a pipe are enough for all, and nothing less is. */
  lemma LeastCapacity(cap: nat)
    ensures cap >= 512 <==> forall c: Config :: c.n > 0 && c.cap == cap ==> Roomy(c)
  {
    if cap >= 512 {
      forall c: Config | c.n > 0 && c.cap == cap ensures Roomy(c) { TwoPipes(cap, c.n); }
    } else {
      var c := Config(1, cap, seq(1024, i => 'x'), true);
      assert Hold(cap, 1) == cap + 1 + cap;
      assert !Roomy(c);
    }
  }

  lemma {:induction false} TwoPipes(cap: nat, n: nat)
    requires n > 0
    ensures Hold(cap, n) >= 2 * cap + 1
  {
    if n > 1 { TwoPipes(cap, n - 1); } else { assert Hold(cap, 1) == Hold(cap, 0) + 1 + cap; }
  }

  predicate Jammed(c: Config, s: State, k: nat)
    requires Shaped(c, s) && k < c.n
  {
    s.relay[k].Writing? && |s.pipes[k + 1]| >= c.cap
  }

  /** If nothing moves, a pipe with bytes in it has a reader that is stuck in a write, and so on
      down to the last pipe. */
  lemma {:induction false} JamSpreads(c: Config, s: State, j: nat, k: nat)
    requires Inv(c, s) && Stuck(c, s) && j <= k < c.n && s.pipes[j] != ""
    requires if j == 0 then OutOpen(s.root) else s.relay[j - 1].Writing?
    ensures Jammed(c, s, k)
    decreases k
  {
    if k > j { JamSpreads(c, s, j, k - 1); }
    assert CascadeOk(c, s, k) && BufferOk(c, s, k);
    NothingBreaks(c, s, k);
    assert !Enabled(c, s, RelayRead(k, 1)) && !Enabled(c, s, RelayWrite(k, 1));
  }

  lemma {:induction false} JamHolds(c: Config, s: State, k: nat)
    requires Inv(c, s) && k <= c.n && |s.pipes[0]| >= c.cap && forall i :: 0 <= i < k ==> Jammed(c, s, i)
    ensures |Flow(s.pipes, s.relay, k)| >= Hold(c.cap, k)
  {
    if k == 0 {
    } else {
      JamHolds(c, s, k - 1);
      assert Jammed(c, s, k - 1) && BufferOk(c, s, k - 1);
    }
  }

  predicate FeedJammed(c: Config, s: State)
    requires Shaped(c, s)
  {
    s.root.Feed? && s.root.pw < |s.root.block| && |s.pipes[0]| >= c.cap
  }

  /** With bytes in the last pipe, root can go on unless it is still feeding. */
  lemma FedRootMoves(c: Config, s: State) returns (st: Step)
    requires Inv(c, s) && s.pipes[c.n] != "" && !FeedJammed(c, s)
    ensures Enabled(c, s, st)
  {
    match s.root
    case Feed(block, pw) => st := if pw < |block| then RootWrite(1) else RootFed;
    case Collect(_, _, ccc) => st := if ccc > 0 then RootRead(1) else RootCollected;
    case Compare(_, _) => st := RootCompare;
    case _ =>
      NothingComes(c, s);
      assert false;
  }

  /** Outside of its loops over a block, root has read all it has written. */
  lemma NothingComes(c: Config, s: State)
    requires Inv(c, s) && !s.root.Feed? && !s.root.Collect? && !s.root.Compare?
    ensures s.pipes[c.n] == ""
  {
    assert PipeOk(c, s, c.n);
  }

  /** If nothing moves while a task has bytes to write, every pipe is full and root is feeding. */
  lemma WriterStuck(c: Config, s: State, k: nat)
    requires Inv(c, s) && Stuck(c, s) && k < c.n && s.relay[k].Writing?
    ensures FeedJammed(c, s)
  {
    NothingBreaks(c, s, k);
    assert BufferOk(c, s, k) && !Enabled(c, s, RelayWrite(k, 1));
    if k + 1 < c.n { JamSpreads(c, s, k + 1, c.n - 1); }
    if !FeedJammed(c, s) {
      var st := FedRootMoves(c, s);
      assert false;
    }
  }

  lemma JamIsTight(c: Config, s: State)
    requires Inv(c, s) && Stuck(c, s) && FeedJammed(c, s)
    ensures !Roomy(c)
  {
    forall i | 0 <= i < c.n ensures Jammed(c, s, i) { JamSpreads(c, s, 0, i); }
    JamHolds(c, s, c.n);
    Conservation(c, s);
  }

  /** Where nothing moves, every task waits for input or is gone. */
  lemma StuckIsIdle(c: Config, s: State)
    requires Inv(c, s) && Stuck(c, s) && Roomy(c)
    ensures Idle(c, s)
  {
    if FeedJammed(c, s) { JamIsTight(c, s); }
    forall k | 0 <= k < c.n ensures s.relay[k].Exited? || (s.relay[k].Reading? && s.pipes[k] == "") {
      assert !Enabled(c, s, RelayRead(k, 1)) && !Enabled(c, s, RelayClose(k)) && !Enabled(c, s, RelayExit(k));
      if s.relay[k].Writing? { WriterStuck(c, s, k); }
    }
  }

  /** With every task waiting on an empty pipe, what is in flight is in the last pipe. */
  lemma {:induction false} AllArrived(c: Config, s: State, k: nat)
    requires Inv(c, s) && k <= c.n
    requires forall i :: 0 <= i < c.n ==> s.relay[i].Exited? || (s.relay[i].Reading? && s.pipes[i] == "")
    ensures High(c, s, k) == |s.sent|
  {
    if k == 0 {
    } else {
      AllArrived(c, s, k - 1);
      assert PipeOk(c, s, k - 1) && BufferOk(c, s, k - 1) && PipeOk(c, s, k);
      BytesUnderWay(c, s, k - 1);
      if s.relay[k - 1].Exited? { assert CascadeOk(c, s, k - 1); }
    }
  }

  ghost predicate Idle(c: Config, s: State)
    requires Shaped(c, s)
  {
    forall i :: 0 <= i < c.n ==> s.relay[i].Exited? || (s.relay[i].Reading? && s.pipes[i] == "")
  }

  lemma RootMoves(c: Config, s: State) returns (st: Step)
    requires Inv(c, s) && Idle(c, s) && !s.root.Wait? && !s.root.Finished?
    ensures Enabled(c, s, st)
  {
    AtMostOneBlock(c, s);
    assert PipeOk(c, s, c.n) && CascadeOk(c, s, 0);
    AllArrived(c, s, c.n);
    match s.root
    case ReadFile => st := if s.fpos < |c.file| then RootReadFile(1) else RootEof;
    case Feed(block, pw) =>
      st := if pw < |block| then RootWrite(1) else RootFed;
    case Collect(block, check, ccc) =>
      st := if ccc > 0 then RootRead(1) else RootCollected;
    case Compare(_, _) => st := RootCompare;
    case _ => st := RootClose;
  }

  /** Once root waits, the first task left sees the end of its input. */
  lemma LastStagesMove(c: Config, s: State) returns (st: Step)
    requires Inv(c, s) && Idle(c, s) && (s.root.Wait? || s.root.Finished?)
    requires s.root.Finished? ==> exists i :: 0 <= i < c.n && !s.relay[i].Exited?
    ensures Enabled(c, s, st)
  {
    if s.root.Wait? && s.relay[s.root.i].Exited? {
      st := RootWait;
    } else {
      var k := FirstLeft(c, s);
      NoWriterMeans(c, s, k);
      st := RelayEof(k);
    }
  }

  /** The pipeline never wedges: when nothing can move, every task has exited and every wait
      of the root has returned. */
  lemma NeverWedged(c: Config, s: State)
    requires Inv(c, s) && Stuck(c, s) && Roomy(c)
    ensures s.root.Finished? && s.got == c.file && forall k :: 0 <= k < c.n ==> s.relay[k].Exited?
  {
    StuckIsIdle(c, s);
    if !s.root.Wait? && !s.root.Finished? {
      var st := RootMoves(c, s);
      assert false;
    } else if s.root.Wait? || exists i :: 0 <= i < c.n && !s.relay[i].Exited? {
      var st := LastStagesMove(c, s);
      assert false;
    }
  }

  // ----- termination -----

  function RootRank(c: Config, r: Root): nat {
    match r
    case Mismatch => 0
    case Finished => 0
    case Wait(i) => if i < c.n then c.n - i else 0
    case CloseIn => c.n + 1
    case CloseOut => c.n + 2
    case CloseFile => c.n + 3
    case ReadFile => c.n + 4
    case Compare(_, _) => c.n + 5
    case Collect(_, _, _) => c.n + 6
    case Feed(_, _) => c.n + 7
  }

  function RelayRank(r: Relay): nat {
    match r
    case Exited => 0
    case Killed(_, _) => 0
    case Closed1 => 1
    case Closed0 => 2
    case Leaving => 3
    case _ => 4
  }

  /** Bytes that task k has still to read and to write, and its way out. */
  function TaskRank(c: Config, s: State, k: nat): int
    requires Shaped(c, s) && k < c.n
  {
    RelayRank(s.relay[k]) + (|c.file| - s.taken[k]) + (|c.file| - s.given[k])
  }

  function TaskRanks(c: Config, s: State): (r: seq<int>)
    requires Shaped(c, s)
    ensures |r| == c.n
  {
    seq(c.n, k requires 0 <= k < c.n => TaskRank(c, s, k))
  }

  ghost function Rank(c: Config, s: State): int
    requires Shaped(c, s)
  {
    Sum(TaskRanks(c, s)) + RootRank(c, s.root)
      + 4 * (|c.file| - s.fpos) + (|c.file| - |s.sent|) + (|c.file| - |s.got|)
  }

  lemma RankNonNegative(c: Config, s: State)
    requires Inv(c, s)
    ensures Rank(c, s) >= 0
  {
    SentWithinFile(c, s);
    forall k | 0 <= k < c.n ensures TaskRanks(c, s)[k] >= 0 { assert BufferOk(c, s, k); }
    SumNonNegative(TaskRanks(c, s));
  }

  lemma SentWithinFile(c: Config, s: State)
    requires Inv(c, s)
    ensures |s.got| <= |s.sent| <= |c.file|
  {
  }

  lemma RankDrops(c: Config, s: State, st: Step)
    requires Inv(c, s) && Enabled(c, s, st)
    ensures Shaped(c, Next(c, s, st)) && Rank(c, Next(c, s, st)) < Rank(c, s)
  {
    if IsRelayStep(st) {
      RelayRankDrops(c, s, st);
    } else {
      assert TaskRanks(c, Next(c, s, st)) == TaskRanks(c, s);
      RootRankDrops(c, s, st);
    }
  }

  lemma RelayRankDrops(c: Config, s: State, st: Step)
    requires Inv(c, s) && Enabled(c, s, st) && IsRelayStep(st)
    ensures Shaped(c, Next(c, s, st)) && Rank(c, Next(c, s, st)) < Rank(c, s)
  {
    var t := Next(c, s, st);
    var r := TaskRank(c, t, st.k);
    assert TaskRanks(c, t) == TaskRanks(c, s)[st.k := r];
    SumUpdate(TaskRanks(c, s), st.k, r);
  }

  lemma RootRankDrops(c: Config, s: State, st: Step)
    requires Inv(c, s) && Enabled(c, s, st)
    requires !IsRelayStep(st)
    ensures var t := Next(c, s, st);
      RootRank(c, t.root) - 4 * t.fpos - |t.sent| - |t.got| < RootRank(c, s.root) - 4 * s.fpos - |s.sent| - |s.got|
  {
  }

  // ----- whole runs -----

  lemma {:induction false} RunInv(c: Config, s: State, sts: seq<Step>)
    requires Inv(c, s) && Legal(c, s, sts)
    ensures Inv(c, Run(c, s, sts)) && |sts| <= Rank(c, s)
    decreases |sts|
  {
    RankNonNegative(c, s);
    if sts == [] {
    } else {
      StepInv(c, s, sts[0]);
      RankDrops(c, s, sts[0]);
      RunInv(c, Next(c, s, sts[0]), sts[1..]);
    }
  }

  /** With the subtraction that is meant: for any number of tasks, any file and any cutting of
      reads and writes, every run is finite, never finds a mismatch, conserves the bytes and
      their order all along, and ends with everything delivered and everybody gone. */
  lemma EveryRun(c: Config, s: State, sts: seq<Step>)
    requires Valid(c) && c.intended && Initial(c, s) && Legal(c, s, sts)
    ensures |sts| <= Rank(c, s)
    ensures var t := Run(c, s, sts);
      && Shaped(c, t) && !t.root.Mismatch?
      && t.got + Flow(t.pipes, t.relay, c.n) == t.sent && t.sent <= c.file
      && |Flow(t.pipes, t.relay, c.n)| <= BUFSZ
    ensures var t := Run(c, s, sts);
      Stuck(c, t) && Roomy(c) ==> t.root.Finished? && t.got == c.file && forall k :: 0 <= k < c.n ==> t.relay[k].Exited?
  {
    InitialInv(c, s);
    RunInv(c, s, sts);
    var t := Run(c, s, sts);
    assert !t.root.Mismatch?;
    Conservation(c, t);
    assert |Flow(t.pipes, t.relay, c.n)| <= BUFSZ;
    SentIsPrefix(c, t);
    assert t.sent <= c.file;
    if Stuck(c, t) && Roomy(c) { NeverWedged(c, t); }
  }

  lemma SentIsPrefix(c: Config, s: State)
    requires Inv(c, s)
    ensures s.sent == c.file[..|s.sent|]
  {
    if s.root.Feed? {
      PartOfBlock(c.file, s.fpos - |s.root.block|, s.root.block, s.root.pw);
    }
  }

  lemma PartOfBlock(file: string, from: nat, block: string, pw: nat)
    requires from + |block| <= |file| && block == file[from..from + |block|] && pw <= |block|
    ensures file[..from] + block[..pw] == file[..from + pw]
  {
    assert block[..pw] == file[from..from + pw];
  }

  /** The order of the ends: when a task can see the end of its input, root has closed fd_out,
      every task ahead of it has seen the end of its own and closed its output, and all but
      the nearest have exited. */
  lemma EndsInOrder(c: Config, s: State, k: nat)
    requires Flowing(c, s) && Enabled(c, s, RelayEof(k))
    ensures !OutOpen(s.root)
    ensures forall i :: 0 <= i < k ==> s.relay[i].Closed1? || s.relay[i].Exited?
    ensures forall i :: 0 <= i < k - 1 ==> s.relay[i].Exited?
  {
    EndsAhead(c, s, k);
  }
}
