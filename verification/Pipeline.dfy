/**
 basics/hook_and_coe.c after the setup: the root feeds a file into pipe 0 block by block and
 compares what comes out of pipe ntasks; each task relays its standard input to its standard
 output. Every read() and write() is a step and moves any positive number of bytes; a write() to
 a pipe that nobody can read ends the task with SIGPIPE.

 Line 225 of the program says `ccc =- ccr`. `intended` selects the subtraction that is meant;
 without it the step does what the line says.
 */
module Pipeline {
  import opened FdTables

  const BUFSZ: nat := 1024

  datatype Config = Config(n: nat, cap: nat, file: string, intended: bool)

  datatype Root =
    | ReadFile
    | Feed(block: string, pw: nat)
    | Collect(block: string, check: string, ccc: int)
    | Compare(block: string, check: string)
    | CloseFile | CloseOut | CloseIn
    | Wait(i: nat)
    | Finished
    | Mismatch                                   // the CHECK on strncmp failed

  datatype Relay =
    | Reading | Writing(buf: string, pos: nat)
    | Leaving | Closed0 | Closed1 | Exited
    | Killed(buf: string, pos: nat)              // by SIGPIPE; what it had yet to write is lost

  /** `sent`, `got`, `taken` and `given` are history: the bytes root has written and read, and
      how many bytes each task has read and written. */
  datatype State = State(
    root: Root, rootTable: Table, fpos: nat,
    pipes: seq<string>, relay: seq<Relay>, tables: seq<Table>,
    sent: string, got: string, taken: seq<nat>, given: seq<nat>)

  datatype Step =
    | RootReadFile(count: nat) | RootEof | RootWrite(count: nat) | RootFed
    | RootRead(count: nat) | RootNoMore | RootCollected | RootCompare
    | RootClose | RootWait
    | RelayRead(k: nat, count: nat) | RelayEof(k: nat) | RelayWrite(k: nat, count: nat)
    | RelayClose(k: nat) | RelayExit(k: nat) | RelayBroken(k: nat)

  // ----- strncmp -----

  function At(s: string, i: nat): char { if i < |s| then s[i] else '\0' }

  /** strncmp(a, b, n) == 0 from position i on, both buffers being zero behind their text. */
  predicate SameFrom(a: string, b: string, n: nat, i: nat)
    decreases n - i
  {
    i >= n || (At(a, i) == At(b, i) && (At(a, i) == '\0' || SameFrom(a, b, n, i + 1)))
  }

  // ----- steps -----

  predicate Shaped(c: Config, s: State) {
    c.n > 0 && |s.pipes| == c.n + 1 && |s.relay| == |s.tables| == |s.taken| == |s.given| == c.n
  }

  predicate NoWriter(s: State, j: nat) {
    !HoldsWrite(s.rootTable, j) && forall k :: 0 <= k < |s.tables| ==> !HoldsWrite(s.tables[k], j)
  }

  /** Root or one of the tasks holds the read end of pipe j. */
  predicate Readable(root: Table, tasks: seq<Table>, j: nat) {
    HoldsRead(root, j) || exists k :: 0 <= k < |tasks| && HoldsRead(tasks[k], j)
  }

  /** A task that pip_wait() does not wait for any longer. */
  predicate Gone(r: Relay) { r.Exited? || r.Killed? }

  predicate Enabled(c: Config, s: State, st: Step) {
    && Shaped(c, s) && !s.root.Mismatch?
    && match st
       case RootReadFile(count) => s.root.ReadFile? && 1 <= count <= BUFSZ && s.fpos + count <= |c.file|
       case RootEof => s.root.ReadFile? && s.fpos == |c.file|
       case RootWrite(count) =>
         s.root.Feed? && 1 <= count && s.root.pw + count <= |s.root.block| && |s.pipes[0]| + count <= c.cap
       case RootFed => s.root.Feed? && s.root.pw == |s.root.block|
       case RootRead(count) => s.root.Collect? && 1 <= count <= s.root.ccc && count <= |s.pipes[c.n]|
       case RootNoMore => s.root.Collect? && s.root.ccc > 0 && s.pipes[c.n] == "" && NoWriter(s, c.n)
       case RootCollected => s.root.Collect? && s.root.ccc <= 0
       case RootCompare => s.root.Compare?
       case RootClose => s.root.CloseFile? || s.root.CloseOut? || s.root.CloseIn?
       case RootWait => s.root.Wait? && s.root.i < c.n && Gone(s.relay[s.root.i])
       case RelayRead(k, count) => k < c.n && s.relay[k].Reading? && 1 <= count <= BUFSZ && count <= |s.pipes[k]|
       case RelayEof(k) => k < c.n && s.relay[k].Reading? && s.pipes[k] == "" && NoWriter(s, k)
       case RelayWrite(k, count) =>
         k < c.n && s.relay[k].Writing? && 1 <= count && s.relay[k].pos + count <= |s.relay[k].buf|
         && |s.pipes[k + 1]| + count <= c.cap && Readable(s.rootTable, s.tables, k + 1)
       case RelayBroken(k) => k < c.n && s.relay[k].Writing? && !Readable(s.rootTable, s.tables, k + 1)
       case RelayClose(k) => k < c.n && (s.relay[k].Leaving? || s.relay[k].Closed0?)
       case RelayExit(k) => k < c.n && s.relay[k].Closed1?
  }

  function Next(c: Config, s: State, st: Step): State
    requires Enabled(c, s, st)
  {
    match st
    case RootReadFile(count) => s.(root := Feed(c.file[s.fpos..s.fpos + count], 0), fpos := s.fpos + count)
    case RootEof => s.(root := CloseFile)
    case RootWrite(count) =>
      var bytes := s.root.block[s.root.pw..s.root.pw + count];
      s.(root := Feed(s.root.block, s.root.pw + count),
         pipes := s.pipes[0 := s.pipes[0] + bytes], sent := s.sent + bytes)
    case RootFed => s.(root := Collect(s.root.block, "", |s.root.block|))
    case RootRead(count) =>
      var bytes := s.pipes[c.n][..count];
      s.(root := Collect(s.root.block, s.root.check + bytes, if c.intended then s.root.ccc - count else 0 - count),
         pipes := s.pipes[c.n := s.pipes[c.n][count..]], got := s.got + bytes)
    case RootNoMore => s.(root := Compare(s.root.block, s.root.check))
    case RootCollected => s.(root := Compare(s.root.block, s.root.check))
    case RootCompare =>
      s.(root := if SameFrom(s.root.block, s.root.check, |s.root.block|, 0) then ReadFile else Mismatch)
    case RootClose =>
      if s.root.CloseFile? then s.(root := CloseOut)
      else if s.root.CloseOut? then s.(root := CloseIn, rootTable := Close(s.rootTable, W(0)))
      else s.(root := Wait(0), rootTable := Close(s.rootTable, R(c.n)))
    case RootWait => s.(root := if s.root.i + 1 < c.n then Wait(s.root.i + 1) else Finished)
    case RelayRead(k, count) =>
      s.(relay := s.relay[k := Writing(s.pipes[k][..count], 0)], pipes := s.pipes[k := s.pipes[k][count..]],
         taken := s.taken[k := s.taken[k] + count])
    case RelayEof(k) => s.(relay := s.relay[k := Leaving])
    case RelayWrite(k, count) =>
      var r := s.relay[k];
      s.(relay := s.relay[k := if r.pos + count < |r.buf| then Writing(r.buf, r.pos + count) else Reading],
         pipes := s.pipes[k + 1 := s.pipes[k + 1] + r.buf[r.pos..r.pos + count]],
         given := s.given[k := s.given[k] + count])
    case RelayClose(k) =>
      if s.relay[k].Leaving? then
        s.(relay := s.relay[k := Closed0], tables := s.tables[k := Close(s.tables[k], Std(0))])
      else s.(relay := s.relay[k := Closed1], tables := s.tables[k := Close(s.tables[k], Std(1))])
    case RelayExit(k) => s.(relay := s.relay[k := Exited], tables := s.tables[k := map[]])
    case RelayBroken(k) =>
      s.(relay := s.relay[k := Killed(s.relay[k].buf, s.relay[k].pos)], tables := s.tables[k := map[]])
  }

  predicate IsRelayStep(st: Step) {
    st.RelayRead? || st.RelayEof? || st.RelayWrite? || st.RelayClose? || st.RelayExit? || st.RelayBroken?
  }

  predicate Legal(c: Config, s: State, sts: seq<Step>)
    decreases |sts|
  {
    sts == [] || (Enabled(c, s, sts[0]) && Legal(c, Next(c, s, sts[0]), sts[1..]))
  }

  function Run(c: Config, s: State, sts: seq<Step>): State
    requires Legal(c, s, sts)
    decreases |sts|
  {
    if sts == [] then s else Run(c, Next(c, s, sts[0]), sts[1..])
  }

  /** The state that the setup leaves behind. */
  ghost predicate Initial(c: Config, s: State) {
    && Shaped(c, s) && s.root == ReadFile && s.fpos == 0 && s.sent == "" && s.got == ""
    && IsRootTable(c.n, c.n, s.rootTable)
    && (forall j :: 0 <= j <= c.n ==> s.pipes[j] == "")
    && (forall k :: 0 <= k < c.n ==>
          s.relay[k] == Reading && IsTaskTable(c.n, k, s.tables[k]) && s.taken[k] == 0 && s.given[k] == 0)
  }

  // ----- what is in flight -----

  /** What a task has read and not written, and never will write if it has been killed. */
  function Unsent(r: Relay): string {
    if (r.Writing? || r.Killed?) && r.pos <= |r.buf| then r.buf[r.pos..] else ""
  }

  /** The bytes between root's write end and the read end of pipe j, oldest first. */
  function Flow(pipes: seq<string>, relay: seq<Relay>, j: nat): string
    requires j < |pipes| && j <= |relay|
  {
    if j == 0 then pipes[0] else pipes[j] + Unsent(relay[j - 1]) + Flow(pipes, relay, j - 1)
  }

  // ----- the invariant -----

  /** Pipe j and task k's buffer hold consecutive stretches of what root has sent: pipe j from
      what its reader has taken up to what its writer has given. */
  function Low(c: Config, s: State, j: nat): nat
    requires Shaped(c, s) && j <= c.n
  {
    if j == c.n then |s.got| else s.taken[j]
  }

  function High(c: Config, s: State, j: nat): nat
    requires Shaped(c, s) && j <= c.n
  {
    if j == 0 then |s.sent| else s.given[j - 1]
  }

  ghost predicate PipeOk(c: Config, s: State, j: nat)
    requires Shaped(c, s) && j <= c.n
  {
    Low(c, s, j) <= High(c, s, j) <= |s.sent| && s.pipes[j] == s.sent[Low(c, s, j)..High(c, s, j)]
  }

  ghost predicate BufferOk(c: Config, s: State, k: nat)
    requires Shaped(c, s) && k < c.n
  {
    && s.given[k] <= s.taken[k] <= |s.sent| && Unsent(s.relay[k]) == s.sent[s.given[k]..s.taken[k]]
    && (s.relay[k].Writing? ==> s.relay[k].pos < |s.relay[k].buf| <= BUFSZ)
  }

  predicate Leaver(r: Relay) { r.Leaving? || r.Closed0? || r.Closed1? || r.Exited? }

  predicate OutOpen(r: Root) { !r.CloseIn? && !r.Wait? && !r.Finished? }
  predicate InOpen(r: Root) { !r.Wait? && !r.Finished? }

  ghost predicate TableFits(n: nat, k: nat, r: Relay, t: Table) {
    match r
    case Exited => t == map[]
    case Killed(_, _) => t == map[]
    case Closed1 => TaskHolds(n, k, t, false, false)
    case Closed0 => TaskHolds(n, k, t, false, true)
    case _ => TaskHolds(n, k, t, true, true)
  }

  ghost predicate TableOk(c: Config, s: State, k: nat)
    requires Shaped(c, s) && k < c.n
  {
    TableFits(c.n, k, s.relay[k], s.tables[k])
  }

  /** The end-of-file cascade: a task on its way out has seen the end of its pipe, so every
      writer of that pipe is gone. And only the last task can have met a broken pipe, which root
      alone can read. */
  ghost predicate CascadeOk(c: Config, s: State, k: nat)
    requires Shaped(c, s) && k < c.n
  {
    && (Leaver(s.relay[k]) ==>
          && !OutOpen(s.root)
          && forall i :: 0 <= i < k ==> s.relay[i].Exited? || (i == k - 1 && s.relay[i].Closed1?))
    && (s.relay[k].Killed? ==> k == c.n - 1 && !InOpen(s.root))
  }

  ghost predicate Valid(c: Config) { c.n > 0 && c.cap > 0 }

  /** What holds of pipes, buffers and descriptors for any file, with line 225 as written or as
      meant, and even after a failed comparison. */
  ghost predicate Flowing(c: Config, s: State) {
    && Shaped(c, s)
    && RootHolds(c.n, s.rootTable, OutOpen(s.root), InOpen(s.root))
    && |s.got| <= |s.sent| && s.got == s.sent[..|s.got|]
    && (forall j :: 0 <= j <= c.n ==> PipeOk(c, s, j))
    && (forall k :: 0 <= k < c.n ==> BufferOk(c, s, k))
    && (forall k :: 0 <= k < c.n ==> TableOk(c, s, k))
    && (forall k :: 0 <= k < c.n ==> CascadeOk(c, s, k))
  }

  /** Where root stands in the file, with the subtraction that is meant. */
  ghost predicate RootOk(c: Config, s: State)
    requires Shaped(c, s)
  {
    && s.fpos <= |c.file| && |s.sent| <= |c.file|
    && (s.root.Feed? || s.root.Collect? || s.root.Compare? ==>
          var b := s.root.block; 0 < |b| <= BUFSZ && |b| <= s.fpos && c.file[s.fpos - |b|..s.fpos] == b)
    && match s.root
       case ReadFile => s.sent == s.got == c.file[..s.fpos]
       case Feed(block, pw) =>
         pw <= |block| && s.got == c.file[..s.fpos - |block|] && s.sent == s.got + block[..pw]
       case Collect(block, check, ccc) =>
         && s.sent == c.file[..s.fpos] && check <= block && ccc == |block| - |check|
         && s.got == c.file[..s.fpos - |block|] + check
       case Compare(block, check) => check == block && s.sent == s.got == c.file[..s.fpos]
       case Mismatch => false
       case Wait(i) => i < c.n && s.fpos == |c.file| && s.sent == s.got == c.file
                       && forall k :: 0 <= k < i ==> s.relay[k].Exited?
       case Finished => s.fpos == |c.file| && s.sent == s.got == c.file
                        && forall k :: 0 <= k < c.n ==> s.relay[k].Exited?
       case _ => s.fpos == |c.file| && s.sent == s.got == c.file
  }

  predicate NobodyKilled(s: State) {
    forall k :: 0 <= k < |s.relay| ==> !s.relay[k].Killed?
  }

  ghost predicate Inv(c: Config, s: State) {
    Valid(c) && c.intended && Flowing(c, s) && RootOk(c, s) && NobodyKilled(s)
  }

  lemma InitialFlows(c: Config, s: State)
    requires Initial(c, s)
    ensures Flowing(c, s)
  {
  }

  lemma InitialInv(c: Config, s: State)
    requires Valid(c) && c.intended && Initial(c, s)
    ensures Inv(c, s)
  {
    InitialFlows(c, s);
    assert c.file[..0] == "";
  }

  // ----- end of file -----

  /** Which ends of pipe j a task still holds: the write end if it is ahead of the pipe, and the
      read end of every pipe behind its own that a later task reads from. */
  lemma EndsHeld(c: Config, s: State, i: nat, j: nat)
    requires Flowing(c, s) && i < c.n && j <= c.n
    ensures HoldsWrite(s.tables[i], j) <==> i < j && !Gone(s.relay[i]) && (i == j - 1 ==> !s.relay[i].Closed1?)
    ensures HoldsRead(s.tables[i], j) <==>
            i <= j < c.n && !Gone(s.relay[i]) && (i == j ==> !s.relay[i].Closed0? && !s.relay[i].Closed1?)
  {
    assert TableOk(c, s, i);
    if !Gone(s.relay[i]) {
      TaskHoldsEnds(c.n, i, s.tables[i], !s.relay[i].Closed0? && !s.relay[i].Closed1?, !s.relay[i].Closed1?, j);
    }
  }

  /** A pipe has no writer left exactly when root has closed fd_out, for pipe 0, or when all
      tasks ahead of it are gone, the nearest one possibly only having closed its output. */
  lemma NoWriterMeans(c: Config, s: State, j: nat)
    requires Flowing(c, s) && j <= c.n
    ensures NoWriter(s, j) <==>
      && (j == 0 ==> !OutOpen(s.root))
      && forall i :: 0 <= i < j ==> Gone(s.relay[i]) || (i == j - 1 && s.relay[i].Closed1?)
  {
    RootHoldsEnds(c.n, s.rootTable, OutOpen(s.root), InOpen(s.root), j);
    forall i | 0 <= i < c.n
      ensures HoldsWrite(s.tables[i], j) <==> i < j && !Gone(s.relay[i]) && (i == j - 1 ==> !s.relay[i].Closed1?)
    {
      EndsHeld(c, s, i, j);
    }
  }

  /** The last pipe can be read exactly until root closes fd_in, and each of those ahead of it at
      least as long as the task that writes to it is there. */
  lemma ReadableMeans(c: Config, s: State, k: nat)
    requires Flowing(c, s) && k < c.n && (k + 1 < c.n ==> !Gone(s.relay[k]))
    ensures Readable(s.rootTable, s.tables, k + 1) <==> k < c.n - 1 || InOpen(s.root)
  {
    RootHoldsEnds(c.n, s.rootTable, OutOpen(s.root), InOpen(s.root), k + 1);
    EndsHeld(c, s, k, k + 1);
    if k + 1 == c.n {
      forall i | 0 <= i < c.n ensures !HoldsRead(s.tables[i], c.n) { EndsHeld(c, s, i, c.n); }
    }
  }

  /** In any state, a task with bytes to write is ended by SIGPIPE exactly if there is nobody to
      read them, and then it writes no more. */
  lemma BrokenPipeEnds(c: Config, s: State, k: nat)
    requires Shaped(c, s) && !s.root.Mismatch? && k < c.n && s.relay[k].Writing?
    ensures Enabled(c, s, RelayBroken(k)) <==> !Readable(s.rootTable, s.tables, k + 1)
    ensures Enabled(c, s, RelayBroken(k)) ==> forall count :: !Enabled(c, s, RelayWrite(k, count))
  {
  }

  /** In any state, root goes on to its comparison if it wants more bytes and there is no writer. */
  lemma EofEndsCollecting(c: Config, s: State)
    requires Shaped(c, s) && s.root.Collect? && s.root.ccc > 0 && s.pipes[c.n] == "" && NoWriter(s, c.n)
    ensures Enabled(c, s, RootNoMore) && Next(c, s, RootNoMore).root == Compare(s.root.block, s.root.check)
  {
  }

  /** Task 0 is there to read as long as root has something to write. */
  lemma RootFindsReader(c: Config, s: State)
    requires Flowing(c, s) && OutOpen(s.root)
    ensures Readable(s.rootTable, s.tables, 0)
  {
    assert CascadeOk(c, s, 0);
    EndsHeld(c, s, 0, 0);
  }

  /** While root still feeds, no read() of root or of a task meets the end of a file. */
  lemma NoEarlyEnd(c: Config, s: State, j: nat)
    requires Flowing(c, s) && OutOpen(s.root) && j <= c.n
    ensures !NoWriter(s, j)
  {
    NoWriterMeans(c, s, j);
    if j > 0 { assert CascadeOk(c, s, j - 1); }
  }

  // ----- every step keeps the flow -----

  lemma StepKeepsPipe(c: Config, s: State, st: Step, j: nat)
    requires Flowing(c, s) && Enabled(c, s, st) && j <= c.n
    ensures Shaped(c, Next(c, s, st)) && PipeOk(c, Next(c, s, st), j)
  {
    match st
    case RootWrite(count) => RootWriteKeepsPipe(c, s, count, j);
    case RootRead(count) => RootReadKeepsPipe(c, s, count, j);
    case RelayRead(k, count) => RelayReadKeepsPipe(c, s, k, count, j);
    case RelayWrite(k, count) => RelayWriteKeepsPipe(c, s, k, count, j);
    case _ => assert PipeOk(c, s, j);
  }

  lemma RootWriteKeepsPipe(c: Config, s: State, count: nat, j: nat)
    requires Flowing(c, s) && Enabled(c, s, RootWrite(count)) && j <= c.n
    ensures PipeOk(c, Next(c, s, RootWrite(count)), j)
  {
    var t := Next(c, s, RootWrite(count));
    assert PipeOk(c, s, j);
    Extends(s.sent, t.sent, Low(c, s, j), High(c, s, j));
    if j == 0 { GivenNext(t.sent, Low(c, s, 0), |s.sent|, |t.sent|, count); }
  }

  lemma RootReadKeepsPipe(c: Config, s: State, count: nat, j: nat)
    requires Flowing(c, s) && Enabled(c, s, RootRead(count)) && j <= c.n
    ensures PipeOk(c, Next(c, s, RootRead(count)), j)
  {
    assert PipeOk(c, s, j);
    if j == c.n { assert s.pipes[j][count..] == s.sent[|s.got| + count..High(c, s, j)]; }
  }

  lemma RelayReadKeepsPipe(c: Config, s: State, k: nat, count: nat, j: nat)
    requires Flowing(c, s) && Enabled(c, s, RelayRead(k, count)) && j <= c.n
    ensures PipeOk(c, Next(c, s, RelayRead(k, count)), j)
  {
    assert PipeOk(c, s, j);
    if j == k { assert s.pipes[k][count..] == s.sent[s.taken[k] + count..High(c, s, k)]; }
  }

  lemma RelayWriteKeepsPipe(c: Config, s: State, k: nat, count: nat, j: nat)
    requires Flowing(c, s) && Enabled(c, s, RelayWrite(k, count)) && j <= c.n
    ensures PipeOk(c, Next(c, s, RelayWrite(k, count)), j)
  {
    assert PipeOk(c, s, j) && BufferOk(c, s, k);
    if j == k + 1 {
      var r := s.relay[k];
      assert r.buf[r.pos..r.pos + count] == Unsent(r)[..count];
      GivenNext(s.sent, Low(c, s, j), s.given[k], s.taken[k], count);
    }
  }

  lemma Extends(x: string, y: string, a: nat, b: nat)
    requires x <= y && a <= b <= |x|
    ensures x[a..b] == y[a..b]
  {
  }

  lemma GivenNext(x: string, a: nat, b: nat, d: nat, count: nat)
    requires a <= b <= d <= |x| && b + count <= d
    ensures x[a..b] + x[b..d][..count] == x[a..b + count]
  {
    Front(x, x[b..d], b, d, count);
  }

  lemma StepKeepsBuffer(c: Config, s: State, st: Step, k: nat)
    requires Flowing(c, s) && Enabled(c, s, st) && k < c.n
    ensures Shaped(c, Next(c, s, st)) && BufferOk(c, Next(c, s, st), k)
  {
    assert BufferOk(c, s, k);
    match st
    case RootWrite(count) => Extends(s.sent, Next(c, s, st).sent, s.given[k], s.taken[k]);
    case RelayRead(i, count) => if i == k { TakenNext(c, s, k, count); }
    case RelayWrite(i, count) => if i == k { RelayWriteKeepsBuffer(c, s, k, count); }
    case _ => OtherKeepsBuffer(c, s, st, k);
  }

  lemma OtherKeepsBuffer(c: Config, s: State, st: Step, k: nat)
    requires Enabled(c, s, st) && k < c.n && BufferOk(c, s, k)
    requires !st.RootWrite? && !st.RelayRead? && !st.RelayWrite?
    ensures Shaped(c, Next(c, s, st)) && BufferOk(c, Next(c, s, st), k)
  {
  }

  lemma RelayWriteKeepsBuffer(c: Config, s: State, k: nat, count: nat)
    requires Flowing(c, s) && Enabled(c, s, RelayWrite(k, count))
    ensures BufferOk(c, Next(c, s, RelayWrite(k, count)), k)
  {
    assert BufferOk(c, s, k);
    var r := s.relay[k];
    Behind(r.buf, r.pos, count);
    Rest(s.sent, Unsent(r), s.given[k], s.taken[k], count);
  }

  lemma Behind(x: string, a: nat, count: nat)
    requires a + count <= |x|
    ensures x[a..][count..] == x[a + count..]
  {
  }

  lemma Rest(x: string, part: string, a: nat, b: nat, count: nat)
    requires a <= b <= |x| && part == x[a..b] && count <= |part|
    ensures part[count..] == x[a + count..b]
  {
  }

  lemma TakenNext(c: Config, s: State, k: nat, count: nat)
    requires Flowing(c, s) && Enabled(c, s, RelayRead(k, count))
    ensures BufferOk(c, Next(c, s, RelayRead(k, count)), k)
  {
    assert BufferOk(c, s, k) && PipeOk(c, s, k);
    assert s.given[k] == s.taken[k] by {
      assert |Unsent(s.relay[k])| == s.taken[k] - s.given[k];
    }
    Front(s.sent, s.pipes[k], s.taken[k], High(c, s, k), count);
  }

  lemma Front(x: string, part: string, a: nat, b: nat, count: nat)
    requires a <= b <= |x| && part == x[a..b] && count <= |part|
    ensures part[..count] == x[a..a + count]
  {
  }

  lemma StepKeepsTable(c: Config, s: State, st: Step, k: nat)
    requires Flowing(c, s) && Enabled(c, s, st) && k < c.n
    ensures Shaped(c, Next(c, s, st)) && TableOk(c, Next(c, s, st), k)
  {
    assert TableOk(c, s, k);
    if st.RelayClose? { ClosedTable(c.n, k, s.relay[k], s.tables[k]); }
  }

  lemma ClosedTable(n: nat, k: nat, r: Relay, t: Table)
    requires TableFits(n, k, r, t)
    ensures r.Leaving? ==> TableFits(n, k, Closed0, Close(t, Std(0)))
    ensures r.Closed0? ==> TableFits(n, k, Closed1, Close(t, Std(1)))
  {
  }

  /** Who is ahead of a task that sees the end of its input. */
  lemma EndsAhead(c: Config, s: State, k: nat)
    requires Flowing(c, s) && Enabled(c, s, RelayEof(k))
    ensures !OutOpen(s.root)
    ensures forall i :: 0 <= i < k ==> s.relay[i].Exited? || (i == k - 1 && s.relay[i].Closed1?)
  {
    NoWriterMeans(c, s, k);
    forall i | 0 <= i < k ensures !s.relay[i].Killed? { assert CascadeOk(c, s, i); }
    if k > 0 { assert CascadeOk(c, s, k - 1); }
  }

  lemma StepKeepsCascade(c: Config, s: State, st: Step, k: nat)
    requires Flowing(c, s) && Enabled(c, s, st) && k < c.n
    ensures Shaped(c, Next(c, s, st)) && CascadeOk(c, Next(c, s, st), k)
  {
    assert CascadeOk(c, s, k);
    if st == RelayEof(k) {
      EndsAhead(c, s, k);
    } else if st == RelayBroken(k) {
      ReadableMeans(c, s, k);
    } else {
      OtherKeepsCascade(c, s, st, k);
    }
  }

  lemma OtherKeepsCascade(c: Config, s: State, st: Step, k: nat)
    requires Enabled(c, s, st) && k < c.n && CascadeOk(c, s, k) && st != RelayEof(k) && st != RelayBroken(k)
    ensures Shaped(c, Next(c, s, st)) && CascadeOk(c, Next(c, s, st), k)
  {
  }

  /** What root reads next is the next part of what it has written. */
  lemma RootGets(c: Config, s: State, count: nat)
    requires Flowing(c, s) && count <= |s.pipes[c.n]|
    ensures |s.got| + count <= |s.sent| && s.pipes[c.n][..count] == s.sent[|s.got|..|s.got| + count]
    ensures s.got + s.pipes[c.n][..count] == s.sent[..|s.got| + count]
  {
    assert PipeOk(c, s, c.n);
    Front(s.sent, s.pipes[c.n], |s.got|, High(c, s, c.n), count);
  }

  lemma StepKeepsGot(c: Config, s: State, st: Step)
    requires Flowing(c, s) && Enabled(c, s, st)
    ensures var t := Next(c, s, st); |t.got| <= |t.sent| && t.got == t.sent[..|t.got|]
  {
    if st.RootRead? { RootGets(c, s, st.count); }
  }

  lemma StepKeepsEnds(c: Config, s: State, st: Step)
    requires Flowing(c, s) && Enabled(c, s, st)
    ensures var t := Next(c, s, st); RootHolds(c.n, t.rootTable, OutOpen(t.root), InOpen(t.root))
  {
  }

  lemma StepFlows(c: Config, s: State, st: Step)
    requires Flowing(c, s) && Enabled(c, s, st)
    ensures Flowing(c, Next(c, s, st))
  {
    var t := Next(c, s, st);
    StepKeepsEnds(c, s, st);
    StepKeepsGot(c, s, st);
    forall j | 0 <= j <= c.n ensures PipeOk(c, t, j) { StepKeepsPipe(c, s, st, j); }
    forall k | 0 <= k < c.n ensures BufferOk(c, t, k) && TableOk(c, t, k) && CascadeOk(c, t, k) {
      StepKeepsBuffer(c, s, st, k);
      StepKeepsTable(c, s, st, k);
      StepKeepsCascade(c, s, st, k);
    }
  }

  lemma {:induction false} RunFlows(c: Config, s: State, sts: seq<Step>)
    requires Flowing(c, s) && Legal(c, s, sts)
    ensures Flowing(c, Run(c, s, sts))
    decreases |sts|
  {
    if sts == [] {
    } else {
      StepFlows(c, s, sts[0]);
      RunFlows(c, Next(c, s, sts[0]), sts[1..]);
    }
  }

  // ----- with the subtraction that is meant, root gets its blocks back -----

  lemma StepKeepsRoot(c: Config, s: State, st: Step)
    requires Inv(c, s) && Enabled(c, s, st)
    ensures Shaped(c, Next(c, s, st)) && RootOk(c, Next(c, s, st))
  {
    match st
    case RootReadFile(count) => ReadFileKeepsRoot(c, s, count);
    case RootWrite(count) => WriteKeepsRoot(c, s, count);
    case RootRead(count) => ReadKeepsRoot(c, s, count);
    case RootNoMore => NoEarlyEnd(c, s, c.n);
    case RootCompare => CompareKeepsRoot(c, s);
    case RootFed => FedKeepsRoot(c, s);
    case RootClose => CloseKeepsRoot(c, s);
    case _ => OtherKeepsRoot(c, s, st);
  }

  lemma FedKeepsRoot(c: Config, s: State)
    requires Inv(c, s) && Enabled(c, s, RootFed)
    ensures RootOk(c, Next(c, s, RootFed))
  {
    assert s.root.block[..|s.root.block|] == s.root.block;
    assert c.file[..s.fpos] == c.file[..s.fpos - |s.root.block|] + s.root.block;
    assert c.file[..s.fpos - |s.root.block|] + "" == c.file[..s.fpos - |s.root.block|];
  }

  lemma CloseKeepsRoot(c: Config, s: State)
    requires Inv(c, s) && Enabled(c, s, RootClose)
    ensures RootOk(c, Next(c, s, RootClose))
  {
  }

  lemma OtherKeepsRoot(c: Config, s: State, st: Step)
    requires Inv(c, s) && Enabled(c, s, st)
    requires st.RootEof? || st.RootCollected? || st.RootWait? || IsRelayStep(st)
    ensures Shaped(c, Next(c, s, st)) && RootOk(c, Next(c, s, st))
  {
    if st.RootEof? {
      assert c.file[..|c.file|] == c.file;
    } else if st.RootCollected? {
      CollectedKeepsRoot(c, s);
    } else if !st.RootWait? {
      RelayKeepsRoot(c, s, Next(c, s, st), st.k);
    }
  }

  lemma CollectedKeepsRoot(c: Config, s: State)
    requires Inv(c, s) && Enabled(c, s, RootCollected)
    ensures RootOk(c, Next(c, s, RootCollected))
  {
    assert c.file[..s.fpos] == c.file[..s.fpos - |s.root.block|] + s.root.block;
  }

  lemma RelayKeepsRoot(c: Config, s: State, t: State, k: nat)
    requires Shaped(c, s) && Shaped(c, t) && RootOk(c, s) && k < c.n
    requires t.root == s.root && t.rootTable == s.rootTable && t.fpos == s.fpos && t.sent == s.sent && t.got == s.got
    requires t.relay == s.relay[k := t.relay[k]] && !s.relay[k].Exited?
    ensures RootOk(c, t)
  {
    if s.root.Wait? || s.root.Finished? {
      var m := if s.root.Wait? then s.root.i else c.n;
      assert forall i :: 0 <= i < m ==> t.relay[i].Exited?;
    }
  }

  lemma ReadFileKeepsRoot(c: Config, s: State, count: nat)
    requires Inv(c, s) && Enabled(c, s, RootReadFile(count))
    ensures RootOk(c, Next(c, s, RootReadFile(count)))
  {
    assert c.file[s.fpos..s.fpos + count][..0] == "";
  }

  lemma WriteKeepsRoot(c: Config, s: State, count: nat)
    requires Inv(c, s) && Enabled(c, s, RootWrite(count))
    ensures RootOk(c, Next(c, s, RootWrite(count)))
  {
    BlockGrows(s.got, s.root.block, s.root.pw, count);
  }

  lemma BlockGrows(base: string, b: string, p: nat, count: nat)
    requires p + count <= |b|
    ensures base + b[..p] + b[p..p + count] == base + b[..p + count]
  {
    assert b[..p] + b[p..p + count] == b[..p + count];
  }

  /** What root reads next is the next part of the block it has written. */
  lemma NextIsBlock(c: Config, s: State, count: nat)
    requires Inv(c, s) && s.root.Collect? && count <= |s.pipes[c.n]|
    ensures var b, x := s.root.block, s.root.check;
      |x| + count <= |b| && x + s.pipes[c.n][..count] == b[..|x| + count]
  {
    var b, x, base := s.root.block, s.root.check, s.fpos - |s.root.block|;
    RootGets(c, s, count);
    assert c.file[..s.fpos] == c.file[..base] + b;
    NextPart(c.file[..base], b, x, s.sent, s.got, s.pipes[c.n][..count]);
  }

  lemma NextPart(base: string, b: string, x: string, sent: string, got: string, bytes: string)
    requires sent == base + b && got <= sent && |got| == |base| + |x| && x <= b && |x| + |bytes| <= |b|
    requires bytes == sent[|got|..|got| + |bytes|]
    ensures x + bytes == b[..|x| + |bytes|] && got + bytes == sent[..|got| + |bytes|]
  {
    assert bytes == b[|x|..|x| + |bytes|];
  }

  lemma ReadKeepsRoot(c: Config, s: State, count: nat)
    requires Inv(c, s) && Enabled(c, s, RootRead(count))
    ensures RootOk(c, Next(c, s, RootRead(count)))
  {
    NextIsBlock(c, s, count);
    var base, x, bytes := c.file[..s.fpos - |s.root.block|], s.root.check, s.pipes[c.n][..count];
    assert base + x + bytes == base + (x + bytes);
  }

  lemma CompareKeepsRoot(c: Config, s: State)
    requires Inv(c, s) && Enabled(c, s, RootCompare)
    ensures RootOk(c, Next(c, s, RootCompare))
  {
    ComparesEqual(s.root.block, 0);
  }

  lemma {:induction false} ComparesEqual(b: string, i: nat)
    ensures SameFrom(b, b, |b|, i)
    decreases |b| - i
  {
    if i < |b| { ComparesEqual(b, i + 1); }
  }

  /** In general, strncmp takes a proper prefix for the whole block exactly when the block has
      a zero byte at or before the place where the prefix ends. */
  lemma {:induction false} ComparesExactly(b: string, x: string, i: nat)
    requires x <= b && i <= |x|
    ensures SameFrom(b, x, |b|, i) <==> x == b || exists j :: i <= j <= |x| && j < |b| && b[j] == '\0'
    decreases |x| - i
  {
    if i < |x| {
      ComparesExactly(b, x, i + 1);
      if x != b && b[i] != '\0' && SameFrom(b, x, |b|, i) {
        var j :| i + 1 <= j <= |x| && j < |b| && b[j] == '\0';
      }
    }
  }

  /** Bytes in a task's buffer have not reached root. */
  lemma {:induction false} BytesUnderWay(c: Config, s: State, k: nat)
    requires Flowing(c, s) && k < c.n
    ensures |s.got| + |Unsent(s.relay[k])| + |s.pipes[k + 1]| <= s.taken[k]
    decreases c.n - k
  {
    assert BufferOk(c, s, k) && PipeOk(c, s, k + 1);
    if k + 1 < c.n { BytesUnderWay(c, s, k + 1); }
  }

  /** With the subtraction that is meant, root takes back all it has sent before it closes fd_in,
      so that no task has anything to write after that. */
  lemma NothingBreaks(c: Config, s: State, k: nat)
    requires Inv(c, s)
    ensures !Enabled(c, s, RelayBroken(k))
  {
    if Enabled(c, s, RelayBroken(k)) {
      assert BufferOk(c, s, k);
      ReadableMeans(c, s, k);
      BytesUnderWay(c, s, k);
      assert false;
    }
  }

  lemma StepInv(c: Config, s: State, st: Step)
    requires Inv(c, s) && Enabled(c, s, st)
    ensures Inv(c, Next(c, s, st))
  {
    StepFlows(c, s, st);
    StepKeepsRoot(c, s, st);
    if st.RelayBroken? { NothingBreaks(c, s, st.k); }
  }
}
