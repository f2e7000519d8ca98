/** Runs of the pipeline's step machine, put together from smaller ones. */
module PipelineRuns {
  import opened FdTables
  import opened Pipeline

  lemma {:induction false} Append(c: Config, s: State, a: seq<Step>, b: seq<Step>)
    requires Legal(c, s, a) && Legal(c, Run(c, s, a), b)
    ensures Legal(c, s, a + b) && Run(c, s, a + b) == Run(c, Run(c, s, a), b)
    decreases |a|
  {
    if a == [] {
      assert a + b == b;
    } else {
      assert (a + b)[0] == a[0] && (a + b)[1..] == a[1..] + b;
      Append(c, Next(c, s, a[0]), a[1..], b);
    }
  }

  lemma One(c: Config, s: State, st: Step)
    requires Enabled(c, s, st)
    ensures Legal(c, s, [st]) && Run(c, s, [st]) == Next(c, s, st)
  {
    assert [st][1..] == [];
    assert Run(c, s, [st]) == Run(c, Next(c, s, st), []);
  }

  lemma Cons(c: Config, s: State, st: Step, rest: seq<Step>)
    requires Enabled(c, s, st) && Legal(c, Next(c, s, st), rest)
    ensures Legal(c, s, [st] + rest) && Run(c, s, [st] + rest) == Run(c, Next(c, s, st), rest)
  {
    assert ([st] + rest)[1..] == rest;
  }

  // ----- moving bytes down the pipeline -----

  predicate Readers(root: Table, tasks: seq<Table>, j: nat) {
    forall i :: 1 <= i <= j ==> Readable(root, tasks, i)
  }

  /** The pipes from 1 to j are empty and have readers, and the tasks ahead of pipe j wait for
      input. */
  predicate Quiet(c: Config, s: State, j: nat) {
    && Shaped(c, s) && !s.root.Mismatch? && j <= c.n
    && (forall i :: 1 <= i <= j ==> s.pipes[i] == "") && (forall i :: 0 <= i < j ==> s.relay[i] == Reading)
    && Readers(s.rootTable, s.tables, j)
  }

  /** What was in pipe 0 is in pipe j now, and nothing else is different. */
  predicate Carried(c: Config, s: State, t: State, j: nat)
    requires Shaped(c, s) && j <= c.n
  {
    && t.pipes == s.pipes[0 := ""][j := s.pipes[0]]
    && t == s.(pipes := t.pipes, taken := t.taken, given := t.given)
    && |t.taken| == |t.given| == c.n
  }

  lemma {:induction false} Carry(c: Config, s: State, j: nat) returns (sts: seq<Step>)
    requires Quiet(c, s, j) && 1 <= |s.pipes[0]| <= c.cap && |s.pipes[0]| <= BUFSZ
    ensures Legal(c, s, sts) && Carried(c, s, Run(c, s, sts), j)
  {
    if j == 0 {
      sts := [];
    } else {
      sts := Carry(c, s, j - 1);
      var t := Run(c, s, sts);
      var hop := Hop(c, t, j - 1);
      Append(c, s, sts, hop);
      sts := sts + hop;
      assert Run(c, s, sts).pipes == s.pipes[0 := ""][j := s.pipes[0]];
    }
  }

  /** Task k reads all of its pipe and writes it on. */
  lemma Hop(c: Config, s: State, k: nat) returns (sts: seq<Step>)
    requires Shaped(c, s) && !s.root.Mismatch? && k < c.n && s.relay[k] == Reading && s.pipes[k + 1] == ""
    requires Readable(s.rootTable, s.tables, k + 1)
    requires 1 <= |s.pipes[k]| <= c.cap && |s.pipes[k]| <= BUFSZ
    ensures Legal(c, s, sts)
    ensures var t := Run(c, s, sts);
      && t.pipes == s.pipes[k := ""][k + 1 := s.pipes[k]]
      && t == s.(pipes := t.pipes, taken := t.taken, given := t.given)
      && |t.taken| == |t.given| == c.n
  {
    var count := |s.pipes[k]|;
    assert s.pipes[k][..count] == s.pipes[k] && s.pipes[k][count..] == "";
    var s1 := Next(c, s, RelayRead(k, count));
    assert s1.relay[k] == Writing(s.pipes[k], 0) && s1.pipes[k + 1] == "";
    var s2 := Next(c, s1, RelayWrite(k, count));
    One(c, s1, RelayWrite(k, count));
    Cons(c, s, RelayRead(k, count), [RelayWrite(k, count)]);
    sts := [RelayRead(k, count)] + [RelayWrite(k, count)];
    assert s2.relay == s.relay && s2.pipes[k + 1] == s.pipes[k];
  }

  /** Root feeds, and everything up to pipe j is idle and empty. */
  predicate Clear(c: Config, s: State, j: nat) {
    Quiet(c, s, j) && s.root.Feed? && s.root.pw <= |s.root.block| && s.pipes[0] == ""
  }

  /** The next `count` bytes of root's block have moved to pipe j. */
  predicate Pushed(c: Config, s: State, t: State, j: nat, count: nat)
    requires Clear(c, s, j) && s.root.pw + count <= |s.root.block|
  {
    && t.pipes == s.pipes[j := s.root.block[s.root.pw..s.root.pw + count]]
    && t.root == Feed(s.root.block, s.root.pw + count)
    && t == s.(root := t.root, sent := t.sent, pipes := t.pipes, taken := t.taken, given := t.given)
    && |t.taken| == |t.given| == c.n
  }

  lemma Push(c: Config, s: State, j: nat, count: nat) returns (sts: seq<Step>)
    requires Clear(c, s, j) && 1 <= count <= c.cap && count <= BUFSZ && s.root.pw + count <= |s.root.block|
    ensures Legal(c, s, sts) && Pushed(c, s, Run(c, s, sts), j, count)
  {
    var s1 := Next(c, s, RootWrite(count));
    var bytes := s.root.block[s.root.pw..s.root.pw + count];
    assert s1.pipes[0] == bytes;
    var a := Carry(c, s1, j);
    Cons(c, s, RootWrite(count), a);
    sts := [RootWrite(count)] + a;
    assert Run(c, s, sts).pipes == s.pipes[j := bytes];
  }

  // ----- delivering a file byte by byte -----

  /** Root is between two blocks, and nothing is on its way. */
  predicate AtRest(c: Config, s: State) {
    && Quiet(c, s, c.n) && s.root.ReadFile? && s.pipes[0] == "" && s.fpos <= |c.file|
  }

  lemma AllReadable(c: Config, s: State, j: nat)
    requires Flowing(c, s) && j <= c.n && (j == c.n ==> InOpen(s.root)) && forall i :: 0 <= i < j ==> !Gone(s.relay[i])
    ensures Readers(s.rootTable, s.tables, j)
  {
    forall i | 1 <= i <= j ensures Readable(s.rootTable, s.tables, i) { ReadableMeans(c, s, i - 1); }
  }

  lemma InitialRest(c: Config, s: State)
    requires Initial(c, s)
    ensures AtRest(c, s)
  {
    InitialFlows(c, s);
    AllReadable(c, s, c.n);
  }

  lemma {:induction false} Deliver(c: Config, s: State, count: nat) returns (sts: seq<Step>)
    requires AtRest(c, s) && c.cap > 0 && s.fpos + count <= |c.file|
    ensures Legal(c, s, sts)
    ensures var t := Run(c, s, sts); AtRest(c, t) && t.fpos == s.fpos + count && t.relay == s.relay
    decreases count
  {
    if count == 0 {
      sts := [];
    } else {
      var a := DeliverByte(c, s);
      var b := Deliver(c, Run(c, s, a), count - 1);
      Append(c, s, a, b);
      sts := a + b;
    }
  }

  lemma DeliverByte(c: Config, s: State) returns (sts: seq<Step>)
    requires AtRest(c, s) && c.cap > 0 && s.fpos < |c.file|
    ensures Legal(c, s, sts)
    ensures var t := Run(c, s, sts); AtRest(c, t) && t.fpos == s.fpos + 1 && t.relay == s.relay
  {
    var s1 := Next(c, s, RootReadFile(1));
    var a := Push(c, s1, c.n, 1);
    var s2 := Run(c, s1, a);
    var b := TakeByte(c, s2);
    Append(c, s1, a, b);
    Cons(c, s, RootReadFile(1), a + b);
    sts := [RootReadFile(1)] + (a + b);
  }

  /** Root reads back the one byte of its block. */
  lemma TakeByte(c: Config, s: State) returns (sts: seq<Step>)
    requires Shaped(c, s) && s.root.Feed? && |s.root.block| == 1 && s.root.pw == 1 && s.pipes[c.n] == s.root.block
    ensures Legal(c, s, sts)
    ensures var t := Run(c, s, sts);
      && t.pipes == s.pipes[c.n := ""] && t.got == s.got + s.pipes[c.n]
      && t == s.(root := ReadFile, pipes := t.pipes, got := t.got)
  {
    var b := s.root.block;
    assert b[..1] == b && b[1..] == "";
    var s1 := Next(c, s, RootFed);
    var s2 := Next(c, s1, RootRead(1));
    assert s2.root.check == b;
    var s3 := Next(c, s2, RootCollected);
    ComparesEqual(b, 0);
    One(c, s3, RootCompare);
    Cons(c, s2, RootCollected, [RootCompare]);
    Cons(c, s1, RootRead(1), [RootCollected] + [RootCompare]);
    Cons(c, s, RootFed, [RootRead(1)] + ([RootCollected] + [RootCompare]));
    sts := [RootFed] + ([RootRead(1)] + ([RootCollected] + [RootCompare]));
  }

  /** At the end of the file root closes it, and then its end of pipe 0. */
  lemma RootLeaves(c: Config, s: State) returns (sts: seq<Step>)
    requires Shaped(c, s) && s.root.ReadFile? && s.fpos == |c.file|
    ensures Legal(c, s, sts)
    ensures var t := Run(c, s, sts);
      Shaped(c, t) && t.root == CloseIn && t.pipes == s.pipes && t.relay == s.relay && t.fpos == s.fpos
  {
    var s1 := Next(c, s, RootEof);
    var s2 := Next(c, s1, RootClose);
    One(c, s2, RootClose);
    Cons(c, s1, RootClose, [RootClose]);
    Cons(c, s, RootEof, [RootClose] + [RootClose]);
    sts := [RootEof] + ([RootClose] + [RootClose]);
  }
}
