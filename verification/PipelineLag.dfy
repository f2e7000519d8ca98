/**
 What comes of line 225 of basics/hook_and_coe.c as it is written: once root has read back less
 than a block, the rest stays on its way for good. Either a later block does not compare, or
 root closes fd_in with bytes still coming and the last task is ended by SIGPIPE.
 */
module PipelineLag {
  import opened Pipeline
  import opened PipelineRuns
  import opened PipelineAsWritten

  /** No comparison has failed, and no task has met a broken pipe. */
  predicate Clean(s: State) { !s.root.Mismatch? && NobodyKilled(s) }

  // ----- files of at most one byte -----

  /** A single byte that root has sent, it has got back before it closes anything. */
  lemma TinyBreaksNothing(c: Config, s: State, k: nat)
    requires |c.file| <= 1 && Flowing(c, s) && RootCalm(c, s)
    ensures !Enabled(c, s, RelayBroken(k))
  {
    if Enabled(c, s, RelayBroken(k)) {
      assert BufferOk(c, s, k);
      ReadableMeans(c, s, k);
      BytesUnderWay(c, s, k);
      assert false;
    }
  }

  lemma {:induction false} TinyRun(c: Config, s: State, sts: seq<Step>)
    requires |c.file| <= 1 && !c.intended && Flowing(c, s) && RootCalm(c, s) && NobodyKilled(s) && Legal(c, s, sts)
    ensures Clean(Run(c, s, sts))
    decreases |sts|
  {
    if sts == [] {
    } else {
      CalmStep(c, s, sts[0]);
      StepFlows(c, s, sts[0]);
      if sts[0].RelayBroken? { TinyBreaksNothing(c, s, sts[0].k); }
      TinyRun(c, Next(c, s, sts[0]), sts[1..]);
    }
  }

  // ----- reading the file in whole blocks -----

  function Min(a: nat, b: nat): nat { if a < b then a else b }

  /** Every read of the file returns m bytes, or what is left of the file if that is less. */
  predicate Whole(c: Config, s: State, sts: seq<Step>, m: nat)
    requires Legal(c, s, sts)
    decreases |sts|
  {
    sts == [] ||
      ((sts[0].RootReadFile? ==> sts[0].count == Min(m, |c.file| - s.fpos))
       && Whole(c, Next(c, s, sts[0]), sts[1..], m))
  }

  lemma {:induction false} WholeAppend(c: Config, s: State, a: seq<Step>, b: seq<Step>, m: nat)
    requires Legal(c, s, a) && Legal(c, Run(c, s, a), b) && Whole(c, s, a, m) && Whole(c, Run(c, s, a), b, m)
    ensures Legal(c, s, a + b) && Whole(c, s, a + b, m)
    decreases |a|
  {
    Append(c, s, a, b);
    if a == [] {
      assert a + b == b;
    } else {
      assert (a + b)[0] == a[0] && (a + b)[1..] == a[1..] + b;
      WholeAppend(c, Next(c, s, a[0]), a[1..], b, m);
    }
  }

  lemma {:induction false} FposGrows(c: Config, s: State, sts: seq<Step>)
    requires Legal(c, s, sts)
    ensures s.fpos <= Run(c, s, sts).fpos
    decreases |sts|
  {
    if sts == [] {
    } else {
      FposGrows(c, Next(c, s, sts[0]), sts[1..]);
    }
  }

  /** A run that leaves the file where it is reads nothing of it. */
  lemma {:induction false} NothingRead(c: Config, s: State, sts: seq<Step>, m: nat)
    requires Legal(c, s, sts) && Run(c, s, sts).fpos == s.fpos
    ensures Whole(c, s, sts, m)
    decreases |sts|
  {
    if sts == [] {
    } else {
      FposGrows(c, Next(c, s, sts[0]), sts[1..]);
      NothingRead(c, Next(c, s, sts[0]), sts[1..], m);
    }
  }

  /** A run that reads the file once, and at once. */
  lemma OneRead(c: Config, s: State, sts: seq<Step>, m: nat)
    requires Legal(c, s, sts) && s.fpos <= |c.file| && sts != [] && sts[0] == RootReadFile(Min(m, |c.file| - s.fpos))
    requires Run(c, s, sts).fpos == s.fpos + sts[0].count
    ensures Whole(c, s, sts, m)
  {
    NothingRead(c, Next(c, s, sts[0]), sts[1..], m);
  }

  lemma ReadAfter(c: Config, s: State, a: seq<Step>, b: seq<Step>, m: nat)
    requires Legal(c, s, a) && Run(c, s, a).fpos == s.fpos && Legal(c, Run(c, s, a), b)
    requires s.fpos <= |c.file| && b != [] && b[0] == RootReadFile(Min(m, |c.file| - s.fpos))
    requires Run(c, Run(c, s, a), b).fpos == s.fpos + b[0].count
    ensures Legal(c, s, a + b) && Run(c, s, a + b) == Run(c, Run(c, s, a), b) && Whole(c, s, a + b, m)
  {
    NothingRead(c, s, a, m);
    OneRead(c, Run(c, s, a), b, m);
    WholeAppend(c, s, a, b, m);
    Append(c, s, a, b);
  }

  // ----- what stays behind -----

  /** A block of up to m bytes fits in a pipe. */
  predicate Fits(c: Config, m: nat) { 1 <= m <= BUFSZ && Min(m, |c.file|) <= c.cap }

  /** Root is done with a block, with no mismatch, but there are bytes left in pipe 0. */
  predicate Lagging(c: Config, s: State, m: nat) {
    && c.n > 0 && Quiet(c, s, c.n - 1) && s.root.ReadFile? && s.fpos <= |c.file|
    && s.relay[c.n - 1] == Reading && Readers(s.rootTable, s.tables, c.n)
    && 1 <= |s.pipes[0]| <= Min(m, |c.file|) && (s.fpos < |c.file| ==> s.pipes[c.n] == "")
  }

  /** With the first block: either its comparison fails, or all but its first byte stay behind. */
  lemma FirstLag(c: Config, s: State, m: nat, size: nat) returns (sts: seq<Step>)
    requires AtRest(c, s) && Valid(c) && !c.intended && Fits(c, m) && s.fpos == 0
    requires 2 <= size <= |c.file| && size <= BUFSZ && size <= m + 1
    ensures Legal(c, s, sts) && sts != [] && sts[0] == RootReadFile(size)
    ensures var t, b := Run(c, s, sts), c.file[..size];
      && t.fpos == size
      && if SameFrom(b, b[..1], size, 0) then Lagging(c, t, m) else t.root.Mismatch?
  {
    sts := ShortRead(c, s, size);
    assert c.file[0..size] == c.file[..size];
  }

  /** With any other block: what was left behind is read back in its place, and now the block
      stays behind. */
  lemma LagOn(c: Config, s: State, m: nat) returns (sts: seq<Step>)
    requires Lagging(c, s, m) && Valid(c) && !c.intended && Fits(c, m) && s.fpos < |c.file|
    ensures Legal(c, s, sts) && Whole(c, s, sts, m)
    ensures var t := Run(c, s, sts); (t.root.Mismatch? || Lagging(c, t, m)) && s.fpos < t.fpos <= |c.file|
  {
    var size, left := Min(m, |c.file| - s.fpos), s.pipes[0];
    var a := Carry(c, s, c.n);
    var t := Run(c, s, a);
    var b := NextBlock(c, t, size, Min(size, |left|));
    ReadAfter(c, s, a, b, m);
    sts := a + b;
    StillLags(c, s, t, Run(c, t, b), m);
  }

  lemma StillLags(c: Config, s: State, s2: State, t: State, m: nat)
    requires Lagging(c, s, m) && Fits(c, m) && s.fpos < |c.file|
    requires var size := Min(m, |c.file| - s.fpos);
      && Shaped(c, t) && s2.pipes == s.pipes[0 := ""][c.n := s.pipes[0]]
      && t.pipes == s2.pipes[0 := c.file[s.fpos..s.fpos + size]][c.n := s.pipes[0][Min(size, |s.pipes[0]|)..]]
      && t.fpos == s.fpos + size && t.relay == s.relay && SameTables(s, t)
    ensures t.root.ReadFile? ==> Lagging(c, t, m)
  {
    assert forall i :: 1 <= i < c.n ==> t.pipes[i] == s.pipes[i];
  }

  lemma {:induction false} LagToEnd(c: Config, s: State, m: nat) returns (sts: seq<Step>)
    requires Lagging(c, s, m) && Valid(c) && !c.intended && Fits(c, m)
    ensures Legal(c, s, sts) && Whole(c, s, sts, m)
    ensures var t := Run(c, s, sts); t.root.Mismatch? || (Lagging(c, t, m) && t.fpos == |c.file|)
    decreases |c.file| - s.fpos
  {
    if s.fpos == |c.file| {
      sts := [];
    } else {
      sts := LagOn(c, s, m);
      var t := Run(c, s, sts);
      if !t.root.Mismatch? {
        var rest := LagToEnd(c, t, m);
        WholeAppend(c, s, sts, rest, m);
        Append(c, s, sts, rest);
        sts := sts + rest;
      }
    }
  }

  // ----- SIGPIPE -----

  /** At the end root closes all it has, and what was left behind comes to the last task. */
  lemma LastTaskReads(c: Config, s: State, m: nat) returns (sts: seq<Step>)
    requires Lagging(c, s, m) && Fits(c, m) && s.fpos == |c.file| && Flowing(c, s)
    ensures Legal(c, s, sts)
    ensures var t := Run(c, s, sts);
      Shaped(c, t) && t.fpos == s.fpos && t.root == Wait(0) && t.relay[c.n - 1].Writing?
  {
    var a := RootLeaves(c, s);
    var s1 := Run(c, s, a);
    One(c, s1, RootClose);
    Append(c, s, a, [RootClose]);
    a := a + [RootClose];
    var s2 := Run(c, s, a);
    RunFlows(c, s, a);
    AllReadable(c, s2, c.n - 1);
    var b := Carry(c, s2, c.n - 1);
    var s3 := Run(c, s2, b);
    var st := RelayRead(c.n - 1, |s.pipes[0]|);
    One(c, s3, st);
    Append(c, s2, b, [st]);
    Append(c, s, a, b + [st]);
    sts := a + (b + [st]);
  }

  lemma LagBreaks(c: Config, s: State, m: nat) returns (sts: seq<Step>)
    requires Lagging(c, s, m) && Fits(c, m) && s.fpos == |c.file| && Flowing(c, s)
    ensures Legal(c, s, sts) && Whole(c, s, sts, m) && !Clean(Run(c, s, sts))
  {
    var a := LastTaskReads(c, s, m);
    RunFlows(c, s, a);
    var t := Run(c, s, a);
    ReadableMeans(c, t, c.n - 1);
    One(c, t, RelayBroken(c.n - 1));
    Append(c, s, a, [RelayBroken(c.n - 1)]);
    sts := a + [RelayBroken(c.n - 1)];
    NothingRead(c, s, sts, m);
    assert Run(c, s, sts).relay[c.n - 1].Killed?;
  }

  // ----- all files of two bytes or more -----

  /** A run of the first block, of the other blocks, and of the end. */
  lemma GoesWrong(c: Config, s: State, m: nat) returns (sts: seq<Step>)
    requires Valid(c) && !c.intended && Initial(c, s) && |c.file| >= 2 && Fits(c, m)
    ensures Legal(c, s, sts) && !Clean(Run(c, s, sts)) && (m >= 2 ==> Whole(c, s, sts, m))
  {
    InitialRest(c, s);
    InitialFlows(c, s);
    var size := if m == 1 then 2 else Min(m, |c.file|);
    sts := FirstLag(c, s, m, size);
    if m >= 2 { OneRead(c, s, sts, m); }
    var t := Run(c, s, sts);
    if !t.root.Mismatch? {
      RunFlows(c, s, sts);
      var rest := FromLag(c, t, m);
      if m >= 2 { WholeAppend(c, s, sts, rest, m); }
      Append(c, s, sts, rest);
      sts := sts + rest;
    }
  }

  lemma FromLag(c: Config, s: State, m: nat) returns (sts: seq<Step>)
    requires Lagging(c, s, m) && Valid(c) && !c.intended && Fits(c, m) && Flowing(c, s)
    ensures Legal(c, s, sts) && Whole(c, s, sts, m) && !Clean(Run(c, s, sts))
  {
    sts := LagToEnd(c, s, m);
    var t := Run(c, s, sts);
    if !t.root.Mismatch? {
      RunFlows(c, s, sts);
      var rest := LagBreaks(c, t, m);
      WholeAppend(c, s, sts, rest, m);
      Append(c, s, sts, rest);
      sts := sts + rest;
    }
  }

  /** The exact condition for line 225 to do no harm. In whole blocks or in any pieces, all runs
      on a file are clean if and only if it has at most one byte. */
  lemma CleanExactlyIfTiny(c: Config, s: State)
    requires Valid(c) && !c.intended && Initial(c, s)
    ensures |c.file| <= 1 <==> forall sts :: Legal(c, s, sts) ==> Clean(Run(c, s, sts))
  {
    if |c.file| <= 1 {
      TinyIsClean(c, s);
    } else {
      var sts := GoesWrong(c, s, 1);
      assert !Clean(Run(c, s, sts));
    }
  }

  lemma TinyIsClean(c: Config, s: State)
    requires Valid(c) && !c.intended && Initial(c, s) && |c.file| <= 1
    ensures forall sts :: Legal(c, s, sts) ==> Clean(Run(c, s, sts))
  {
    InitialFlows(c, s);
    forall sts | Legal(c, s, sts) ensures Clean(Run(c, s, sts)) { TinyRun(c, s, sts); }
  }

  /** The same with every read of the file returning a whole block, for pipes that hold one. */
  lemma WholeCleanExactlyIfTiny(c: Config, s: State)
    requires Valid(c) && !c.intended && Initial(c, s) && Fits(c, BUFSZ)
    ensures |c.file| <= 1 <==> forall sts :: Legal(c, s, sts) && Whole(c, s, sts, BUFSZ) ==> Clean(Run(c, s, sts))
  {
    if |c.file| <= 1 {
      TinyIsClean(c, s);
    } else {
      var sts := GoesWrong(c, s, BUFSZ);
      assert Whole(c, s, sts, BUFSZ) && !Clean(Run(c, s, sts));
    }
  }

  /** A text of two bytes or more can fail its very first comparison, with whole blocks, too. */
  lemma TextFails(c: Config, s: State) returns (sts: seq<Step>)
    requires Valid(c) && !c.intended && Initial(c, s) && Fits(c, BUFSZ) && |c.file| >= 2 && '\0' !in c.file
    ensures Legal(c, s, sts) && Whole(c, s, sts, BUFSZ) && Run(c, s, sts).root.Mismatch?
  {
    InitialRest(c, s);
    var b := c.file[..Min(BUFSZ, |c.file|)];
    sts := FirstLag(c, s, BUFSZ, |b|);
    OneRead(c, s, sts, BUFSZ);
    ComparesExactly(b, b[..1], 0);
    assert forall j :: 0 <= j < |b| ==> b[j] in c.file;
  }
}
