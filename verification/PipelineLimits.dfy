/**
 Two limits of basics/hook_and_coe.c, as runs of its step machine: how much the pipes must hold
 for root, which writes a whole block before it reads any of it back, and how far the tasks'
 exits are ordered.
 */
module PipelineLimits {
  import opened Pipeline
  import opened PipelineResults
  import opened PipelineRuns

  // ----- jamming the pipeline -----

  /** Task i is left with bytes to write, and the pipe behind it is full. */
  predicate Full(c: Config, s: State, i: nat)
    requires Shaped(c, s) && i < c.n
  {
    s.relay[i].Writing? && |s.pipes[i + 1]| == c.cap
  }

  /** From pipe j on everything is full: the tasks behind it are left with bytes to write, and
      root has sent just as much as that takes. */
  predicate FullFrom(c: Config, s: State, j: nat) {
    && Clear(c, s, j) && s.root.pw == Hold(c.cap, c.n - j) - c.cap && Readers(s.rootTable, s.tables, c.n)
    && forall i :: j <= i < c.n ==> Full(c, s, i)
  }

  lemma {:induction false} Fill(c: Config, s: State, j: nat) returns (sts: seq<Step>)
    requires FullFrom(c, s, c.n) && j <= c.n
    requires 0 < c.cap < BUFSZ && Hold(c.cap, c.n) < |s.root.block|
    ensures Legal(c, s, sts) && Run(c, s, sts).root == Feed(s.root.block, Hold(c.cap, c.n - j) - c.cap)
    ensures FullFrom(c, Run(c, s, sts), j)
    decreases c.n - j
  {
    if j == c.n {
      sts := [];
    } else {
      sts := Fill(c, s, j + 1);
      HoldGrows(c.cap, c.n - j, c.n);
      var more := FillOne(c, Run(c, s, sts), j);
      Append(c, s, sts, more);
      sts := sts + more;
    }
  }

  lemma {:induction false} HoldGrows(cap: nat, i: nat, n: nat)
    requires i <= n
    ensures Hold(cap, i) <= Hold(cap, n)
  {
    if i < n { HoldGrows(cap, i, n - 1); }
  }

  /** Fills pipe j + 1, and then the buffer of task j with one byte. */
  lemma FillOne(c: Config, s: State, j: nat) returns (sts: seq<Step>)
    requires FullFrom(c, s, j + 1) && 0 < c.cap < BUFSZ && Hold(c.cap, c.n - j) < |s.root.block|
    ensures Legal(c, s, sts) && FullFrom(c, Run(c, s, sts), j) && Run(c, s, sts).root.block == s.root.block
  {
    var a := Push(c, s, j + 1, c.cap);
    var s1 := Run(c, s, a);
    assert Clear(c, s1, j);
    var b := Push(c, s1, j, 1);
    var s2 := Run(c, s1, b);
    One(c, s2, RelayRead(j, 1));
    FullAgain(c, s, s1, s2, j);
    Append(c, s1, b, [RelayRead(j, 1)]);
    Append(c, s, a, b + [RelayRead(j, 1)]);
    sts := a + (b + [RelayRead(j, 1)]);
  }

  lemma FullAgain(c: Config, s: State, s1: State, s2: State, j: nat)
    requires FullFrom(c, s, j + 1) && Clear(c, s1, j)
    requires s.root.pw + c.cap + 1 <= |s.root.block| && Pushed(c, s, s1, j + 1, c.cap) && Pushed(c, s1, s2, j, 1)
    requires Enabled(c, s2, RelayRead(j, 1)) && Hold(c.cap, c.n - j) <= |s.root.block|
    ensures FullFrom(c, Next(c, s2, RelayRead(j, 1)), j)
  {
    var t := Next(c, s2, RelayRead(j, 1));
    assert Hold(c.cap, c.n - j) == Hold(c.cap, c.n - (j + 1)) + 1 + c.cap;
    assert t.root == Feed(s.root.block, s.root.pw + c.cap + 1) && |t.pipes| == |s.pipes| && |t.relay| == c.n;
    assert |s1.pipes[j + 1]| == c.cap && |s2.pipes[j]| == 1 && t.pipes[j] == "";
    forall i | j <= i < c.n ensures Full(c, t, i) { if i > j { assert Full(c, s, i); } }
    forall i | 0 <= i <= j ensures t.pipes[i] == "" {
      if i < j { assert s1.pipes[i] == "" && t.pipes[i] == s1.pipes[i]; }
    }
    forall i | 0 <= i < j ensures t.relay[i] == Reading { assert s1.relay[i] == Reading && t.relay[i] == s1.relay[i]; }
    assert t.pipes[0] == "" && Clear(c, t, j);
  }

  predicate AllFull(c: Config, s: State) {
    && Shaped(c, s) && s.root.Feed? && s.root.pw < |s.root.block| && |s.pipes[0]| == c.cap
    && Readers(s.rootTable, s.tables, c.n)
    && forall i :: 0 <= i < c.n ==> Full(c, s, i)
  }

  /** With all pipes full and all tasks writing, root can write no more and nobody reads. */
  lemma FullIsStuck(c: Config, s: State)
    requires AllFull(c, s)
    ensures Stuck(c, s)
  {
    forall st ensures !Enabled(c, s, st) {
      if IsRelayStep(st) && st.k < c.n { assert Full(c, s, st.k); }
    }
  }

  lemma Wedge(c: Config, s: State) returns (sts: seq<Step>)
    requires Valid(c) && Initial(c, s) && !Roomy(c)
    ensures Legal(c, s, sts) && Stuck(c, Run(c, s, sts)) && Run(c, s, sts).root.Feed?
  {
    HoldGrows(c.cap, 0, c.n);
    InitialRest(c, s);
    var size := if |c.file| < BUFSZ then |c.file| else BUFSZ;
    assert Enabled(c, s, RootReadFile(size));
    One(c, s, RootReadFile(size));
    var s1 := Next(c, s, RootReadFile(size));
    assert Hold(c.cap, 0) == c.cap && FullFrom(c, s1, c.n);
    var a := Fill(c, s1, 0);
    var s2 := Run(c, s1, a);
    One(c, s2, RootWrite(c.cap));
    LastWrite(c, s2);
    Append(c, s1, a, [RootWrite(c.cap)]);
    Append(c, s, [RootReadFile(size)], a + [RootWrite(c.cap)]);
    sts := [RootReadFile(size)] + (a + [RootWrite(c.cap)]);
  }

  lemma LastWrite(c: Config, s: State)
    requires FullFrom(c, s, 0) && Enabled(c, s, RootWrite(c.cap)) && Hold(c.cap, c.n) < |s.root.block|
    ensures Next(c, s, RootWrite(c.cap)).root.Feed? && Stuck(c, Next(c, s, RootWrite(c.cap)))
  {
    FullAfterWrite(c, s);
    FullIsStuck(c, Next(c, s, RootWrite(c.cap)));
  }

  lemma FullAfterWrite(c: Config, s: State)
    requires FullFrom(c, s, 0) && Enabled(c, s, RootWrite(c.cap)) && Hold(c.cap, c.n) < |s.root.block|
    ensures AllFull(c, Next(c, s, RootWrite(c.cap)))
  {
    var t := Next(c, s, RootWrite(c.cap));
    assert t.relay == s.relay && |t.pipes| == |s.pipes|;
    assert |s.root.block[s.root.pw..s.root.pw + c.cap]| == c.cap && |t.pipes[0]| == c.cap;
    forall i | 0 <= i < c.n ensures Full(c, t, i) { assert Full(c, s, i) && t.pipes[i + 1] == s.pipes[i + 1]; }
  }

  /** The exact condition: every run that comes to a halt has delivered the file and seen all
      tasks exit if and only if the pipes and the tasks' buffers can take in what root writes
      before it first reads. */
  lemma DeliversExactlyIfRoomy(c: Config, s: State)
    requires Valid(c) && c.intended && Initial(c, s)
    ensures Roomy(c) <==> forall sts :: Legal(c, s, sts) && Stuck(c, Run(c, s, sts)) ==> Run(c, s, sts).root.Finished?
  {
    if Roomy(c) {
      forall sts | Legal(c, s, sts) && Stuck(c, Run(c, s, sts)) ensures Run(c, s, sts).root.Finished? {
        EveryRun(c, s, sts);
      }
    } else {
      var sts := Wedge(c, s);
      assert !Run(c, s, sts).root.Finished?;
    }
  }

  // ----- the order of the exits -----

  /** A task that comes to its exit does so only after all tasks ahead of it but the nearest, which
      has at least closed its output. */
  lemma ExitOrder(c: Config, s: State, k: nat)
    requires Flowing(c, s) && k < c.n && s.relay[k].Exited?
    ensures !OutOpen(s.root) && forall i :: 0 <= i < k ==> s.relay[i].Exited? || (i == k - 1 && s.relay[i].Closed1?)
  {
    assert CascadeOk(c, s, k);
  }

  predicate InOrder(s: State) {
    forall i, k :: 0 <= i < k < |s.relay| && Gone(s.relay[k]) ==> Gone(s.relay[i])
  }

  /** The exits are in order in every run only when there is nothing to order. */
  lemma InOrderExactlyIfAlone(c: Config, s: State)
    requires Valid(c) && Initial(c, s)
    ensures c.n == 1 <==> forall sts :: Legal(c, s, sts) ==> InOrder(Run(c, s, sts))
  {
    if c.n == 1 {
      forall sts | Legal(c, s, sts) ensures InOrder(Run(c, s, sts)) {
        InitialFlows(c, s);
        RunFlows(c, s, sts);
      }
    } else {
      var sts := Overtaken(c, s, 1);
      assert Gone(Run(c, s, sts).relay[1]) && !Gone(Run(c, s, sts).relay[0]);
    }
  }

  /** No more can be said than ExitOrder says: whatever the file, each task but the first can
      exit before the one ahead of it does. */
  lemma Overtaken(c: Config, s: State, k: nat) returns (sts: seq<Step>)
    requires Valid(c) && Initial(c, s) && 1 <= k < c.n
    ensures Legal(c, s, sts)
    ensures var t := Run(c, s, sts); |t.relay| == c.n && t.relay[k].Exited? && t.relay[k - 1].Closed1?
  {
    var a := Drain(c, s);
    var t := Run(c, s, a);
    var d := AllLeave(c, t, k - 1);
    var u := Run(c, t, d);
    var e := LeavePair(c, u, k);
    Append(c, t, d, e);
    Append(c, s, a, d + e);
    sts := a + (d + e);
  }

  /** Root gets all of the file back and closes its end of pipe 0. */
  lemma Drain(c: Config, s: State) returns (sts: seq<Step>)
    requires Valid(c) && Initial(c, s)
    ensures Legal(c, s, sts) && Draining(c, Run(c, s, sts), 0)
  {
    InitialFlows(c, s);
    InitialRest(c, s);
    var a := Deliver(c, s, |c.file|);
    var b := RootLeaves(c, Run(c, s, a));
    Append(c, s, a, b);
    RunFlows(c, s, a + b);
    sts := a + b;
  }

  /** Root has closed its end of pipe 0, and the first k tasks are gone or as good as gone. */
  ghost predicate Draining(c: Config, s: State, k: nat) {
    && Flowing(c, s) && s.root.CloseIn? && k <= c.n
    && (forall j :: 0 <= j <= c.n ==> s.pipes[j] == "")
    && (forall i :: 0 <= i < k ==> s.relay[i].Exited? || (i == k - 1 && s.relay[i].Closed1?))
    && (forall i :: k <= i < c.n ==> s.relay[i].Reading?)
  }

  lemma {:induction false} AllLeave(c: Config, s: State, k: nat) returns (sts: seq<Step>)
    requires Draining(c, s, 0) && k <= c.n
    ensures Legal(c, s, sts) && Draining(c, Run(c, s, sts), k)
    ensures forall i :: 0 <= i < k ==> Run(c, s, sts).relay[i].Exited?
  {
    if k == 0 {
      sts := [];
    } else {
      var a := AllLeave(c, s, k - 1);
      var t := Run(c, s, a);
      var b := Leave(c, t, k - 1);
      var u := Run(c, t, b);
      StepFlows(c, u, RelayExit(k - 1));
      One(c, u, RelayExit(k - 1));
      Append(c, t, b, [RelayExit(k - 1)]);
      Append(c, s, a, b + [RelayExit(k - 1)]);
      sts := a + (b + [RelayExit(k - 1)]);
    }
  }

  /** Task k - 1 closes its output, and task k leaves and exits before it. */
  lemma LeavePair(c: Config, s: State, k: nat) returns (sts: seq<Step>)
    requires 1 <= k < c.n && Draining(c, s, k - 1) && forall i :: 0 <= i < k - 1 ==> s.relay[i].Exited?
    ensures Legal(c, s, sts)
    ensures var t := Run(c, s, sts); |t.relay| == c.n && t.relay[k].Exited? && t.relay[k - 1].Closed1?
  {
    var a := Leave(c, s, k - 1);
    var t := Run(c, s, a);
    var b := Leave(c, t, k);
    One(c, Run(c, t, b), RelayExit(k));
    Append(c, t, b, [RelayExit(k)]);
    Append(c, s, a, b + [RelayExit(k)]);
    sts := a + (b + [RelayExit(k)]);
  }

  /** A task that sees the end of its input closes both its descriptors. */
  lemma Leave(c: Config, s: State, k: nat) returns (sts: seq<Step>)
    requires Draining(c, s, k) && k < c.n
    ensures Legal(c, s, sts)
    ensures var t := Run(c, s, sts); t.relay == s.relay[k := Closed1]
    ensures (forall i :: 0 <= i < k ==> s.relay[i].Exited?) ==> Draining(c, Run(c, s, sts), k + 1)
    ensures Flowing(c, Run(c, s, sts)) && Run(c, s, sts).root == s.root && Run(c, s, sts).pipes == s.pipes
  {
    NoWriterMeans(c, s, k);
    var s1 := Next(c, s, RelayEof(k));
    var s2 := Next(c, s1, RelayClose(k));
    var s3 := Next(c, s2, RelayClose(k));
    One(c, s2, RelayClose(k));
    Cons(c, s1, RelayClose(k), [RelayClose(k)]);
    Cons(c, s, RelayEof(k), [RelayClose(k)] + [RelayClose(k)]);
    sts := [RelayEof(k)] + ([RelayClose(k)] + [RelayClose(k)]);
    RunFlows(c, s, sts);
    assert s3.relay == s.relay[k := Closed1];
  }
}
