/**
 The main results about basics/seek.c, for every number of tasks and iterations and every
 schedule: the two compile-time variants allow exactly the same traces of calls on the
 shared file, and every run of either is finite, fails no CHECK and leaves nobody behind.
 */
module SeekVariants {
  import opened T = SeekTurns
  import B = SeekBarrier
  import S = SeekSync
  import R = SeekRecords
  import I = SeekStdin
  import O = SeekOpening

  ghost predicate TurnTrace(c: Config, w: World, tr: seq<Event>) {
    exists chs :: T.Legal(c, Start(w), chs) && T.Trace(chs) == tr
  }

  ghost predicate BarrierTrace(c: Config, w: World, tr: seq<Event>) {
    exists sts :: B.Legal(c, B.Initial(c, w), sts) && B.Trace(sts) == tr
  }

  ghost predicate SyncTrace(c: Config, w: World, tr: seq<Event>) {
    exists sts :: S.Legal(c, S.Initial(c, w), sts) && S.Trace(sts) == tr
  }

  lemma BarrierRefinesTurns(c: Config, w: World, tr: seq<Event>)
    requires WorldOk(c, w)
    ensures BarrierTrace(c, w, tr) <==> TurnTrace(c, w, tr)
  {
    var s := B.Initial(c, w);
    B.InitialInv(c, w);
    if BarrierTrace(c, w, tr) {
      var sts :| B.Legal(c, s, sts) && B.Trace(sts) == tr;
      B.RunRefines(c, s, sts);
      assert T.Legal(c, Start(w), B.Images(sts));
    }
    if TurnTrace(c, w, tr) {
      var chs :| T.Legal(c, Start(w), chs) && T.Trace(chs) == tr;
      var sts := B.RunRealised(c, s, chs);
      assert B.Trace(sts) == tr;
    }
  }

  lemma SyncRefinesTurns(c: Config, w: World, tr: seq<Event>)
    requires WorldOk(c, w)
    ensures SyncTrace(c, w, tr) <==> TurnTrace(c, w, tr)
  {
    var s := S.Initial(c, w);
    S.InitialInv(c, w);
    if SyncTrace(c, w, tr) {
      var sts :| S.Legal(c, s, sts) && S.Trace(sts) == tr;
      S.RunRefines(c, s, sts);
      assert T.Legal(c, Start(w), S.Images(sts));
    }
    if TurnTrace(c, w, tr) {
      var chs :| T.Legal(c, Start(w), chs) && T.Trace(chs) == tr;
      var sts := S.RunRealised(c, s, chs);
      assert S.Trace(sts) == tr;
    }
  }

  /** In every mode, the barrier variant and the `sync` variant allow the same traces. */
  lemma VariantsAgree(c: Config, w: World, tr: seq<Event>)
    requires WorldOk(c, w)
    ensures BarrierTrace(c, w, tr) <==> SyncTrace(c, w, tr)
  {
    BarrierRefinesTurns(c, w, tr);
    SyncRefinesTurns(c, w, tr);
  }

  /** File mode with the barrier: whatever the schedule and the sizes of the transfers, no
      CHECK fails; and when nothing can move any more, everybody has returned, the file holds
      every record in order, and all of it has been read back. */
  lemma BarrierFileMode(c: Config, w: World, sts: seq<B.Step>)
    requires Valid(c) && c.mode.FileMode? && c.niters > 0 && InitialWorld(c, w)
    requires B.Legal(c, B.Initial(c, w), sts)
    ensures var s := B.Run(c, B.Initial(c, w), sts);
      && !s.failed
      && |sts| <= B.Rank(c, B.Initial(c, w))
      && (B.Stuck(c, s) ==> B.AllDone(s) && s.world.contents == R.Times(R.Concat(c.records), c.niters)
                            && s.world.offset == |s.world.contents|)
  {
    var s0 := B.Initial(c, w);
    B.InitialInv(c, w);
    B.RunRefines(c, s0, sts);
    B.RunBounded(c, s0, sts);
    R.FileModeReadsBack(c, w, B.Images(sts));
    R.FileIs(c);
    var s := B.Run(c, s0, sts);
    if B.Stuck(c, s) { B.NobodyLeftBehind(c, s); }
  }

  lemma SyncFileMode(c: Config, w: World, sts: seq<S.Step>)
    requires Valid(c) && c.mode.FileMode? && c.niters > 0 && InitialWorld(c, w)
    requires S.Legal(c, S.Initial(c, w), sts)
    ensures var s := S.Run(c, S.Initial(c, w), sts);
      && !s.failed
      && |sts| <= S.Rank(c, S.Initial(c, w))
      && (S.Stuck(c, s) ==> S.AllDone(s) && s.world.contents == R.Times(R.Concat(c.records), c.niters)
                            && s.world.offset == |s.world.contents|)
  {
    var s0 := S.Initial(c, w);
    S.InitialInv(c, w);
    S.RunRefines(c, s0, sts);
    S.RunBounded(c, s0, sts);
    R.FileModeReadsBack(c, w, S.Images(sts));
    R.FileIs(c);
    var s := S.Run(c, s0, sts);
    if S.Stuck(c, s) { S.NobodyLeftSpinning(c, s); }
  }

  /** Root's record, and then those of the tasks, niters times. */
  function WholeStream(c: Config): string
    requires |c.records| > 0
  {
    c.records[0] + R.Times(R.Concat(c.records[1..]), c.niters)
  }

  /** `seek stdout` ends with the whole stream on its output, with the barrier ... */
  lemma BarrierStdoutMode(c: Config, calls: seq<O.Call>, w: World, sts: seq<B.Step>)
    requires Valid(c) && c.mode.StdoutMode? && O.OpensTo(c, "", calls, w) && B.Legal(c, B.Initial(c, w), sts)
    ensures WorldOk(c, w) && |sts| <= B.Rank(c, B.Initial(c, w))
    ensures var s := B.Run(c, B.Initial(c, w), sts);
      !s.failed && (B.Stuck(c, s) ==> B.AllDone(s) && s.world.contents == WholeStream(c))
  {
    var s0 := B.Initial(c, w);
    O.StdoutOpens(c, calls, w);
    B.InitialInv(c, w);
    B.RunRefines(c, s0, sts);
    B.RunBounded(c, s0, sts);
    R.StdoutWritesStream(c, w, B.Images(sts));
    R.NeedIs(c);
    var s := B.Run(c, s0, sts);
    if B.Stuck(c, s) { B.NobodyLeftBehind(c, s); }
  }

  /** ... and with the counter token. */
  lemma SyncStdoutMode(c: Config, calls: seq<O.Call>, w: World, sts: seq<S.Step>)
    requires Valid(c) && c.mode.StdoutMode? && O.OpensTo(c, "", calls, w) && S.Legal(c, S.Initial(c, w), sts)
    ensures WorldOk(c, w) && |sts| <= S.Rank(c, S.Initial(c, w))
    ensures var s := S.Run(c, S.Initial(c, w), sts);
      !s.failed && (S.Stuck(c, s) ==> S.AllDone(s) && s.world.contents == WholeStream(c))
  {
    var s0 := S.Initial(c, w);
    O.StdoutOpens(c, calls, w);
    S.InitialInv(c, w);
    S.RunRefines(c, s0, sts);
    S.RunBounded(c, s0, sts);
    R.StdoutWritesStream(c, w, S.Images(sts));
    R.NeedIs(c);
    var s := S.Run(c, s0, sts);
    if S.Stuck(c, s) { S.NobodyLeftSpinning(c, s); }
  }

  /** `seek stdin`: a run that can do no more has returned from root and every task without a
      failed CHECK exactly when its input is acceptable, with the barrier ... */
  lemma BarrierStdinMode(c: Config, input: string, calls: seq<O.Call>, w: World, sts: seq<B.Step>)
    requires I.Setting(c) && O.OpensTo(c, input, calls, w)
    requires O.RootPasses(c, w) ==> B.Legal(c, B.Initial(c, w), sts) && B.Stuck(c, B.Run(c, B.Initial(c, w), sts))
    ensures O.RootPasses(c, w) && !B.Run(c, B.Initial(c, w), sts).failed <==> I.Accepts(c, input)
    ensures O.RootPasses(c, w) && !B.Run(c, B.Initial(c, w), sts).failed ==> B.AllDone(B.Run(c, B.Initial(c, w), sts))
  {
    O.StdinOpens(c, input, calls, w);
    if O.RootPasses(c, w) {
      var s0 := B.Initial(c, w);
      B.InitialInv(c, w);
      B.RunRefines(c, s0, sts);
      if !B.Run(c, s0, sts).failed { B.NobodyLeftBehind(c, B.Run(c, s0, sts)); }
    }
    O.PassesExactlyIfAccepted(c, input, calls, w, B.Images(sts));
  }

  /** ... and with the counter token. */
  lemma SyncStdinMode(c: Config, input: string, calls: seq<O.Call>, w: World, sts: seq<S.Step>)
    requires I.Setting(c) && O.OpensTo(c, input, calls, w)
    requires O.RootPasses(c, w) ==> S.Legal(c, S.Initial(c, w), sts) && S.Stuck(c, S.Run(c, S.Initial(c, w), sts))
    ensures O.RootPasses(c, w) && !S.Run(c, S.Initial(c, w), sts).failed <==> I.Accepts(c, input)
    ensures O.RootPasses(c, w) && !S.Run(c, S.Initial(c, w), sts).failed ==> S.AllDone(S.Run(c, S.Initial(c, w), sts))
  {
    O.StdinOpens(c, input, calls, w);
    if O.RootPasses(c, w) {
      var s0 := S.Initial(c, w);
      S.InitialInv(c, w);
      S.RunRefines(c, s0, sts);
      if !S.Run(c, s0, sts).failed { S.NobodyLeftSpinning(c, S.Run(c, s0, sts)); }
    }
    O.PassesExactlyIfAccepted(c, input, calls, w, S.Images(sts));
  }
}
