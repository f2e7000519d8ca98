/**
 How basics/seek.c begins in its stream modes: before it spawns any task, root writes its record
 to standard output, or reads one from standard input and compares it. With this, the results
 about the tasks hold for whatever is on standard input.
 */
module SeekOpening {
  import opened SeekTurns
  import I = SeekStdin
  import R = SeekRecords
  import F = SeekFormat

  datatype Opening = Opening(moved: nat, ended: bool, world: World)

  /** One call of root's my_read or my_write: so many bytes, or the end of the file. */
  datatype Call = Bytes(count: nat) | End

  function FirstKind(c: Config): Kind {
    match c.mode
    case FileMode => Nothing
    case StdoutMode => Write
    case StdinMode => Read
  }

  predicate CallEnabled(c: Config, o: Opening, call: Call) {
    match call
    case Bytes(count) => CanMove(c, o.world, 0, FirstKind(c), o.moved, o.ended, count)
    case End => CanEnd(c, o.world, 0, FirstKind(c), o.moved, o.ended)
  }

  function AfterCall(c: Config, o: Opening, call: Call): Opening
    requires CallEnabled(c, o, call)
  {
    match call
    case Bytes(count) => Opening(o.moved + count, o.ended, Move(c, o.world, 0, FirstKind(c), o.moved, o.ended, count))
    case End => o.(ended := true)
  }

  predicate CallsLegal(c: Config, o: Opening, calls: seq<Call>)
    decreases |calls|
  {
    calls == [] || (CallEnabled(c, o, calls[0]) && CallsLegal(c, AfterCall(c, o, calls[0]), calls[1..]))
  }

  function AfterCalls(c: Config, o: Opening, calls: seq<Call>): Opening
    requires CallsLegal(c, o, calls)
    decreases |calls|
  {
    if calls == [] then o else AfterCalls(c, AfterCall(c, o, calls[0]), calls[1..])
  }

  /** Standard output is empty yet, and `contents` is what standard input will yield. */
  function Opens(c: Config, contents: string): Opening { Opening(0, false, World(contents, 0, Blank(c))) }

  /** Root's transfer is over with world `w`. */
  predicate OpensTo(c: Config, contents: string, calls: seq<Call>, w: World) {
    && CallsLegal(c, Opens(c, contents), calls)
    && var o := AfterCalls(c, Opens(c, contents), calls);
       Over(c, 0, FirstKind(c), o.moved, o.ended) && o.world == w
  }

  /** Root's strcmp, without which it spawns nobody. */
  predicate RootPasses(c: Config, w: World) {
    c.mode.StdinMode? ==> |w.check| > 0 && w.check[0] == Rec(c, 0)
  }

  // ----- the world that the tasks find -----

  ghost predicate Reads(c: Config, contents: string, o: Opening) {
    && WorldOk(c, o.world) && o.moved <= |Rec(c, 0)| && o.world.offset == o.moved && o.world.contents == contents
    && o.moved <= |contents| && (o.ended ==> o.moved == |contents|)
    && o.world.check == Blank(c)[0 := contents[..o.moved] + Blank(c)[0][o.moved..]]
  }

  lemma {:induction false} ReadsOn(c: Config, contents: string, o: Opening, calls: seq<Call>)
    requires c.mode.StdinMode? && Reads(c, contents, o) && CallsLegal(c, o, calls)
    ensures Reads(c, contents, AfterCalls(c, o, calls))
    decreases |calls|
  {
    if calls == [] {
    } else {
      if calls[0].Bytes? { ReadsMore(c, contents, o, calls[0].count); }
      ReadsOn(c, contents, AfterCall(c, o, calls[0]), calls[1..]);
    }
  }

  lemma ReadsMore(c: Config, contents: string, o: Opening, count: nat)
    requires c.mode.StdinMode? && Reads(c, contents, o) && CallEnabled(c, o, Bytes(count))
    ensures Reads(c, contents, AfterCall(c, o, Bytes(count)))
  {
    var blank, m := Blank(c)[0], o.moved;
    var check := contents[..m] + blank[m..];
    assert o.world.check[0] == check && |check| == |Rec(c, 0)|;
    assert Splice(check, m, contents[m..m + count]) == contents[..m + count] + blank[m + count..];
  }

  lemma {:induction false} WritesOn(c: Config, o: Opening, calls: seq<Call>)
    requires c.mode.StdoutMode? && o.moved <= |Rec(c, 0)| && !o.ended && CallsLegal(c, o, calls)
    requires o.world == World(Rec(c, 0)[..o.moved], o.moved, Blank(c)) && WorldOk(c, o.world)
    ensures var t := AfterCalls(c, o, calls);
      t.moved <= |Rec(c, 0)| && !t.ended && t.world == World(Rec(c, 0)[..t.moved], t.moved, Blank(c))
    decreases |calls|
  {
    if calls == [] {
    } else {
      var t := AfterCall(c, o, calls[0]);
      assert t.world.contents == Rec(c, 0)[..t.moved];
      WritesOn(c, t, calls[1..]);
    }
  }

  /** In stdin mode root's comparison succeeds exactly if the input begins with its record, and
      then the tasks find the rest of the input ahead of them. */
  lemma StdinOpens(c: Config, input: string, calls: seq<Call>, w: World)
    requires Valid(c) && c.mode.StdinMode? && OpensTo(c, input, calls, w)
    ensures WorldOk(c, w) && w.contents == input
    ensures RootPasses(c, w) <==> Rec(c, 0) <= input
    ensures RootPasses(c, w) ==> InitialWorld(c, w)
  {
    assert input[..0] + Blank(c)[0][0..] == Blank(c)[0];
    assert Blank(c)[0 := Blank(c)[0]] == Blank(c);
    ReadsOn(c, input, Opens(c, input), calls);
    var o := AfterCalls(c, Opens(c, input), calls);
    var m, rec := o.moved, Rec(c, 0);
    assert w.check[0] == input[..m] + Blank(c)[0][m..];
    assert rec in c.records;
    if m < |rec| { assert w.check[0][m] == '\0' && rec[m] in rec; }
  }

  lemma StdoutOpens(c: Config, calls: seq<Call>, w: World)
    requires Valid(c) && c.mode.StdoutMode? && OpensTo(c, "", calls, w)
    ensures InitialWorld(c, w) && WorldOk(c, w)
  {
    assert Rec(c, 0)[..0] == "";
    WritesOn(c, Opens(c, ""), calls);
    assert Rec(c, 0)[..|Rec(c, 0)|] == Rec(c, 0);
  }

  /** However its bytes arrive, `seek stdin` fails no comparison of root or of a task if and only
      if its input is acceptable. */
  lemma PassesExactlyIfAccepted(c: Config, input: string, calls: seq<Call>, w: World, chs: seq<Choice>)
    requires I.Setting(c) && OpensTo(c, input, calls, w)
    requires RootPasses(c, w) ==>
      Legal(c, Start(w), chs) && var s := Run(c, Start(w), chs); s.failed || s.turn == c.Total()
    ensures RootPasses(c, w) && !Run(c, Start(w), chs).failed <==> I.Accepts(c, input)
  {
    StdinOpens(c, input, calls, w);
    if RootPasses(c, w) {
      I.PassesExactlyIfAccepted(c, w, chs);
    } else if I.Accepts(c, input) {
      AcceptedBeginsWithRecord(c, input);
    }
  }

  lemma AcceptedBeginsWithRecord(c: Config, input: string)
    requires I.Setting(c) && I.Accepts(c, input)
    ensures Rec(c, 0) <= input
  {
    I.NeedPrefix(c, 0, c.Total());
    if c.Total() > 0 { I.NeedPrefix(c, 0, c.Total() - 1); }
    assert Stream(c, 0) == "" && I.Need(c, 0) == Rec(c, 0);
  }

  // ----- the input that is cut short -----

  lemma {:induction false} CanOpen(c: Config, o: Opening) returns (calls: seq<Call>)
    requires c.mode.StdinMode? && WorldOk(c, o.world) && o.moved <= |Rec(c, 0)|
    ensures CallsLegal(c, o, calls)
    ensures var t := AfterCalls(c, o, calls); Over(c, 0, Read, t.moved, t.ended)
    decreases |Rec(c, 0)| - o.moved, !o.ended
  {
    if Over(c, 0, Read, o.moved, o.ended) {
      calls := [];
    } else {
      var call := if o.world.offset < |o.world.contents| then Bytes(1) else End;
      var rest := CanOpen(c, AfterCall(c, o, call));
      calls := [call] + rest;
      assert calls[1..] == rest;
    }
  }

  /** The turn machine can always be brought to its last turn or to a failure. */
  lemma {:induction false} CanComplete(c: Config, s: Turn) returns (chs: seq<Choice>)
    requires WorldOk(c, s.world) && s.turn <= c.Total() && s.moved <= |Rec(c, Who(c, s.turn))|
    ensures Legal(c, s, chs) && var t := Run(c, s, chs); t.failed || t.turn == c.Total()
    decreases c.Total() - s.turn, !s.failed, !s.rewound, |Rec(c, Who(c, s.turn))| - s.moved, !s.ended
  {
    if s.failed || s.turn == c.Total() {
      chs := [];
    } else {
      var ch := CanGoOn(c, s);
      var rest := CanComplete(c, Next(c, s, ch));
      chs := [ch] + rest;
      assert chs[1..] == rest;
    }
  }

  /** For any number of tasks, two iterations or more and any cut inside the last record, the
      program's own stream is accepted although its end is missing. */
  lemma CutStreamAccepted(ntasks: nat, niters: nat, cut: nat)
      returns (input: string, calls: seq<Call>, w: World, chs: seq<Choice>)
    requires ntasks > 0 && niters > 1 && 0 < cut < |Record(ntasks)|
    ensures var c := ProgramConfig(StdinMode, ntasks, niters);
      && |input| + cut == |I.Need(c, c.Total())| && input <= I.Need(c, c.Total())
      && OpensTo(c, input, calls, w) && RootPasses(c, w)
      && Legal(c, Start(w), chs)
      && Run(c, Start(w), chs).turn == c.Total() && !Run(c, Start(w), chs).failed
  {
    F.ProgramConfigValid(StdinMode, ntasks, niters);
    input, calls, w, chs := CutRun(ProgramConfig(StdinMode, ntasks, niters), cut);
  }

  lemma CutRun(c: Config, cut: nat) returns (input: string, calls: seq<Call>, w: World, chs: seq<Choice>)
    requires I.Setting(c) && c.niters > 1 && 0 < cut < |Rec(c, c.ntasks)|
    ensures |input| + cut == |I.Need(c, c.Total())| && input <= I.Need(c, c.Total())
    ensures OpensTo(c, input, calls, w) && RootPasses(c, w)
    ensures Legal(c, Start(w), chs) && Run(c, Start(w), chs).turn == c.Total() && !Run(c, Start(w), chs).failed
  {
    LastTurn(c);
    var full := I.Need(c, c.Total());
    input := full[..|full| - cut];
    AcceptedBeginsWithRecord(c, input);
    calls := CanOpen(c, Opens(c, input));
    w := AfterCalls(c, Opens(c, input), calls).world;
    StdinOpens(c, input, calls, w);
    chs := CanComplete(c, Start(w));
    I.PassesExactlyIfAccepted(c, w, chs);
  }

  /** The last turn is the last task's. */
  lemma LastTurn(c: Config)
    requires I.Setting(c)
    ensures c.Total() > 0 && I.Need(c, c.Total()) == I.Need(c, c.Total() - 1) + Rec(c, c.ntasks)
  {
    TurnOf(c, c.niters - 1, c.ntasks);
    assert c.Total() == c.FirstTurn(c.niters - 1) + c.Parties();
    I.TurnKinds(c, c.Total() - 1);
  }

  /** The inputs that are accepted, written out. */
  lemma AcceptsMeans(c: Config, input: string)
    requires I.Setting(c)
    ensures var stream := c.records[0] + R.Times(R.Concat(c.records[1..]), c.niters);
      I.Accepts(c, input) <==>
      || stream <= input
      || (c.niters >= 2 && input <= stream && |stream| - |c.records[c.ntasks]| < |input| < |stream|)
  {
    R.NeedIs(c);
    LastTurn(c);
  }
}
