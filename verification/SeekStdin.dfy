/**
 Exactly which standard inputs basics/seek.c accepts. The program compares the whole of
 `check` after a read of any positive length, and `check` still holds the record of the
 previous iteration, so a stream whose very last record is cut short passes as well.
 */
module SeekStdin {
  import opened SeekTurns
  import R = SeekRecords

  function Need(c: Config, t: nat): string { R.Need(c, t) }

  /** The inputs on which every comparison succeeds: those that begin with the stream a
      stdout run writes and, from two iterations on, that stream cut inside its last record. */
  predicate Accepts(c: Config, input: string) {
    || Need(c, c.Total()) <= input
    || (c.niters >= 2 && c.Total() > 0
        && |Need(c, c.Total() - 1)| < |input| < |Need(c, c.Total())| && input <= Need(c, c.Total()))
  }

  ghost predicate Setting(c: Config) {
    Valid(c) && c.mode.StdinMode? && c.ntasks > 0 && c.niters > 0
  }

  /** What q's comparison buffer held before the operation under way. */
  function Before(c: Config, t: nat, q: nat): (s: string)
    ensures |s| == |Rec(c, q)|
  {
    if q < t then Rec(c, q) else seq(|Rec(c, q)|, i => '\0')
  }

  ghost predicate CheckOk(c: Config, s: Turn, q: nat)
    requires q < |s.world.check| && s.moved <= s.world.offset <= |s.world.contents|
  {
    if q == Who(c, s.turn) then
      && s.moved <= |Rec(c, q)|
      && s.world.check[q]
         == s.world.contents[s.world.offset - s.moved..s.world.offset] + Before(c, s.turn, q)[s.moved..]
    else s.world.check[q] == Before(c, s.turn, q)
  }

  /** Everything so far has matched in full. */
  ghost predicate Full(c: Config, s: Turn) {
    && WorldOk(c, s.world) && !s.failed
    && s.turn <= c.Total() && (s.turn == c.Total() ==> s.moved == 0 && !s.ended)
    && s.moved <= |Bytes(c, s.turn)|
    && Need(c, s.turn) <= s.world.contents
    && s.world.offset == |Need(c, s.turn)| + s.moved
    && (s.ended ==> s.world.offset == |s.world.contents| && s.moved < |Bytes(c, s.turn)|)
    && forall q :: 1 <= q < c.Parties() ==> CheckOk(c, s, q)
  }

  /** The input ran out inside the record of turn t0, and old bytes made up for the rest. */
  ghost predicate Stale(c: Config, s: Turn, t0: nat) {
    && WorldOk(c, s.world) && !s.failed
    && c.Parties() <= t0 < s.turn <= c.Total() && (s.turn == c.Total() ==> !s.ended)
    && s.moved == 0 && s.world.offset == |s.world.contents|
    && |Need(c, t0)| < |s.world.contents| < |Need(c, t0 + 1)|
    && s.world.contents <= Need(c, t0 + 1)
    && Stream(c, s.turn) == Stream(c, t0 + 1)
  }

  ghost predicate Ok(c: Config, s: Turn) {
    || Full(c, s)
    || (exists t0: nat :: Stale(c, s, t0))
    || (s.failed && !Accepts(c, s.world.contents))
  }

  lemma TurnKinds(c: Config, t: nat)
    requires Setting(c)
    ensures Who(c, t) == 0 <==> KindAt(c, t).Nothing?
    ensures Who(c, t) != 0 ==> KindAt(c, t).Read? && Bytes(c, t) == Rec(c, Who(c, t))
    ensures Need(c, t + 1) == Need(c, t) + Bytes(c, t)
    ensures Who(c, t) <= t
  {
    assert Rec(c, 0) + (Stream(c, t) + Bytes(c, t)) == Rec(c, 0) + Stream(c, t) + Bytes(c, t);
  }

  lemma NeedPrefix(c: Config, t: nat, u: nat)
    requires t <= u
    ensures Need(c, t) <= Need(c, u)
  {
    R.StreamPrefix(c, t, u);
  }

  lemma MoveFull(c: Config, s: Turn, count: nat)
    requires Setting(c) && Full(c, s) && Enabled(c, s, Do(Moved(Who(c, s.turn), count)))
    ensures Full(c, Next(c, s, Do(Moved(Who(c, s.turn), count))))
  {
    var p := Who(c, s.turn);
    TurnKinds(c, s.turn);
    var t := Next(c, s, Do(Moved(p, count)));
    forall q | 1 <= q < c.Parties() ensures CheckOk(c, t, q) {
      assert CheckOk(c, s, q);
      if q == p { CheckMoves(c, s, count); }
    }
  }

  lemma CheckMoves(c: Config, s: Turn, count: nat)
    requires Setting(c) && Enabled(c, s, Do(Moved(Who(c, s.turn), count))) && KindAt(c, s.turn).Read?
    requires Who(c, s.turn) < |s.world.check| && s.moved <= s.world.offset && CheckOk(c, s, Who(c, s.turn))
    ensures var t := Next(c, s, Do(Moved(Who(c, s.turn), count))); CheckOk(c, t, Who(c, s.turn))
  {
    var q := Who(c, s.turn);
    SpliceCheck(s.world.contents, s.world.offset, s.moved, count, Before(c, s.turn, q), s.world.check[q]);
  }

  lemma SpliceCheck(input: string, offset: nat, moved: nat, count: nat, prior: string, check: string)
    requires moved <= offset && offset + count <= |input| && moved + count <= |prior|
    requires check == input[offset - moved..offset] + prior[moved..]
    ensures Splice(check, moved, input[offset..offset + count])
            == input[offset - moved..offset + count] + prior[moved + count..]
  {
    assert check[..moved] == input[offset - moved..offset];
    assert check[moved + count..] == prior[moved + count..];
    assert input[offset - moved..offset + count] == input[offset - moved..offset] + input[offset..offset + count];
  }

  lemma ShortRejects(c: Config, t: nat, input: string)
    requires Setting(c) && t + 1 < c.Total() && |input| < |Need(c, t + 1)|
    ensures !Accepts(c, input)
  {
    NeedPrefix(c, t + 1, c.Total() - 1);
    NeedPrefix(c, t + 1, c.Total());
  }

  /** A complete operation in the full phase leads to the next turn or refutes the input. */
  lemma CompleteFull(c: Config, s: Turn)
    requires Setting(c) && Full(c, s) && Enabled(c, s, Complete)
    ensures Ok(c, Next(c, s, Complete))
  {
    TurnKinds(c, s.turn);
    if Who(c, s.turn) == 0 {
      NextFull(c, s);
    } else if !s.ended {
      CompleteWhole(c, s);
    } else {
      CompleteCut(c, s);
    }
  }

  lemma NextFull(c: Config, s: Turn)
    requires Setting(c) && Full(c, s) && s.turn < c.Total() && !s.ended && s.moved == |Bytes(c, s.turn)|
    requires Need(c, s.turn + 1) <= s.world.contents
    requires Who(c, s.turn) != 0 ==> s.world.check[Who(c, s.turn)] == Rec(c, Who(c, s.turn))
    ensures Full(c, s.(turn := s.turn + 1, moved := 0, ended := false))
  {
    var p, t := Who(c, s.turn), s.(turn := s.turn + 1, moved := 0, ended := false);
    TurnKinds(c, s.turn);
    forall q | 1 <= q < c.Parties() ensures CheckOk(c, t, q) {
      assert CheckOk(c, s, q);
      if q != p { OtherPrior(c, s.turn, q); }
      assert s.world.check[q] == Before(c, t.turn, q);
      assert t.world.contents[t.world.offset..t.world.offset] + Before(c, t.turn, q)[0..] == Before(c, t.turn, q);
    }
  }

  lemma OtherPrior(c: Config, t: nat, q: nat)
    requires 1 <= q < c.Parties() && q != Who(c, t)
    ensures Before(c, t, q) == Before(c, t + 1, q)
  {
    if q == t { TurnOf(c, 0, q); }
  }

  lemma WholeCompare(c: Config, s: Turn)
    requires Setting(c) && Full(c, s) && s.turn < c.Total() && Who(c, s.turn) != 0
    requires s.moved == |Rec(c, Who(c, s.turn))|
    ensures |s.world.contents| >= |Need(c, s.turn + 1)|
    ensures Need(c, s.turn + 1) <= s.world.contents <==> s.world.check[Who(c, s.turn)] == Rec(c, Who(c, s.turn))
  {
    var q, input, n := Who(c, s.turn), s.world.contents, |Need(c, s.turn)|;
    TurnKinds(c, s.turn);
    assert CheckOk(c, s, q);
    assert s.world.check[q] == input[n..s.world.offset];
  }

  lemma CompleteWhole(c: Config, s: Turn)
    requires Setting(c) && Full(c, s) && Enabled(c, s, Complete) && Who(c, s.turn) != 0 && !s.ended
    ensures Ok(c, Next(c, s, Complete))
  {
    TurnKinds(c, s.turn);
    WholeCompare(c, s);
    if s.world.check[Who(c, s.turn)] == Rec(c, Who(c, s.turn)) {
      NextFull(c, s);
    } else {
      NeedPrefix(c, s.turn + 1, c.Total());
    }
  }

  /** The end of the input was met inside q's record. */
  lemma CompleteCut(c: Config, s: Turn)
    requires Setting(c) && Full(c, s) && Enabled(c, s, Complete) && Who(c, s.turn) != 0 && s.ended
    ensures Ok(c, Next(c, s, Complete))
  {
    var q, input, n := Who(c, s.turn), s.world.contents, |Need(c, s.turn)|;
    TurnKinds(c, s.turn);
    assert CheckOk(c, s, q);
    var prior := Before(c, s.turn, q);
    CutCheck(input[n..], prior, Rec(c, q), s.moved, s.world.check[q]);
    if s.moved > 0 && s.world.check[q] == Rec(c, q) {
      SecondIteration(c, s.turn);
      assert input == input[..n] + input[n..];
      assert input <= Need(c, s.turn + 1);
      assert Stale(c, Next(c, s, Complete), s.turn);
    } else {
      CutRejects(c, s);
    }
  }

  /** Old bytes make up for the missing ones exactly when they are the record's own. */
  lemma CutCheck(got: string, prior: string, rec: string, moved: nat, check: string)
    requires |got| == moved < |rec| == |prior| && check == got + prior[moved..]
    ensures check == rec <==> got == rec[..moved] && prior[moved..] == rec[moved..]
    ensures check == rec ==> prior[moved] == rec[moved]
  {
    assert rec == rec[..moved] + rec[moved..];
    assert check[..moved] == got && check[moved..] == prior[moved..];
    assert check[moved] == prior[moved];
  }

  lemma SecondIteration(c: Config, t: nat)
    requires Who(c, t) < t
    ensures c.Parties() <= t
  {
    if t < c.Parties() { TurnOf(c, 0, t); }
  }

  lemma CutRejects(c: Config, s: Turn)
    requires Setting(c) && Full(c, s) && s.ended && Who(c, s.turn) != 0 && s.turn < c.Total()
    requires !(s.moved > 0 && s.world.check[Who(c, s.turn)] == Rec(c, Who(c, s.turn)))
    ensures !Accepts(c, s.world.contents)
  {
    var input := s.world.contents;
    TurnKinds(c, s.turn);
    if s.turn + 1 < c.Total() {
      ShortRejects(c, s.turn, input);
    } else if s.moved > 0 && c.niters >= 2 && input <= Need(c, s.turn + 1) {
      CutMatches(c, s);
    }
  }

  /** In a later iteration a cut but matching last record compares equal. */
  lemma CutMatches(c: Config, s: Turn)
    requires Setting(c) && Full(c, s) && s.ended && Who(c, s.turn) != 0 && s.turn + 1 == c.Total()
    requires c.niters >= 2 && s.world.contents <= Need(c, s.turn + 1)
    ensures s.world.check[Who(c, s.turn)] == Rec(c, Who(c, s.turn))
  {
    var q, input, n := Who(c, s.turn), s.world.contents, |Need(c, s.turn)|;
    TurnKinds(c, s.turn);
    LateTurn(c);
    assert CheckOk(c, s, q);
    assert Before(c, s.turn, q) == Rec(c, q);
    CutRecord(input, Need(c, s.turn), Rec(c, q), s.moved);
    assert n + s.moved == |input|;
  }

  lemma CutRecord(input: string, need: string, rec: string, moved: nat)
    requires input <= need + rec && |input| == |need| + moved && moved <= |rec|
    ensures input[|need|..|input|] + rec[moved..] == rec
  {
    assert input[|need|..|input|] == rec[..moved];
  }

  /** The last turn belongs to the last task and, from two iterations on, is not its first. */
  lemma LateTurn(c: Config)
    requires Setting(c)
    ensures c.Total() > 0 && Who(c, c.Total() - 1) == c.ntasks
    ensures c.niters >= 2 ==> c.Parties() <= c.Total() - 1
  {
    TurnOf(c, c.niters - 1, c.ntasks);
    assert c.Total() == c.FirstTurn(c.niters - 1) + c.Parties();
    if c.niters >= 2 { FirstTurnGrows(c, 0, c.niters - 1); }
  }

  /** After a cut record only the root's empty turn can still go by. */
  lemma CompleteStale(c: Config, s: Turn, t0: nat)
    requires Setting(c) && Stale(c, s, t0) && Enabled(c, s, Complete)
    ensures Ok(c, Next(c, s, Complete))
  {
    TurnKinds(c, s.turn);
    var t := Next(c, s, Complete);
    if Who(c, s.turn) == 0 {
      assert Stream(c, s.turn + 1) == Stream(c, s.turn);
      if s.turn + 1 == c.Total() { LateTurn(c); assert false; }
      assert Stale(c, t, t0);
    } else {
      NeedPrefix(c, s.turn, c.Total() - 1);
      assert t.failed;
      NeedPrefix(c, s.turn, c.Total());
    }
  }

  lemma StepOk(c: Config, s: Turn, ch: Choice)
    requires Setting(c) && Ok(c, s) && Enabled(c, s, ch)
    ensures Ok(c, Next(c, s, ch)) && Next(c, s, ch).world.contents == s.world.contents
  {
    TurnKinds(c, s.turn);
    if Full(c, s) {
      match ch
      case Do(Rewind) =>
      case Do(Moved(_, count)) => MoveFull(c, s, count);
      case Do(EndOfFile(_)) => EndFull(c, s);
      case Complete => CompleteFull(c, s);
    } else {
      var t0: nat :| Stale(c, s, t0);
      match ch
      case Do(Rewind) =>
      case Do(Moved(_, count)) =>
      case Do(EndOfFile(_)) => assert Stale(c, Next(c, s, ch), t0);
      case Complete => CompleteStale(c, s, t0);
    }
  }

  lemma EndFull(c: Config, s: Turn)
    requires Setting(c) && Full(c, s) && Enabled(c, s, Do(EndOfFile(Who(c, s.turn))))
    ensures Full(c, Next(c, s, Do(EndOfFile(Who(c, s.turn)))))
  {
    TurnKinds(c, s.turn);
    var t := Next(c, s, Do(EndOfFile(Who(c, s.turn))));
    forall q | 1 <= q < c.Parties() ensures CheckOk(c, t, q) { assert CheckOk(c, s, q); }
  }

  lemma {:induction false} RunOk(c: Config, s: Turn, chs: seq<Choice>)
    requires Setting(c) && Ok(c, s) && Legal(c, s, chs)
    ensures Ok(c, Run(c, s, chs)) && Run(c, s, chs).world.contents == s.world.contents
    decreases |chs|
  {
    if chs == [] {
    } else {
      StepOk(c, s, chs[0]);
      RunOk(c, Next(c, s, chs[0]), chs[1..]);
    }
  }

  /** However the bytes arrive, a stdin run that has come to its end has passed all its
      comparisons if and only if the input is acceptable. */
  lemma PassesExactlyIfAccepted(c: Config, w: World, chs: seq<Choice>)
    requires Setting(c) && InitialWorld(c, w) && Legal(c, Start(w), chs)
    requires var s := Run(c, Start(w), chs); s.failed || s.turn == c.Total()
    ensures Run(c, Start(w), chs).failed <==> !Accepts(c, w.contents)
  {
    RunOk(c, Start(w), chs);
    OkDecides(c, Run(c, Start(w), chs));
  }

  lemma OkDecides(c: Config, s: Turn)
    requires Setting(c) && Ok(c, s) && (s.failed || s.turn == c.Total())
    ensures s.failed <==> !Accepts(c, s.world.contents)
  {
    if !s.failed && !Full(c, s) {
      var t0: nat :| Stale(c, s, t0);
      StaleIsLast(c, s, t0);
    }
  }

  lemma StaleIsLast(c: Config, s: Turn, t0: nat)
    requires Setting(c) && Stale(c, s, t0) && s.turn == c.Total()
    ensures t0 + 1 == c.Total() && c.niters >= 2 && Accepts(c, s.world.contents)
  {
    LateTurn(c);
    TurnKinds(c, c.Total() - 1);
    assert c.Total() == c.FirstTurn(c.niters - 1) + c.Parties() && c.FirstTurn(0) == 0;
    if t0 + 1 < c.Total() {
      R.StreamPrefix(c, t0 + 1, c.Total() - 1);
      assert false;
    }
  }

  /** The pipe `seek stdout | seek stdin`: what any complete stdout run writes, every stdin
      run with the same arguments accepts. */
  lemma StdoutFeedsStdin(c: Config, w: World, out: seq<Choice>, v: World, input: seq<Choice>)
    requires Setting(c)
    requires var d := c.(mode := StdoutMode);
      InitialWorld(d, w) && Legal(d, Start(w), out) && Run(d, Start(w), out).turn == d.Total()
    requires InitialWorld(c, v) && Legal(c, Start(v), input)
    requires v.contents == Run(c.(mode := StdoutMode), Start(w), out).world.contents
    ensures !Run(c, Start(v), input).failed
  {
    var d := c.(mode := StdoutMode);
    R.StdoutWritesStream(d, w, out);
    R.StreamsAgree(d, c, c.Total());
    TotalsAgree(c, d, c.niters);
    RunOk(c, Start(v), input);
  }

  lemma {:induction false} TotalsAgree(c: Config, d: Config, i: nat)
    requires c.ntasks == d.ntasks
    ensures c.FirstTurn(i) == d.FirstTurn(i)
  {
    if i == 0 {
    } else {
      TotalsAgree(c, d, i - 1);
    }
  }
}
