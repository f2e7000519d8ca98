/**
 What the turns of basics/seek.c do to the file: in file mode everything is read back as it
 was written; a stdout run writes the stream that a stdin run expects; and the exact set of
 streams on which a stdin run passes, which is slightly larger than that one stream.
 Everything is proved for every pattern of short reads and writes.
 */
module SeekRecords {
  import opened SeekTurns

  // ----- streams -----

  lemma {:induction false} StreamPrefix(c: Config, t: nat, u: nat)
    requires t <= u
    ensures Stream(c, t) <= Stream(c, u)
  {
    if t < u { StreamPrefix(c, t, u - 1); }
  }

  lemma SliceOfPrefix(whole: string, a: string, b: string, from: nat, to: nat)
    requires a + b <= whole && from <= to <= |b|
    ensures whole[|a| + from..|a| + to] == b[from..to]
  {
    forall i | from <= i < to ensures whole[|a| + i] == b[i] {
      assert whole[|a| + i] == (a + b)[|a| + i];
    }
  }

  /** A later turn's bytes lie right behind those of the turns before it. */
  lemma StreamSlice(c: Config, t: nat, u: nat, from: nat, to: nat)
    requires t < u && from <= to <= |Bytes(c, t)|
    ensures |Stream(c, t)| + to <= |Stream(c, u)|
    ensures Stream(c, u)[|Stream(c, t)| + from..|Stream(c, t)| + to] == Bytes(c, t)[from..to]
  {
    StreamPrefix(c, t + 1, u);
    assert Stream(c, t + 1) == Stream(c, t) + Bytes(c, t);
    SliceOfPrefix(Stream(c, u), Stream(c, t), Bytes(c, t), from, to);
  }

  lemma {:induction false} TwiceHalf(c: Config, k: nat)
    ensures c.FirstTurn(c.niters + k) == c.Half() + c.FirstTurn(k)
  {
    if k == 0 {
    } else {
      TwiceHalf(c, k - 1);
    }
  }

  /** In file mode the reading half repeats the owners of the writing half. */
  lemma ReadsFollowWrites(c: Config, k: nat)
    requires c.mode.FileMode? && k < c.Half()
    ensures c.Half() + k < c.Total()
    ensures Who(c, c.Half() + k) == Who(c, k)
    ensures KindAt(c, k).Write? && KindAt(c, c.Half() + k).Read?
    ensures Bytes(c, c.Half() + k) == Bytes(c, k) == Rec(c, Who(c, k))
  {
    var n := c.Parties();
    var i, q := Iter(c, k), Who(c, k);
    FirstTurnIs(c, i);
    assert k == n * (k / n) + k % n;
    assert n * i == i * n;
    assert k == c.FirstTurn(i) + q;
    if i >= c.niters {
      if i > c.niters { FirstTurnGrows(c, c.niters, i); }
      assert false;
    }
    TwiceHalf(c, i);
    TurnOf(c, c.niters + i, q);
  }

  lemma WritesInFirstHalf(c: Config, t: nat)
    requires c.mode.FileMode? && t < c.Half()
    ensures KindAt(c, t).Write?
  {
    ReadsFollowWrites(c, t);
  }

  // ----- file mode and stdout mode -----

  function Base(c: Config): string { if c.mode.FileMode? then "" else Rec(c, 0) }

  ghost predicate Writing(c: Config, s: Turn)
    requires s.moved <= |Bytes(c, s.turn)|
  {
    && !s.rewound
    && (c.mode.FileMode? ==> s.turn <= c.Half() && (s.turn == c.Half() ==> s.moved == 0))
    && s.world.contents == Base(c) + Stream(c, s.turn) + Bytes(c, s.turn)[..s.moved]
    && s.world.offset == |s.world.contents|
  }

  ghost predicate Reading(c: Config, s: Turn)
    requires WorldOk(c, s.world) && s.moved <= |Bytes(c, s.turn)|
  {
    && c.mode.FileMode? && s.rewound && c.Half() <= s.turn
    && s.world.contents == Stream(c, c.Half())
    && s.world.offset == |Stream(c, s.turn - c.Half())| + s.moved
    && s.world.check[Who(c, s.turn)][..s.moved] == Rec(c, Who(c, s.turn))[..s.moved]
  }

  /** All is well with the file: no CHECK has failed and no read has met the end. */
  ghost predicate Good(c: Config, s: Turn) {
    && Valid(c) && WorldOk(c, s.world) && !s.failed && !s.ended
    && s.turn <= c.Total() && (s.turn == c.Total() ==> s.moved == 0)
    && s.moved <= |Bytes(c, s.turn)| && s.moved <= |Rec(c, Who(c, s.turn))|
    && (Writing(c, s) || Reading(c, s))
  }

  lemma WriteStep(c: Config, s: Turn, count: nat)
    requires !c.mode.StdinMode? && Good(c, s) && Enabled(c, s, Do(Moved(Who(c, s.turn), count)))
    requires KindAt(c, s.turn).Write? && Writing(c, s)
    ensures Good(c, Next(c, s, Do(Moved(Who(c, s.turn), count))))
  {
    var b := Bytes(c, s.turn);
    var t := Next(c, s, Do(Moved(Who(c, s.turn), count)));
    Grows(b, s.moved, count);
    AtEnd(s.world.contents, b[s.moved..s.moved + count]);
    Associates(Base(c) + Stream(c, s.turn), b[..s.moved], b[s.moved..s.moved + count]);
    assert t.world.contents == Base(c) + Stream(c, s.turn) + b[..s.moved + count];
    assert Writing(c, t);
  }

  lemma Grows(b: string, moved: nat, count: nat)
    requires moved + count <= |b|
    ensures b[..moved] + b[moved..moved + count] == b[..moved + count]
  {
  }

  /** Writing at the end of a file appends. */
  lemma AtEnd(contents: string, bytes: string)
    ensures bytes != "" ==> Overwrite(contents, |contents|, bytes) == contents + bytes
  {
    assert contents[..|contents|] == contents;
  }

  /** What lies under the offset during a reading turn is the record that its owner wrote. */
  lemma UnderTheOffset(c: Config, s: Turn, to: nat)
    requires Good(c, s) && Reading(c, s) && s.turn < c.Total() && s.moved <= to <= |Rec(c, Who(c, s.turn))|
    ensures KindAt(c, s.turn).Read? && Bytes(c, s.turn) == Rec(c, Who(c, s.turn))
    ensures s.world.offset - s.moved + to <= |s.world.contents|
    ensures s.world.contents[s.world.offset..s.world.offset - s.moved + to] == Rec(c, Who(c, s.turn))[s.moved..to]
  {
    ReadingTurn(c, s);
    StreamSlice(c, s.turn - c.Half(), c.Half(), s.moved, to);
  }

  lemma ReadingTurn(c: Config, s: Turn)
    requires Good(c, s) && Reading(c, s) && s.turn < c.Total()
    ensures var k := s.turn - c.Half();
      k < c.Half() && KindAt(c, s.turn).Read? && Bytes(c, s.turn) == Bytes(c, k) == Rec(c, Who(c, s.turn))
  {
    TotalIsTwice(c);
    ReadsFollowWrites(c, s.turn - c.Half());
  }

  lemma OffsetAfterTurn(c: Config, s: Turn)
    requires Good(c, s) && Reading(c, s) && s.turn < c.Total()
    ensures KindAt(c, s.turn).Read?
    ensures |Stream(c, s.turn + 1 - c.Half())| == s.world.offset - s.moved + |Rec(c, Who(c, s.turn))|
  {
    var k := s.turn - c.Half();
    TotalIsTwice(c);
    ReadsFollowWrites(c, k);
    assert Stream(c, k + 1) == Stream(c, k) + Bytes(c, k);
  }

  lemma ReadStep(c: Config, s: Turn, count: nat)
    requires Good(c, s) && Reading(c, s) && Enabled(c, s, Do(Moved(Who(c, s.turn), count)))
    ensures Good(c, Next(c, s, Do(Moved(Who(c, s.turn), count))))
  {
    var q := Who(c, s.turn);
    UnderTheOffset(c, s, s.moved + count);
    var got := s.world.contents[s.world.offset..s.world.offset + count];
    SpliceExtends(s.world.check[q], Rec(c, q), s.moved, got);
    ReadWorld(c, s, count);
  }

  lemma SpliceExtends(check: string, rec: string, moved: nat, got: string)
    requires moved + |got| <= |check| == |rec|
    requires check[..moved] == rec[..moved] && got == rec[moved..moved + |got|]
    ensures Splice(check, moved, got)[..moved + |got|] == rec[..moved + |got|]
  {
    assert rec[..moved + |got|] == rec[..moved] + rec[moved..moved + |got|];
    assert Splice(check, moved, got)[..moved + |got|] == check[..moved] + got;
  }

  lemma ReadWorld(c: Config, s: Turn, count: nat)
    requires Enabled(c, s, Do(Moved(Who(c, s.turn), count))) && KindAt(c, s.turn).Read?
    ensures var t, q, w := Next(c, s, Do(Moved(Who(c, s.turn), count))), Who(c, s.turn), s.world;
      && WorldOk(c, t.world)
      && t == s.(moved := s.moved + count, world := t.world)
      && t.world.contents == w.contents && t.world.offset == w.offset + count
      && t.world.check[q] == Splice(w.check[q], s.moved, w.contents[w.offset..w.offset + count])
  {
  }

  lemma TotalIsTwice(c: Config)
    requires c.mode.FileMode?
    ensures c.Total() == 2 * c.Half()
  {
    TwiceHalf(c, c.niters);
  }

  /** In the reading half the bytes are always there: no read returns 0. */
  lemma NoEndOfFile(c: Config, s: Turn)
    requires !c.mode.StdinMode? && Good(c, s)
    ensures !Enabled(c, s, Do(EndOfFile(Who(c, s.turn))))
  {
    if Enabled(c, s, Do(EndOfFile(Who(c, s.turn)))) {
      if Writing(c, s) {
        if s.turn < c.Half() && c.mode.FileMode? { WritesInFirstHalf(c, s.turn); }
        assert false;
      }
      var k := s.turn - c.Half();
      TotalIsTwice(c);
      ReadsFollowWrites(c, k);
      StreamSlice(c, k, c.Half(), 0, |Bytes(c, k)|);
    }
  }

  lemma CompleteWrite(c: Config, s: Turn)
    requires !c.mode.StdinMode? && Good(c, s) && Writing(c, s) && Enabled(c, s, Complete)
    ensures Good(c, Next(c, s, Complete))
  {
    var b := Bytes(c, s.turn);
    var t := Next(c, s, Complete);
    if c.mode.FileMode? { WritesInFirstHalf(c, s.turn); }
    assert s.moved == |b| && b[..|b|] == b;
    assert Stream(c, s.turn + 1) == Stream(c, s.turn) + b;
    assert Base(c) + Stream(c, s.turn) + b == Base(c) + Stream(c, t.turn);
    assert Bytes(c, t.turn)[..0] == "";
    assert Writing(c, t) by { if c.mode.FileMode? { TotalIsTwice(c); } }
  }

  lemma CompleteRead(c: Config, s: Turn)
    requires Good(c, s) && Reading(c, s) && Enabled(c, s, Complete)
    ensures Good(c, Next(c, s, Complete))
  {
    ReadPasses(c, s);
    OffsetAfterTurn(c, s);
    NextReading(c, s.(turn := s.turn + 1, moved := 0, ended := false));
  }

  /** After a full read the comparison succeeds. */
  lemma ReadPasses(c: Config, s: Turn)
    requires Good(c, s) && Reading(c, s) && Enabled(c, s, Complete)
    ensures s.moved == |Rec(c, Who(c, s.turn))|
    ensures Next(c, s, Complete) == s.(turn := s.turn + 1, moved := 0, ended := false)
  {
    OffsetAfterTurn(c, s);
  }

  lemma NextReading(c: Config, t: Turn)
    requires Valid(c) && WorldOk(c, t.world) && c.mode.FileMode? && t.rewound && c.Half() <= t.turn <= c.Total()
    requires t.moved == 0 && !t.ended && !t.failed
    requires t.world.contents == Stream(c, c.Half()) && t.world.offset == |Stream(c, t.turn - c.Half())|
    ensures Good(c, t) && Reading(c, t)
  {
    assert t.world.check[Who(c, t.turn)][..0] == "" == Rec(c, Who(c, t.turn))[..0];
  }

  lemma RewindStep(c: Config, s: Turn)
    requires Good(c, s) && Enabled(c, s, Do(Rewind))
    ensures Good(c, Next(c, s, Do(Rewind)))
  {
    var t := Next(c, s, Do(Rewind));
    var q := Who(c, t.turn);
    assert Writing(c, s);
    assert Bytes(c, s.turn)[..0] == "" && Base(c) == "";
    assert s.world.contents == Stream(c, c.Half());
    assert Stream(c, 0) == "" && t.world.check[q][..0] == Rec(c, q)[..0];
    assert Reading(c, t);
  }

  lemma StepGood(c: Config, s: Turn, ch: Choice)
    requires !c.mode.StdinMode? && Good(c, s) && Enabled(c, s, ch)
    ensures Good(c, Next(c, s, ch))
  {
    match ch
    case Do(Rewind) => RewindStep(c, s);
    case Do(Moved(_, count)) =>
      if Writing(c, s) {
        if c.mode.FileMode? { WritesInFirstHalf(c, s.turn); }
        WriteStep(c, s, count);
      } else {
        ReadStep(c, s, count);
      }
    case Do(EndOfFile(_)) => NoEndOfFile(c, s);
    case Complete => if Writing(c, s) { CompleteWrite(c, s); } else { CompleteRead(c, s); }
  }

  lemma {:induction false} RunGood(c: Config, s: Turn, chs: seq<Choice>)
    requires !c.mode.StdinMode? && Good(c, s) && Legal(c, s, chs)
    ensures Good(c, Run(c, s, chs))
    decreases |chs|
  {
    if chs == [] {
    } else {
      StepGood(c, s, chs[0]);
      RunGood(c, Next(c, s, chs[0]), chs[1..]);
    }
  }

  /** File mode: no CHECK fails on the way, and when all turns are over the file holds the
      records of root, 0, ..., ntasks-1, niters times over, all of them read back. */
  lemma FileModeReadsBack(c: Config, w: World, chs: seq<Choice>)
    requires Valid(c) && c.mode.FileMode? && c.niters > 0 && InitialWorld(c, w) && Legal(c, Start(w), chs)
    ensures var s := Run(c, Start(w), chs);
      && !s.failed && !s.ended
      && (s.turn == c.Total() ==>
            s.world.contents == Stream(c, c.Half()) && s.world.offset == |s.world.contents|)
  {
    RunGood(c, Start(w), chs);
    var s := Run(c, Start(w), chs);
    TotalIsTwice(c);
    if s.turn == c.Total() { assert Reading(c, s) by { FirstTurnGrows(c, 0, c.niters); } }
  }

  // ----- the stream modes together -----

  /** What must arrive on standard input before turn t. */
  function Need(c: Config, t: nat): string { Rec(c, 0) + Stream(c, t) }

  lemma StdoutWritesStream(c: Config, w: World, chs: seq<Choice>)
    requires Valid(c) && c.mode.StdoutMode? && InitialWorld(c, w) && Legal(c, Start(w), chs)
    ensures var s := Run(c, Start(w), chs);
      !s.failed && (s.turn == c.Total() ==> s.world.contents == Need(c, c.Total()))
  {
    RunGood(c, Start(w), chs);
    var s := Run(c, Start(w), chs);
    if s.turn == c.Total() {
      assert Bytes(c, s.turn)[..0] == "";
      assert s.world.contents == Rec(c, 0) + Stream(c, s.turn) + "";
    }
  }

  lemma {:induction false} StreamsAgree(c: Config, d: Config, t: nat)
    requires c.mode.StdoutMode? && d == c.(mode := StdinMode)
    ensures Stream(c, t) == Stream(d, t)
  {
    if t == 0 {
    } else {
      StreamsAgree(c, d, t - 1);
    }
  }

  // ----- the streams written out -----

  function Concat(rs: seq<string>): string {
    if rs == [] then "" else Concat(rs[..|rs| - 1]) + rs[|rs| - 1]
  }

  function Times(s: string, k: nat): string { if k == 0 then "" else Times(s, k - 1) + s }

  /** The first record of an iteration: in the stream modes root's is not among them. */
  function From(c: Config): nat { if c.mode.FileMode? then 0 else 1 }

  /** What participant q has to do with the stream in an iteration. */
  function Share(c: Config, q: nat): string { if q < From(c) then "" else Rec(c, q) }

  /** The shares of the participants below q. */
  function Below(c: Config, q: nat): string { if q == 0 then "" else Below(c, q - 1) + Share(c, q - 1) }

  lemma TurnAdds(c: Config, i: nat, q: nat)
    requires i < c.niters && q < c.Parties()
    ensures Stream(c, c.FirstTurn(i) + q + 1) == Stream(c, c.FirstTurn(i) + q) + Share(c, q)
  {
    TurnOf(c, i, q);
  }

  lemma Associates(a: string, b: string, d: string)
    ensures a + b + d == a + (b + d) && a + "" == a
  {
  }

  /** One record after the other. */
  lemma {:induction false} RoundIs(c: Config, i: nat, q: nat)
    requires i < c.niters && q <= c.Parties()
    ensures Stream(c, c.FirstTurn(i) + q) == Stream(c, c.FirstTurn(i)) + Below(c, q)
  {
    if q == 0 {
      Associates(Stream(c, c.FirstTurn(i)), "", "");
    } else {
      RoundIs(c, i, q - 1);
      TurnAdds(c, i, q - 1);
      Associates(Stream(c, c.FirstTurn(i)), Below(c, q - 1), Share(c, q - 1));
    }
  }

  lemma {:induction false} StreamIs(c: Config, i: nat)
    requires i <= c.niters
    ensures Stream(c, c.FirstTurn(i)) == Times(Below(c, c.Parties()), i)
  {
    if i == 0 {
    } else {
      StreamIs(c, i - 1);
      RoundIs(c, i - 1, c.Parties());
    }
  }

  lemma OneMoreRecord(rs: seq<string>, from: nat, q: nat)
    requires from <= q < |rs|
    ensures Concat(rs[from..q + 1]) == Concat(rs[from..q]) + rs[q]
  {
    var part := rs[from..q + 1];
    assert part[..|part| - 1] == rs[from..q] && part[|part| - 1] == rs[q];
  }

  lemma {:induction false} BelowIs(c: Config, q: nat)
    requires From(c) <= q <= |c.records|
    ensures Below(c, q) == Concat(c.records[From(c)..q])
  {
    if q == From(c) {
      assert c.records[q..q] == [] && Below(c, q) == "";
    } else {
      BelowIs(c, q - 1);
      OneMoreRecord(c.records, From(c), q - 1);
    }
  }

  lemma BelowAll(c: Config)
    requires Valid(c)
    ensures Below(c, c.Parties()) == Concat(if c.mode.FileMode? then c.records else c.records[1..])
  {
    BelowIs(c, c.Parties());
    assert c.records[0..c.Parties()] == c.records && c.records[1..c.Parties()] == c.records[1..];
  }

  /** What a file mode run leaves in the file: all records, root's first, niters times. */
  lemma FileIs(c: Config)
    requires Valid(c) && c.mode.FileMode?
    ensures Stream(c, c.Half()) == Times(Concat(c.records), c.niters)
  {
    StreamIs(c, c.niters);
    BelowAll(c);
  }

  /** What a stdout run writes and a stdin run needs: root's record, and then those of the tasks,
      niters times. */
  lemma NeedIs(c: Config)
    requires Valid(c) && !c.mode.FileMode?
    ensures Need(c, c.Total()) == c.records[0] + Times(Concat(c.records[1..]), c.niters)
  {
    StreamIs(c, c.niters);
    BelowAll(c);
  }
}
