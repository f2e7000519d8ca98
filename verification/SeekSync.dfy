/**
 basics/seek.c compiled without USE_BARRIER: the shared counter `sync` is the token. The
 root sets it to 0 after its operation and spins until it reaches ntasks; task k waits for
 the value k, uses the file and adds 1. Polling without success changes nothing, so only
 the successful test is a step.
 */
module SeekSync {
  import opened Sums
  import opened T = SeekTurns

  datatype PC =
    | Waiting(i: nat)                          // ahead of the operation
    | Using(i: nat, moved: nat, ended: bool)   // inside my_read or my_write
    | Handing(i: nat)                          // about to write `sync`
    | Spinning(i: nat)                         // the root, until sync >= ntasks
    | Done
    | Failed(i: nat, moved: nat, ended: bool)

  datatype State = State(sync: int, pc: seq<PC>, rewound: bool, world: World, turns: nat, failed: bool)

  datatype Step =
    | Begin(q: nat) | Seek | Transfer(q: nat, count: nat) | Eof(q: nat) | Finish(q: nat)
    | Hand(q: nat) | Go

  predicate Shaped(c: Config, s: State) {
    |s.pc| == c.Parties() && WorldOk(c, s.world)
  }

  function Actor(st: Step): nat { if st.Seek? || st.Go? then 0 else st.q }

  predicate AtSeek(c: Config, s: State)
    requires Shaped(c, s)
  {
    c.mode.FileMode? && s.pc[0] == Waiting(c.niters) && !s.rewound
  }

  predicate Enabled(c: Config, s: State, st: Step) {
    && Shaped(c, s) && Actor(st) < c.Parties()
    && var q := Actor(st);
       var pc := s.pc[q];
       match st
       case Begin(_) => pc.Waiting? && (if q == 0 then !AtSeek(c, s) else s.sync == q - 1)
       case Seek => AtSeek(c, s)
       case Transfer(_, count) => pc.Using? && CanMove(c, s.world, q, KindOf(c, q, pc.i), pc.moved, pc.ended, count)
       case Eof(_) => pc.Using? && CanEnd(c, s.world, q, KindOf(c, q, pc.i), pc.moved, pc.ended)
       case Finish(_) => pc.Using? && Over(c, q, KindOf(c, q, pc.i), pc.moved, pc.ended)
       case Hand(_) => pc.Handing?
       case Go => pc.Spinning? && s.sync >= c.ntasks
  }

  function Again(c: Config, i: nat): PC {
    if i + 1 < c.Rounds() then Waiting(i + 1) else Done
  }

  function Next(c: Config, s: State, st: Step): State
    requires Enabled(c, s, st)
  {
    var q := Actor(st);
    var pc := s.pc[q];
    match st
    case Begin(_) => s.(pc := s.pc[q := Using(pc.i, 0, false)])
    case Seek => s.(rewound := true, world := s.world.(offset := 0))
    case Transfer(_, count) =>
      s.(pc := s.pc[q := Using(pc.i, pc.moved + count, pc.ended)],
         world := Move(c, s.world, q, KindOf(c, q, pc.i), pc.moved, pc.ended, count))
    case Eof(_) => s.(pc := s.pc[q := Using(pc.i, pc.moved, true)])
    case Finish(_) =>
      if Passes(c, s.world, q, KindOf(c, q, pc.i), pc.moved) then
        s.(pc := s.pc[q := Handing(pc.i)], turns := s.turns + 1)
      else
        s.(pc := s.pc[q := Failed(pc.i, pc.moved, pc.ended)], failed := true)
    case Hand(_) =>
      if q == 0 then s.(pc := s.pc[q := Spinning(pc.i)], sync := 0)
      else s.(pc := s.pc[q := Again(c, pc.i)], sync := s.sync + 1)
    case Go => s.(pc := s.pc[q := Again(c, pc.i)])
  }

  predicate Legal(c: Config, s: State, sts: seq<Step>)
    decreases |sts|
  {
    sts == [] || (Enabled(c, s, sts[0]) && Legal(c, Next(c, s, sts[0]), sts[1..]))
  }

  function Run(c: Config, s: State, sts: seq<Step>): State
    requires Legal(c, s, sts)
    decreases |sts|
  {
    if sts == [] then s else Run(c, Next(c, s, sts[0]), sts[1..])
  }

  function Initial(c: Config, w: World): State {
    State(-1, seq(c.Parties(), q => if c.Rounds() == 0 then Done else Waiting(0)), false, w, 0, false)
  }

  function Image(st: Step): seq<T.Choice> {
    match st
    case Seek => [Do(Rewind)]
    case Transfer(q, count) => [Do(Moved(q, count))]
    case Eof(q) => [Do(EndOfFile(q))]
    case Finish(_) => [Complete]
    case _ => []
  }

  function Images(sts: seq<Step>): seq<T.Choice> {
    if sts == [] then [] else Image(sts[0]) + Images(sts[1..])
  }

  function Trace(sts: seq<Step>): seq<Event> { T.Trace(Images(sts)) }

  // ----- the invariant -----

  function NextOp(c: Config, q: nat, pc: PC): nat {
    match pc
    case Waiting(i) => c.FirstTurn(i) + q
    case Using(i, _, _) => c.FirstTurn(i) + q
    case Failed(i, _, _) => c.FirstTurn(i) + q
    case Handing(i) => c.FirstTurn(i + 1) + q
    case Spinning(i) => c.FirstTurn(i + 1) + q
    case Done => c.Total() + q
  }

  function Holding(s: State, q: nat): nat {
    if q < |s.pc| && s.pc[q].Handing? then 1 else 0
  }

  /** Where the token is while the root works, hands it out, or waits for it to come back. */
  ghost predicate RootOk(c: Config, s: State)
    requires Shaped(c, s)
  {
    match s.pc[0]
    case Waiting(i) => i < c.Rounds() && s.turns == c.FirstTurn(i) && s.sync == (if i == 0 then -1 else c.ntasks)
    case Using(i, moved, _) =>
      i < c.Rounds() && s.turns == c.FirstTurn(i) && s.sync == (if i == 0 then -1 else c.ntasks) && moved <= |Rec(c, 0)|
      && (c.mode.FileMode? && i == c.niters ==> s.rewound)
    case Failed(i, moved, _) =>
      i < c.Rounds() && s.turns == c.FirstTurn(i) && s.sync == (if i == 0 then -1 else c.ntasks) && moved <= |Rec(c, 0)|
      && s.failed
    case Handing(i) => i < c.Rounds() && s.turns == c.FirstTurn(i) + 1 && s.sync == (if i == 0 then -1 else c.ntasks)
    case Spinning(i) =>
      i < c.Rounds() && 0 <= s.sync <= c.ntasks
      && s.turns == c.FirstTurn(i) + 1 + s.sync + Holding(s, s.sync + 1)
    case Done => s.turns == c.Total() && (s.sync == -1 || s.sync == c.ntasks)
  }

  ghost predicate TaskOk(c: Config, s: State, q: nat)
    requires Shaped(c, s) && q < c.Parties()
  {
    && s.turns <= NextOp(c, q, s.pc[q]) < s.turns + c.Parties()
    && (q > 0 ==>
          match s.pc[q]
          case Waiting(i) => i < c.Rounds()
          case Using(i, moved, _) => s.pc[0] == Spinning(i) && s.sync == q - 1 && moved <= |Rec(c, q)|
          case Failed(i, moved, _) => s.pc[0] == Spinning(i) && s.sync == q - 1 && moved <= |Rec(c, q)| && s.failed
          case Handing(i) => s.pc[0] == Spinning(i) && s.sync == q - 1
          case Spinning(_) => false
          case Done => true)
  }

  ghost predicate Inv(c: Config, s: State) {
    && Shaped(c, s) && RootOk(c, s)
    && (forall q :: 0 <= q < c.Parties() ==> TaskOk(c, s, q))
    && (s.failed ==> s.pc[Who(c, s.turns)].Failed?)
  }

  function Abs(c: Config, s: State): Turn
    requires Shaped(c, s)
  {
    var pc := s.pc[Who(c, s.turns)];
    if pc.Using? || pc.Failed? then Turn(s.turns, pc.moved, pc.ended, s.rewound, s.failed, s.world)
    else Turn(s.turns, 0, false, s.rewound, s.failed, s.world)
  }

  /** The token decides: a participant in, or allowed into, its operation has the current turn. */
  lemma TokenHolder(c: Config, s: State, q: nat)
    requires Inv(c, s) && q < c.Parties()
    requires s.pc[q].Using? || s.pc[q].Failed? || (s.pc[q].Waiting? && (q == 0 || s.sync == q - 1))
    ensures q == Who(c, s.turns) && s.pc[q].i == Iter(c, s.turns)
    ensures s.turns == c.FirstTurn(s.pc[q].i) + q < c.Total()
    ensures q > 0 ==> s.pc[0] == Spinning(s.pc[q].i)
    ensures s.failed ==> s.pc[q].Failed?
  {
    assert TaskOk(c, s, q);
    var i := s.pc[q].i;
    TurnOf(c, i, q);
    if q > 0 {
      assert s.pc[0].Spinning?;
      TurnOf(c, s.pc[0].i, q);
      SameOwner(c, s.turns, NextOp(c, q, s.pc[q]));
    }
  }

  lemma InitialInv(c: Config, w: World)
    requires WorldOk(c, w)
    ensures Inv(c, Initial(c, w)) && Abs(c, Initial(c, w)) == T.Start(w)
  {
    var s := Initial(c, w);
    forall q | 0 <= q < c.Parties() ensures TaskOk(c, s, q) {
      assert c.FirstTurn(0) == 0;
      assert s.pc[q] == if c.Rounds() == 0 then Done else Waiting(0);
    }
  }

  lemma RootStaysOk(c: Config, s: State, st: Step)
    requires Inv(c, s) && Enabled(c, s, st)
    ensures Shaped(c, Next(c, s, st)) && RootOk(c, Next(c, s, st))
  {
    match st
    case Finish(q) => RootSeesFinish(c, s, q);
    case Hand(q) => RootSeesHand(c, s, q);
    case Go => RootGoes(c, s);
    case _ => RootSeesTransfer(c, s, st);
  }

  lemma RootGoes(c: Config, s: State)
    requires Shaped(c, s) && RootOk(c, s) && Enabled(c, s, Go)
    ensures RootOk(c, Next(c, s, Go))
  {
    assert s.pc[0].i + 1 <= c.Rounds();
  }

  lemma RootSeesTransfer(c: Config, s: State, st: Step)
    requires Shaped(c, s) && RootOk(c, s) && Enabled(c, s, st) && !st.Finish? && !st.Hand? && !st.Go?
    ensures Shaped(c, Next(c, s, st)) && RootOk(c, Next(c, s, st))
  {
  }

  lemma RootSeesFinish(c: Config, s: State, q: nat)
    requires Inv(c, s) && Enabled(c, s, Finish(q))
    ensures RootOk(c, Next(c, s, Finish(q)))
  {
    assert TaskOk(c, s, q);
    TokenHolder(c, s, q);
  }

  /** When the token moves on, its next holder has not already used it. */
  lemma RootSeesHand(c: Config, s: State, q: nat)
    requires Inv(c, s) && Enabled(c, s, Hand(q))
    ensures RootOk(c, Next(c, s, Hand(q)))
  {
    assert TaskOk(c, s, q);
    if q + 1 < c.Parties() { assert TaskOk(c, s, q + 1); }
  }

  lemma TasksStayOk(c: Config, s: State, st: Step, q: nat)
    requires Inv(c, s) && Enabled(c, s, st) && q < c.Parties()
    ensures Shaped(c, Next(c, s, st)) && TaskOk(c, Next(c, s, st), q)
  {
    assert TaskOk(c, s, q);
    if q == Actor(st) {
      ActorStaysOk(c, s, st);
    } else {
      OtherStaysOk(c, s, st, q);
    }
  }

  lemma ActorStaysOk(c: Config, s: State, st: Step)
    requires Inv(c, s) && Enabled(c, s, st)
    ensures Shaped(c, Next(c, s, st)) && TaskOk(c, Next(c, s, st), Actor(st))
  {
    var p := Actor(st);
    assert TaskOk(c, s, p);
    if st.Begin? || st.Finish? { TokenHolder(c, s, p); }
    if st.Finish? { FinisherStaysOk(c, s, p); } else { UserStaysOk(c, s, st); }
  }

  lemma FinisherStaysOk(c: Config, s: State, q: nat)
    requires Shaped(c, s) && Enabled(c, s, Finish(q)) && TaskOk(c, s, q)
    requires s.turns == c.FirstTurn(s.pc[q].i) + q && (q > 0 ==> s.pc[0] == Spinning(s.pc[q].i))
    ensures Shaped(c, Next(c, s, Finish(q))) && TaskOk(c, Next(c, s, Finish(q)), q)
  {
  }

  lemma UserStaysOk(c: Config, s: State, st: Step)
    requires Shaped(c, s) && RootOk(c, s) && Enabled(c, s, st) && !st.Finish? && TaskOk(c, s, Actor(st))
    requires st.Begin? && st.q > 0 ==> s.pc[0] == Spinning(s.pc[st.q].i)
    ensures Shaped(c, Next(c, s, st)) && TaskOk(c, Next(c, s, st), Actor(st))
  {
  }

  lemma OtherStaysOk(c: Config, s: State, st: Step, q: nat)
    requires Inv(c, s) && Enabled(c, s, st) && q < c.Parties() && q != Actor(st)
    ensures Shaped(c, Next(c, s, st)) && TaskOk(c, Next(c, s, st), q)
  {
    var p := Actor(st);
    assert TaskOk(c, s, p) && TaskOk(c, s, q);
    if st.Finish? {
      TokenHolder(c, s, p);
      NextOpOwner(c, s, q);
    }
  }

  lemma NextOpOwner(c: Config, s: State, q: nat)
    requires Inv(c, s) && q < c.Parties()
    ensures Who(c, NextOp(c, q, s.pc[q])) == q
  {
    match s.pc[q]
    case Waiting(i) => TurnOf(c, i, q);
    case Using(i, _, _) => TurnOf(c, i, q);
    case Failed(i, _, _) => TurnOf(c, i, q);
    case Handing(i) => TurnOf(c, i + 1, q);
    case Spinning(i) => TurnOf(c, i + 1, q);
    case Done => TurnOf(c, c.Rounds(), q);
  }

  lemma StepInv(c: Config, s: State, st: Step)
    requires Inv(c, s) && Enabled(c, s, st)
    ensures Inv(c, Next(c, s, st))
  {
    var t := Next(c, s, st);
    RootStaysOk(c, s, st);
    forall q | 0 <= q < c.Parties() ensures TaskOk(c, t, q) {
      TasksStayOk(c, s, st, q);
    }
    FailureStays(c, s, st);
  }

  lemma FailureStays(c: Config, s: State, st: Step)
    requires Inv(c, s) && Enabled(c, s, st)
    ensures var t := Next(c, s, st); Shaped(c, t) && (t.failed ==> t.pc[Who(c, t.turns)].Failed?)
  {
    if st.Finish? { TokenHolder(c, s, st.q); }
  }

  // ----- refinement -----

  lemma UserHasToken(c: Config, s: State, p: nat)
    requires Inv(c, s) && p < c.Parties() && s.pc[p].Using?
    ensures p == Who(c, s.turns) && s.pc[p].i == Iter(c, s.turns) && s.turns < c.Total()
    ensures Abs(c, s) == Turn(s.turns, s.pc[p].moved, s.pc[p].ended, s.rewound, false, s.world)
    ensures !T.NeedsRewind(c, Abs(c, s))
  {
    TokenHolder(c, s, p);
    assert TaskOk(c, s, p);
    if T.NeedsRewind(c, Abs(c, s)) {
      TurnOf(c, c.niters, 0);
      assert false;
    }
  }

  lemma StepRefines(c: Config, s: State, st: Step)
    requires Inv(c, s) && Enabled(c, s, st)
    ensures Image(st) == [] ==> Abs(c, Next(c, s, st)) == Abs(c, s)
    ensures Image(st) != [] ==> T.Enabled(c, Abs(c, s), Image(st)[0])
                                && Abs(c, Next(c, s, st)) == T.Next(c, Abs(c, s), Image(st)[0])
  {
    match st
    case Finish(p) => FinishRefines(c, s, p);
    case Seek => SeekRefines(c, s);
    case Transfer(p, _) => UserHasToken(c, s, p);
    case Eof(p) => UserHasToken(c, s, p);
    case Begin(p) => TokenHolder(c, s, p);
    case _ => SilentStep(c, s, st);
  }

  lemma SilentStep(c: Config, s: State, st: Step)
    requires Inv(c, s) && Enabled(c, s, st) && (st.Hand? || st.Go?)
    ensures Abs(c, Next(c, s, st)) == Abs(c, s)
  {
    assert s.pc[Actor(st)].Handing? || s.pc[Actor(st)].Spinning?;
  }

  lemma SeekRefines(c: Config, s: State)
    requires Inv(c, s) && Enabled(c, s, Seek)
    ensures T.Enabled(c, Abs(c, s), Do(Rewind))
    ensures Abs(c, Next(c, s, Seek)) == T.Next(c, Abs(c, s), Do(Rewind))
  {
    TokenHolder(c, s, 0);
  }

  lemma FinishRefines(c: Config, s: State, p: nat)
    requires Inv(c, s) && Enabled(c, s, Finish(p))
    ensures T.Enabled(c, Abs(c, s), Complete)
    ensures Abs(c, Next(c, s, Finish(p))) == T.Next(c, Abs(c, s), Complete)
  {
    UserHasToken(c, s, p);
    var t := Next(c, s, Finish(p));
    if !t.failed {
      StepInv(c, s, Finish(p));
      var o := Who(c, t.turns);
      if t.pc[o].Using? || t.pc[o].Failed? {
        TokenHolder(c, t, o);
        assert o != p;
        TokenHolder(c, s, o);
        assert false;
      }
    }
  }

  // ----- progress -----

  function TaskRank(c: Config, q: nat, pc: PC): int {
    var perRound := |Rec(c, q)| + 8;
    match pc
    case Waiting(i) => (c.Rounds() - i) * perRound
    case Using(i, moved, ended) => (c.Rounds() - i) * perRound - 1 - moved - (if ended then 1 else 0)
    case Handing(i) => (c.Rounds() - i) * perRound - |Rec(c, q)| - 3
    case Spinning(i) => (c.Rounds() - i) * perRound - |Rec(c, q)| - 4
    case Done => 0
    case Failed(_, _, _) => 0
  }

  function Ranks(c: Config, s: State): (r: seq<int>)
    requires Shaped(c, s)
    ensures |r| == c.Parties()
  {
    seq(c.Parties(), q requires 0 <= q < c.Parties() => TaskRank(c, q, s.pc[q]))
  }

  ghost function Rank(c: Config, s: State): int
    requires Shaped(c, s)
  {
    Sum(Ranks(c, s)) + if s.rewound then 0 else 1
  }

  lemma RankNonNegative(c: Config, s: State)
    requires Inv(c, s)
    ensures Rank(c, s) >= 0
  {
    forall q | 0 <= q < c.Parties() ensures Ranks(c, s)[q] >= 0 {
      assert TaskOk(c, s, q);
      var pc := s.pc[q];
      if !pc.Done? && !pc.Failed? { RoundsLeft(c, pc.i, |Rec(c, q)| + 8); }
    }
    SumNonNegative(Ranks(c, s));
  }

  lemma ActorRankDrops(c: Config, s: State, st: Step)
    requires Inv(c, s) && Enabled(c, s, st) && !st.Seek?
    ensures var t, q := Next(c, s, st), Actor(st);
      Shaped(c, t) && TaskRank(c, q, t.pc[q]) < TaskRank(c, q, s.pc[q])
  {
    assert TaskOk(c, s, Actor(st));
    OwnRankDrops(c, s, st);
  }

  lemma OwnRankDrops(c: Config, s: State, st: Step)
    requires Enabled(c, s, st) && !st.Seek? && RootOk(c, s) && TaskOk(c, s, Actor(st))
    ensures var t, q := Next(c, s, st), Actor(st);
      Shaped(c, t) && TaskRank(c, q, t.pc[q]) < TaskRank(c, q, s.pc[q])
  {
    var q := Actor(st);
    RoundsLeft(c, s.pc[q].i, |Rec(c, q)| + 8);
  }

  lemma RankDrops(c: Config, s: State, st: Step)
    requires Inv(c, s) && Enabled(c, s, st)
    ensures Shaped(c, Next(c, s, st)) && Rank(c, Next(c, s, st)) < Rank(c, s)
  {
    var t, q := Next(c, s, st), Actor(st);
    var r := TaskRank(c, q, t.pc[q]);
    assert Ranks(c, t) == Ranks(c, s)[q := r];
    SumUpdate(Ranks(c, s), q, r);
    if !st.Seek? { ActorRankDrops(c, s, st); }
  }

  lemma Serve(c: Config, s: State, ch: T.Choice) returns (st: Step)
    requires Inv(c, s) && T.Enabled(c, Abs(c, s), ch)
    ensures Enabled(c, s, st) && (Image(st) == [] || Image(st) == [ch])
  {
    var q := if s.pc[0].Spinning? then s.sync + 1 else 0;
    if s.pc[0].Spinning? && s.sync == c.ntasks {
      st := Go;
    } else {
      assert TaskOk(c, s, q);
      if s.pc[q].Using? {
        UserHasToken(c, s, q);
        match ch
        case Do(Rewind) => assert false;
        case Do(Moved(_, count)) => st := Transfer(q, count);
        case Do(EndOfFile(_)) => st := Eof(q);
        case Complete => st := Finish(q);
      } else if s.pc[q].Waiting? {
        st := if q == 0 && AtSeek(c, s) then Seek else Begin(q);
        if st.Seek? { SeekRefines(c, s); }
      } else if s.pc[q].Handing? {
        st := Hand(q);
      } else {
        DeadHolder(c, s, q);
        assert false;
      }
    }
  }

  lemma DeadHolder(c: Config, s: State, q: nat)
    requires Inv(c, s) && !s.failed && s.turns < c.Total() && q < c.Parties()
    requires if s.pc[0].Spinning? then q == s.sync + 1 else q == 0
    ensures !s.pc[q].Done? && !s.pc[q].Failed? && !s.pc[q].Spinning?
  {
    assert TaskOk(c, s, q);
    if s.pc[q].Done? && q > 0 {
      FirstTurnGrows(c, s.pc[0].i, c.Rounds());
    }
  }

  // ----- whole runs -----

  lemma {:induction false} RunRefines(c: Config, s: State, sts: seq<Step>)
    requires Inv(c, s) && Legal(c, s, sts)
    ensures Inv(c, Run(c, s, sts))
    ensures T.Legal(c, Abs(c, s), Images(sts))
    ensures Abs(c, Run(c, s, sts)) == T.Run(c, Abs(c, s), Images(sts))
    decreases |sts|
  {
    if sts == [] {
    } else {
      StepInv(c, s, sts[0]);
      StepRefines(c, s, sts[0]);
      RunRefines(c, Next(c, s, sts[0]), sts[1..]);
      assert Images(sts) == Image(sts[0]) + Images(sts[1..]);
      if Image(sts[0]) != [] {
        assert Images(sts)[1..] == Images(sts[1..]);
      } else {
        assert Images(sts) == Images(sts[1..]);
      }
    }
  }

  lemma {:induction false} RunRealised(c: Config, s: State, chs: seq<T.Choice>) returns (sts: seq<Step>)
    requires Inv(c, s) && T.Legal(c, Abs(c, s), chs)
    ensures Legal(c, s, sts) && Images(sts) == chs
    decreases |chs|, Rank(c, s)
  {
    if chs == [] {
      sts := [];
    } else {
      var st := Serve(c, s, chs[0]);
      StepInv(c, s, st);
      StepRefines(c, s, st);
      RankNonNegative(c, Next(c, s, st));
      RankDrops(c, s, st);
      if Image(st) == [] {
        var rest := RunRealised(c, Next(c, s, st), chs);
        sts := [st] + rest;
        assert sts[1..] == rest;
      } else {
        var rest := RunRealised(c, Next(c, s, st), chs[1..]);
        sts := [st] + rest;
        assert sts[1..] == rest && Images(sts) == [chs[0]] + chs[1..];
      }
    }
  }

  lemma {:induction false} RunBounded(c: Config, s: State, sts: seq<Step>)
    requires Inv(c, s) && Legal(c, s, sts)
    ensures |sts| <= Rank(c, s)
    decreases |sts|
  {
    RankNonNegative(c, s);
    if sts == [] {
    } else {
      StepInv(c, s, sts[0]);
      RankDrops(c, s, sts[0]);
      RunBounded(c, Next(c, s, sts[0]), sts[1..]);
    }
  }

  ghost predicate Stuck(c: Config, s: State) {
    forall st :: !Enabled(c, s, st)
  }

  predicate AllDone(s: State) {
    forall q :: 0 <= q < |s.pc| ==> s.pc[q].Done?
  }

  /** Nobody spins for ever: a run that cannot be continued has failed a CHECK or is complete. */
  lemma NobodyLeftSpinning(c: Config, s: State)
    requires Inv(c, s) && Stuck(c, s) && !s.failed
    ensures AllDone(s) && s.turns == c.Total()
  {
    var o := Who(c, s.turns);
    assert TaskOk(c, s, o);
    assert TaskOk(c, s, 0);
    if s.turns < c.Total() {
      if s.pc[o].Using? { UserHasToken(c, s, o); }
      var ch := T.CanGoOn(c, Abs(c, s));
      var st := Serve(c, s, ch);
      assert false;
    }
    assert !Enabled(c, s, Go) && !Enabled(c, s, Hand(0));
    EndOfTurns(c, s);
    forall q | 0 <= q < |s.pc| ensures s.pc[q].Done? {
      assert TaskOk(c, s, q);
      if s.pc[q].Waiting? { FirstTurnGrows(c, s.pc[q].i, c.Rounds()); }
    }
  }

  lemma EndOfTurns(c: Config, s: State)
    requires Inv(c, s) && s.turns >= c.Total()
    requires !Enabled(c, s, Go) && forall q: nat :: !Enabled(c, s, Hand(q))
    ensures s.pc[0].Done?
  {
    assert !Enabled(c, s, Hand(0));
    assert s.pc[0].Spinning? ==> !Enabled(c, s, Hand(s.sync + 1));
    if !s.pc[0].Done? {
      FirstTurnGrows(c, s.pc[0].i, c.Rounds());
    }
  }
}
