/**
 basics/seek.c compiled with USE_BARRIER: participant q waits q times on the common
 barrier, uses the file, and waits ntasks+1-q times more, in every iteration. (Read with
 q = 0 this is the root's code, with q = pipid+1 it is a task's.) Every barrier call and
 return and every single read, write or lseek is a step of its own.
 */
module SeekBarrier {
  import opened CyclicBarrier
  import opened Sums
  import opened T = SeekTurns

  datatype PC =
    | Before(i: nat, ii: nat)                      // in the waits ahead of the operation
    | Using(i: nat, moved: nat, ended: bool)       // inside my_read or my_write
    | After(i: nat, ii: nat)                       // in the waits behind it
    | Done
    | Failed(i: nat, moved: nat, ended: bool)      // a CHECK made the participant return

  /** `turns` and `failed` are history; `rewound` tells the root's two loops apart. */
  datatype State = State(bar: Barrier, pc: seq<PC>, rewound: bool, world: World, turns: nat, failed: bool)

  datatype Step =
    | Call(q: nat) | Return(q: nat) | Begin(q: nat) | Seek
    | Transfer(q: nat, count: nat) | Eof(q: nat) | Finish(q: nat) | Again(q: nat)

  predicate Shaped(c: Config, s: State) {
    && |s.pc| == |s.bar.inside| == |s.bar.ticket| == |s.bar.calls| == c.Parties()
    && WorldOk(c, s.world)
  }

  function Actor(st: Step): nat { if st.Seek? then 0 else st.q }

  predicate AtSeek(c: Config, s: State)
    requires Shaped(c, s)
  {
    c.mode.FileMode? && s.pc[0] == Before(c.niters, 0) && !s.rewound
  }

  predicate Enabled(c: Config, s: State, st: Step) {
    && Shaped(c, s) && Actor(st) < c.Parties()
    && var q := Actor(st);
       var pc := s.pc[q];
       match st
       case Call(_) => MayEnter(s.bar, q) && ((pc.Before? && pc.ii < q) || (pc.After? && pc.ii < c.Parties()))
       case Return(_) => MayLeave(s.bar, q) && (pc.Before? || pc.After?)
       case Begin(_) => !s.bar.inside[q] && pc.Before? && pc.ii == q && !(q == 0 && AtSeek(c, s))
       case Seek => !s.bar.inside[0] && AtSeek(c, s)
       case Transfer(_, count) => pc.Using? && CanMove(c, s.world, q, KindOf(c, q, pc.i), pc.moved, pc.ended, count)
       case Eof(_) => pc.Using? && CanEnd(c, s.world, q, KindOf(c, q, pc.i), pc.moved, pc.ended)
       case Finish(_) => pc.Using? && Over(c, q, KindOf(c, q, pc.i), pc.moved, pc.ended)
       case Again(_) => !s.bar.inside[q] && pc.After? && pc.ii == c.Parties()
  }

  function Next(c: Config, s: State, st: Step): State
    requires Enabled(c, s, st)
  {
    var q := Actor(st);
    var pc := s.pc[q];
    match st
    case Call(_) => s.(bar := Enter(s.bar, q))
    case Return(_) =>
      s.(bar := Leave(s.bar, q),
         pc := s.pc[q := if pc.Before? then Before(pc.i, pc.ii + 1) else After(pc.i, pc.ii + 1)])
    case Begin(_) => s.(pc := s.pc[q := Using(pc.i, 0, false)])
    case Seek => s.(rewound := true, world := s.world.(offset := 0))
    case Transfer(_, count) =>
      s.(pc := s.pc[q := Using(pc.i, pc.moved + count, pc.ended)],
         world := Move(c, s.world, q, KindOf(c, q, pc.i), pc.moved, pc.ended, count))
    case Eof(_) => s.(pc := s.pc[q := Using(pc.i, pc.moved, true)])
    case Finish(_) =>
      if Passes(c, s.world, q, KindOf(c, q, pc.i), pc.moved) then
        s.(pc := s.pc[q := After(pc.i, q)], turns := s.turns + 1)
      else
        s.(pc := s.pc[q := Failed(pc.i, pc.moved, pc.ended)], failed := true)
    case Again(_) => s.(pc := s.pc[q := if pc.i + 1 < c.Rounds() then Before(pc.i + 1, 0) else Done])
  }

  predicate Legal(c: Config, s: State, sts: seq<Step>)
    decreases |sts|
  {
    sts == [] || (Enabled(c, s, sts[0]) && Legal(c, Next(c, s, sts[0]), sts[1..]))
  }

  function Run(c: Config, s: State, sts: seq<Step>): State
    requires Legal(c, s, sts)
    decreases |sts|
  {
    if sts == [] then s else Run(c, Next(c, s, sts[0]), sts[1..])
  }

  /** The root initialises the barrier for ntasks+1 callers before it spawns anybody. */
  function Initial(c: Config, w: World): State {
    State(CyclicBarrier.Fresh(c.Parties(), c.Parties()),
          seq(c.Parties(), q => if c.Rounds() == 0 then Done else Before(0, 0)),
          false, w, 0, false)
  }

  /** The step of the turn machine that a step of this one amounts to, if any. */
  function Image(st: Step): seq<T.Choice> {
    match st
    case Seek => [Do(Rewind)]
    case Transfer(q, count) => [Do(Moved(q, count))]
    case Eof(q) => [Do(EndOfFile(q))]
    case Finish(_) => [Complete]
    case _ => []
  }

  function Images(sts: seq<Step>): seq<T.Choice> {
    if sts == [] then [] else Image(sts[0]) + Images(sts[1..])
  }

  /** The calls on the shared descriptor made by a run. */
  function Trace(sts: seq<Step>): seq<Event> { T.Trace(Images(sts)) }

  // ----- the invariant -----

  /** The number, in the common order, of the operation that q will do next (or is doing). */
  function NextOp(c: Config, q: nat, pc: PC): nat {
    match pc
    case Before(i, _) => c.FirstTurn(i) + q
    case Using(i, _, _) => c.FirstTurn(i) + q
    case Failed(i, _, _) => c.FirstTurn(i) + q
    case After(i, _) => c.FirstTurn(i + 1) + q
    case Done => c.Total() + q
  }

  ghost predicate PcOk(c: Config, q: nat, pc: PC, inside: bool, calls: nat) {
    match pc
    case Before(i, ii) =>
      i < c.Rounds() && ii <= q && (inside ==> ii < q) && calls == c.FirstTurn(i) + ii + (if inside then 1 else 0)
    case Using(i, moved, _) =>
      i < c.Rounds() && !inside && calls == c.FirstTurn(i) + q && moved <= |Rec(c, q)|
    case After(i, ii) =>
      i < c.Rounds() && q <= ii <= c.Parties() && (inside ==> ii < c.Parties())
      && calls == c.FirstTurn(i) + ii + (if inside then 1 else 0)
    case Done => !inside && calls == c.Total()
    case Failed(i, moved, _) =>
      i < c.Rounds() && !inside && calls == c.FirstTurn(i) + q && moved <= |Rec(c, q)|
  }

  ghost predicate TaskOk(c: Config, s: State, q: nat)
    requires Shaped(c, s) && q < c.Parties()
  {
    && PcOk(c, q, s.pc[q], s.bar.inside[q], s.bar.calls[q])
    && s.turns <= NextOp(c, q, s.pc[q]) < s.turns + c.Parties()
    && (s.pc[q].Failed? ==> s.failed)
  }

  ghost predicate Inv(c: Config, s: State) {
    && Shaped(c, s) && Sound(s.bar) && s.bar.needed == c.Parties()
    && (forall q :: 0 <= q < c.Parties() ==> TaskOk(c, s, q))
    && (s.failed ==> s.pc[Who(c, s.turns)].Failed?)
    && (c.mode.FileMode? && (s.pc[0].Using? || s.pc[0].Failed?) && s.pc[0].i == c.niters ==> s.rewound)
  }

  function Abs(c: Config, s: State): Turn
    requires Shaped(c, s)
  {
    var pc := s.pc[Who(c, s.turns)];
    if pc.Using? || pc.Failed? then Turn(s.turns, pc.moved, pc.ended, s.rewound, s.failed, s.world)
    else Turn(s.turns, 0, false, s.rewound, s.failed, s.world)
  }

  lemma NextOpOwner(c: Config, q: nat, pc: PC, inside: bool, calls: nat)
    requires q < c.Parties() && PcOk(c, q, pc, inside, calls)
    ensures Who(c, NextOp(c, q, pc)) == q
    ensures calls <= NextOp(c, q, pc)
  {
    match pc
    case Before(i, _) => TurnOf(c, i, q);
    case Using(i, _, _) => TurnOf(c, i, q);
    case Failed(i, _, _) => TurnOf(c, i, q);
    case After(i, _) => TurnOf(c, i + 1, q);
    case Done => TurnOf(c, c.Rounds(), q);
  }

  lemma OwnerIsNext(c: Config, s: State)
    requires Inv(c, s)
    ensures NextOp(c, Who(c, s.turns), s.pc[Who(c, s.turns)]) == s.turns
  {
    var q := Who(c, s.turns);
    assert TaskOk(c, s, q);
    NextOpOwner(c, q, s.pc[q], s.bar.inside[q], s.bar.calls[q]);
    SameOwner(c, s.turns, NextOp(c, q, s.pc[q]));
  }

  predicate HasTurn(s: State, q: nat)
    requires q < |s.pc| == |s.bar.inside|
  {
    s.pc[q].Using? || s.pc[q].Failed? || (s.pc[q].Before? && s.pc[q].ii == q && !s.bar.inside[q])
  }

  /** Mutual exclusion and order: whoever has passed the waits ahead of its operation is the
      only one, and its operation is the one whose turn it is. */
  lemma TurnOwner(c: Config, s: State, q: nat)
    requires Inv(c, s) && q < c.Parties() && HasTurn(s, q)
    ensures q == Who(c, s.turns) && s.pc[q].i == Iter(c, s.turns)
    ensures s.turns == c.FirstTurn(s.pc[q].i) + q < c.Total()
    ensures s.bar.calls[q] == s.bar.round == s.turns
  {
    var o := Who(c, s.turns);
    assert TaskOk(c, s, q) && TaskOk(c, s, o);
    NextOpOwner(c, o, s.pc[o], s.bar.inside[o], s.bar.calls[o]);
    OwnerIsNext(c, s);
    assert s.bar.calls[o] >= s.bar.round == s.bar.calls[q];
    TurnOf(c, s.pc[q].i, q);
  }

  lemma InitialInv(c: Config, w: World)
    requires WorldOk(c, w)
    ensures Inv(c, Initial(c, w)) && Abs(c, Initial(c, w)) == T.Start(w)
  {
    var s := Initial(c, w);
    FreshSound(c.Parties());
    forall q | 0 <= q < c.Parties() ensures TaskOk(c, s, q) {
      assert c.FirstTurn(0) == 0;
      assert s.pc[q] == if c.Rounds() == 0 then Done else Before(0, 0);
      assert s.bar.calls[q] == 0 && !s.bar.inside[q];
      assert PcOk(c, q, s.pc[q], s.bar.inside[q], s.bar.calls[q]);
    }
  }

  lemma BarrierStaysSound(c: Config, s: State, st: Step)
    requires Inv(c, s) && Enabled(c, s, st)
    ensures var b := Next(c, s, st).bar; Sound(b) && b.needed == c.Parties()
  {
    if st.Call? { EnterSound(s.bar, st.q); }
    if st.Return? { LeaveSound(s.bar, st.q); }
  }

  lemma ActorStaysOk(c: Config, s: State, st: Step)
    requires Inv(c, s) && Enabled(c, s, st)
    ensures Shaped(c, Next(c, s, st)) && TaskOk(c, Next(c, s, st), Actor(st))
  {
    assert TaskOk(c, s, Actor(st));
    if st.Finish? {
      TurnOwner(c, s, st.q);
      FinisherStaysOk(c, s, st.q);
    } else if st.Call? || st.Return? {
      WaiterStaysOk(c, s, st);
    } else {
      UserStaysOk(c, s, st);
    }
  }

  lemma FinisherStaysOk(c: Config, s: State, q: nat)
    requires Enabled(c, s, Finish(q)) && TaskOk(c, s, q) && s.turns == c.FirstTurn(s.pc[q].i) + q
    ensures Shaped(c, Next(c, s, Finish(q))) && TaskOk(c, Next(c, s, Finish(q)), q)
  {
  }

  lemma WaiterStaysOk(c: Config, s: State, st: Step)
    requires Enabled(c, s, st) && (st.Call? || st.Return?) && TaskOk(c, s, st.q)
    ensures Shaped(c, Next(c, s, st)) && TaskOk(c, Next(c, s, st), st.q)
  {
  }

  lemma UserStaysOk(c: Config, s: State, st: Step)
    requires Enabled(c, s, st) && !st.Finish? && !st.Call? && !st.Return? && TaskOk(c, s, Actor(st))
    ensures Shaped(c, Next(c, s, st)) && TaskOk(c, Next(c, s, st), Actor(st))
  {
  }

  /** The other participants notice at most that the number of finished turns grew. */
  lemma OthersStayOk(c: Config, s: State, st: Step, q: nat)
    requires Inv(c, s) && Enabled(c, s, st) && q < c.Parties() && q != Actor(st)
    ensures Shaped(c, Next(c, s, st)) && TaskOk(c, Next(c, s, st), q)
  {
    assert TaskOk(c, s, q);
    if st.Finish? {
      NextOpOwner(c, q, s.pc[q], s.bar.inside[q], s.bar.calls[q]);
      TurnOwner(c, s, st.q);
    }
    OtherStays(c, s, st, q);
  }

  lemma OtherStays(c: Config, s: State, st: Step, q: nat)
    requires Enabled(c, s, st) && q < c.Parties() && q != Actor(st) && TaskOk(c, s, q)
    requires st.Finish? ==> NextOp(c, q, s.pc[q]) != s.turns
    ensures Shaped(c, Next(c, s, st)) && TaskOk(c, Next(c, s, st), q)
  {
    var t := Next(c, s, st);
    assert t.pc[q] == s.pc[q] && t.bar.inside[q] == s.bar.inside[q] && t.bar.calls[q] == s.bar.calls[q];
  }

  lemma HistoryStaysOk(c: Config, s: State, st: Step)
    requires Inv(c, s) && Enabled(c, s, st)
    ensures var t := Next(c, s, st);
      && Shaped(c, t)
      && (t.failed ==> t.pc[Who(c, t.turns)].Failed?)
      && (c.mode.FileMode? && (t.pc[0].Using? || t.pc[0].Failed?) && t.pc[0].i == c.niters ==> t.rewound)
  {
    var p := Actor(st);
    if st.Finish? {
      TurnOwner(c, s, p);
    }
  }

  lemma AllStayOk(c: Config, s: State, st: Step)
    requires Inv(c, s) && Enabled(c, s, st)
    ensures var t := Next(c, s, st);
      Shaped(c, t) && forall q :: 0 <= q < c.Parties() ==> TaskOk(c, t, q)
  {
    ActorStaysOk(c, s, st);
    var t := Next(c, s, st);
    forall q | 0 <= q < c.Parties() ensures TaskOk(c, t, q) {
      if q != Actor(st) { OthersStayOk(c, s, st, q); }
    }
  }

  lemma StepInv(c: Config, s: State, st: Step)
    requires Inv(c, s) && Enabled(c, s, st)
    ensures Inv(c, Next(c, s, st))
  {
    BarrierStaysSound(c, s, st);
    AllStayOk(c, s, st);
    HistoryStaysOk(c, s, st);
  }

  // ----- refinement -----

  /** Right after p's operation its successor has not begun its own. */
  lemma NobodyMidway(c: Config, t: State, p: nat)
    requires Inv(c, t) && p < c.Parties() && !t.bar.inside[p] && t.pc[p].After? && t.pc[p].ii == p
    ensures var pc := t.pc[Who(c, t.turns)]; !pc.Using? && !pc.Failed?
  {
    var o := Who(c, t.turns);
    assert TaskOk(c, t, p) && TaskOk(c, t, o);
    if HasTurn(t, o) {
      TurnOwner(c, t, o);
      assert false;
    }
  }

  /** Every step is invisible to the turn machine, or is exactly its image there. */
  lemma StepRefines(c: Config, s: State, st: Step)
    requires Inv(c, s) && Enabled(c, s, st)
    ensures Image(st) == [] ==> Abs(c, Next(c, s, st)) == Abs(c, s)
    ensures Image(st) != [] ==> T.Enabled(c, Abs(c, s), Image(st)[0])
                                && Abs(c, Next(c, s, st)) == T.Next(c, Abs(c, s), Image(st)[0])
  {
    match st
    case Finish(p) => FinishRefines(c, s, p);
    case Seek => SeekRefines(c, s);
    case Transfer(p, count) => TransferRefines(c, s, p, count);
    case Eof(p) => EofRefines(c, s, p);
    case _ =>
  }

  lemma TransferRefines(c: Config, s: State, p: nat, count: nat)
    requires Inv(c, s) && Enabled(c, s, Transfer(p, count))
    ensures T.Enabled(c, Abs(c, s), Do(Moved(p, count)))
    ensures Abs(c, Next(c, s, Transfer(p, count))) == T.Next(c, Abs(c, s), Do(Moved(p, count)))
  {
    UserHasTurn(c, s, p);
  }

  lemma EofRefines(c: Config, s: State, p: nat)
    requires Inv(c, s) && Enabled(c, s, Eof(p))
    ensures T.Enabled(c, Abs(c, s), Do(EndOfFile(p)))
    ensures Abs(c, Next(c, s, Eof(p))) == T.Next(c, Abs(c, s), Do(EndOfFile(p)))
  {
    UserHasTurn(c, s, p);
  }

  lemma UserHasTurn(c: Config, s: State, p: nat)
    requires Inv(c, s) && p < c.Parties() && s.pc[p].Using?
    ensures p == Who(c, s.turns) && s.pc[p].i == Iter(c, s.turns) && s.turns < c.Total()
    ensures Abs(c, s) == Turn(s.turns, s.pc[p].moved, s.pc[p].ended, s.rewound, false, s.world)
    ensures !T.NeedsRewind(c, Abs(c, s))
  {
    TurnOwner(c, s, p);
    if T.NeedsRewind(c, Abs(c, s)) {
      TurnOf(c, c.niters, 0);
      assert false;
    }
  }

  lemma SeekRefines(c: Config, s: State)
    requires Inv(c, s) && Enabled(c, s, Seek)
    ensures T.Enabled(c, Abs(c, s), Do(Rewind))
    ensures Abs(c, Next(c, s, Seek)) == T.Next(c, Abs(c, s), Do(Rewind))
  {
    assert TaskOk(c, s, 0);
    TurnOwner(c, s, 0);
  }

  lemma FinishRefines(c: Config, s: State, p: nat)
    requires Inv(c, s) && Enabled(c, s, Finish(p))
    ensures T.Enabled(c, Abs(c, s), Complete)
    ensures Abs(c, Next(c, s, Finish(p))) == T.Next(c, Abs(c, s), Complete)
  {
    UserHasTurn(c, s, p);
    assert TaskOk(c, s, p);
    var t := Next(c, s, Finish(p));
    if !t.failed {
      StepInv(c, s, Finish(p));
      NobodyMidway(c, t, p);
    }
  }

  // ----- progress -----

  /** An upper bound on the steps that participant q can still take. */
  function TaskRank(c: Config, q: nat, pc: PC, inside: bool): int {
    var perRound := 2 * c.Parties() + |Rec(c, q)| + 8;
    var entering := if inside then 1 else 0;
    match pc
    case Before(i, ii) => (c.Rounds() - i) * perRound - 2 * ii - entering
    case Using(i, moved, ended) => (c.Rounds() - i) * perRound - 2 * q - 2 - moved - (if ended then 1 else 0)
    case After(i, ii) => (c.Rounds() - i) * perRound - 2 * ii - entering - |Rec(c, q)| - 4
    case Done => 0
    case Failed(_, _, _) => 0
  }

  function Ranks(c: Config, s: State): (r: seq<int>)
    requires Shaped(c, s)
    ensures |r| == c.Parties()
  {
    seq(c.Parties(), q requires 0 <= q < c.Parties() => TaskRank(c, q, s.pc[q], s.bar.inside[q]))
  }

  ghost function Rank(c: Config, s: State): int
    requires Shaped(c, s)
  {
    Sum(Ranks(c, s)) + if s.rewound then 0 else 1
  }

  lemma RankNonNegative(c: Config, s: State)
    requires Inv(c, s)
    ensures Rank(c, s) >= 0
  {
    forall q | 0 <= q < c.Parties() ensures Ranks(c, s)[q] >= 0 {
      assert TaskOk(c, s, q);
      var pc := s.pc[q];
      if !pc.Done? && !pc.Failed? { RoundsLeft(c, pc.i, 2 * c.Parties() + |Rec(c, q)| + 8); }
    }
    SumNonNegative(Ranks(c, s));
  }

  lemma ActorRankDrops(c: Config, s: State, st: Step)
    requires Inv(c, s) && Enabled(c, s, st) && !st.Seek?
    ensures var t, q := Next(c, s, st), Actor(st);
      Shaped(c, t) && TaskRank(c, q, t.pc[q], t.bar.inside[q]) < TaskRank(c, q, s.pc[q], s.bar.inside[q])
  {
    var q := Actor(st);
    assert TaskOk(c, s, q);
    RoundsLeft(c, s.pc[q].i, 2 * c.Parties() + |Rec(c, q)| + 8);
  }

  /** Every step uses up rank, so no run goes on for ever. */
  lemma RankDrops(c: Config, s: State, st: Step)
    requires Inv(c, s) && Enabled(c, s, st)
    ensures Shaped(c, Next(c, s, st)) && Rank(c, Next(c, s, st)) < Rank(c, s)
  {
    var t, q := Next(c, s, st), Actor(st);
    var r := TaskRank(c, q, t.pc[q], t.bar.inside[q]);
    assert Ranks(c, t) == Ranks(c, s)[q := r];
    SumUpdate(Ranks(c, s), q, r);
    if !st.Seek? { ActorRankDrops(c, s, st); }
  }

  predicate Free(s: State, p: nat) {
    p < |s.bar.inside| && (!s.bar.inside[p] || MayLeave(s.bar, p))
  }

  /** A participant that is not held by the barrier can move, unless it has left for good or
      is in the middle of its operation. */
  lemma FreeMoves(c: Config, s: State, p: nat) returns (st: Step)
    requires Inv(c, s) && p < c.Parties() && Free(s, p)
    requires s.pc[p].Before? || s.pc[p].After?
    ensures Enabled(c, s, st) && (Image(st) == [] || st == Seek)
  {
    assert TaskOk(c, s, p);
    if s.bar.inside[p] {
      st := Return(p);
    } else if s.pc[p].Before? {
      st := if s.pc[p].ii < p then Call(p) else if p == 0 && AtSeek(c, s) then Seek else Begin(p);
    } else {
      st := if s.pc[p].ii < c.Parties() then Call(p) else Again(p);
    }
  }

  /** While an operation is outstanding, somebody who has not left for good is free. */
  lemma SomebodyAtWork(c: Config, s: State) returns (p: nat)
    requires Inv(c, s) && s.turns < c.Total()
    ensures p < c.Parties() && Free(s, p) && !s.pc[p].Done?
  {
    p := SomebodyFree(s.bar);
    assert TaskOk(c, s, p);
    if s.pc[p].Done? {
      var o := Who(c, s.turns);
      assert TaskOk(c, s, o);
      OwnerIsNext(c, s);
      assert s.bar.calls[p] == c.Total() == s.bar.round;
      NextOpOwner(c, o, s.pc[o], s.bar.inside[o], s.bar.calls[o]);
      assert false;
    }
  }

  /** Whatever the turn machine can do next, this machine can do too, at once or after some
      step that the turn machine does not see. */
  lemma Serve(c: Config, s: State, ch: T.Choice) returns (st: Step)
    requires Inv(c, s) && T.Enabled(c, Abs(c, s), ch)
    ensures Enabled(c, s, st) && (Image(st) == [] || Image(st) == [ch])
  {
    var p := SomebodyAtWork(c, s);
    assert TaskOk(c, s, p);
    if s.pc[p].Using? {
      UserHasTurn(c, s, p);
      match ch
      case Do(Rewind) => assert false;
      case Do(Moved(_, count)) => st := Transfer(p, count);
      case Do(EndOfFile(_)) => st := Eof(p);
      case Complete => st := Finish(p);
    } else {
      st := FreeMoves(c, s, p);
      if st.Seek? { SeekRefines(c, s); }
    }
  }

  // ----- whole runs -----

  /** Every run is, seen from the file, a run of the turn machine. */
  lemma {:induction false} RunRefines(c: Config, s: State, sts: seq<Step>)
    requires Inv(c, s) && Legal(c, s, sts)
    ensures Inv(c, Run(c, s, sts))
    ensures T.Legal(c, Abs(c, s), Images(sts))
    ensures Abs(c, Run(c, s, sts)) == T.Run(c, Abs(c, s), Images(sts))
    decreases |sts|
  {
    if sts == [] {
    } else {
      StepInv(c, s, sts[0]);
      StepRefines(c, s, sts[0]);
      RunRefines(c, Next(c, s, sts[0]), sts[1..]);
      assert Images(sts) == Image(sts[0]) + Images(sts[1..]);
      if Image(sts[0]) != [] {
        assert Images(sts)[1..] == Images(sts[1..]);
      } else {
        assert Images(sts) == Images(sts[1..]);
      }
    }
  }

  /** And every run of the turn machine is the file's view of some run here. */
  lemma {:induction false} RunRealised(c: Config, s: State, chs: seq<T.Choice>) returns (sts: seq<Step>)
    requires Inv(c, s) && T.Legal(c, Abs(c, s), chs)
    ensures Legal(c, s, sts) && Images(sts) == chs
    decreases |chs|, Rank(c, s)
  {
    if chs == [] {
      sts := [];
    } else {
      var st := Serve(c, s, chs[0]);
      StepInv(c, s, st);
      StepRefines(c, s, st);
      RankNonNegative(c, Next(c, s, st));
      RankDrops(c, s, st);
      if Image(st) == [] {
        var rest := RunRealised(c, Next(c, s, st), chs);
        sts := [st] + rest;
        assert sts[1..] == rest;
      } else {
        var rest := RunRealised(c, Next(c, s, st), chs[1..]);
        sts := [st] + rest;
        assert sts[1..] == rest && Images(sts) == [chs[0]] + chs[1..];
      }
    }
  }

  /** Runs are finite: none is longer than the rank of the state it starts from. */
  lemma {:induction false} RunBounded(c: Config, s: State, sts: seq<Step>)
    requires Inv(c, s) && Legal(c, s, sts)
    ensures |sts| <= Rank(c, s)
    decreases |sts|
  {
    RankNonNegative(c, s);
    if sts == [] {
    } else {
      StepInv(c, s, sts[0]);
      RankDrops(c, s, sts[0]);
      RunBounded(c, Next(c, s, sts[0]), sts[1..]);
    }
  }

  ghost predicate Stuck(c: Config, s: State) {
    forall st :: !Enabled(c, s, st)
  }

  predicate AllDone(s: State) {
    forall q :: 0 <= q < |s.pc| ==> s.pc[q].Done?
  }

  /** Once the last operation is over, whoever is still waiting gets out. */
  lemma LeavingMoves(c: Config, s: State, q: nat) returns (st: Step)
    requires Inv(c, s) && s.turns == c.Total() && q < c.Parties() && !s.pc[q].Done?
    ensures Enabled(c, s, st)
  {
    var p := SomebodyFree(s.bar);
    assert TaskOk(c, s, p) && TaskOk(c, s, q);
    if s.pc[p].Done? {
      assert s.bar.round == c.Total();
      NextOpOwner(c, q, s.pc[q], s.bar.inside[q], s.bar.calls[q]);
      LastRound(c, s, q);
      st := FreeMoves(c, s, q);
    } else {
      if s.pc[p].Using? || s.pc[p].Failed? { TurnOwner(c, s, p); }
      st := FreeMoves(c, s, p);
    }
  }

  lemma LastRound(c: Config, s: State, q: nat)
    requires Inv(c, s) && s.turns == c.Total() == s.bar.round && q < c.Parties() && !s.pc[q].Done?
    ensures s.pc[q].After? && Free(s, q)
  {
    assert TaskOk(c, s, q);
    if s.pc[q].Before? || s.pc[q].Using? || s.pc[q].Failed? {
      TurnOf(c, s.pc[q].i, q);
      assert false;
    }
    if s.pc[q].i + 1 < c.Rounds() { FirstTurnGrows(c, s.pc[q].i + 1, c.Rounds()); }
  }

  /** Nobody is left at a barrier: a run that cannot be continued has failed a CHECK or has
      brought every participant to its end with all operations performed. */
  lemma NobodyLeftBehind(c: Config, s: State)
    requires Inv(c, s) && Stuck(c, s) && !s.failed
    ensures AllDone(s) && s.turns == c.Total()
  {
    var o := Who(c, s.turns);
    assert TaskOk(c, s, o);
    if s.turns < c.Total() {
      var ch := T.CanGoOn(c, Abs(c, s));
      var st := Serve(c, s, ch);
      assert false;
    }
    OwnerIsNext(c, s);
    TurnsWithinTotal(c, s);
    if !AllDone(s) {
      var q :| 0 <= q < |s.pc| && !s.pc[q].Done?;
      var st := LeavingMoves(c, s, q);
      assert false;
    }
  }

  lemma TurnsWithinTotal(c: Config, s: State)
    requires Inv(c, s)
    ensures s.turns <= c.Total()
  {
    assert TaskOk(c, s, 0);
    if s.pc[0].After? && s.pc[0].i + 1 < c.Rounds() { FirstTurnGrows(c, s.pc[0].i + 1, c.Rounds()); }
    if s.pc[0].Before? || s.pc[0].Using? || s.pc[0].Failed? { FirstTurnGrows(c, s.pc[0].i, c.Rounds()); }
  }
}
