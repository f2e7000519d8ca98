/**
 basics/pip_namexp.c: task 0 sends a pointer to a counter on its stack around the ring of
 tasks, forward and backward in every iteration, and each task adds 1 to what it points to.
 The only synchronisation is that an import waits for the export of its name. Sweep t is the
 forward one of iteration t/2 if t is even and the backward one if t is odd.
 */
module NamedRing {
  import opened CyclicBarrier
  import opened Sums

  datatype Config = Config(nt: nat, niters: nat)

  datatype PC =
    | AtStart
    | Reset(t: nat) | Export(t: nat) | Import(t: nat)
    | ComparePointer(t: nat) | CompareCount(t: nat)        // task 0
    | Load(t: nat) | Store(t: nat, value: int)             // the others: the two halves of ++
    | AtEnd | Done
    | Failed                                               // a CHECK, or a name exported twice

  datatype Name = Name(exporter: nat, backward: bool, i: nat)

  /** `countp` and `cp` hold the number of the task whose `count` they point to. `sweep` and
      `pos` are history: whose turn it is, by its place in the current sweep. */
  datatype State = State(
    bar: Barrier, pc: seq<PC>, count: seq<int>, countp: seq<nat>, cp: nat,
    names: map<Name, nat>, sweep: nat, pos: nat)

  predicate Shaped(c: Config, s: State) {
    && c.nt >= 2
    && |s.pc| == |s.count| == |s.countp| == c.nt
    && |s.bar.inside| == |s.bar.ticket| == |s.bar.calls| == c.nt
    && s.cp < c.nt && forall p :: 0 <= p < c.nt ==> s.countp[p] < c.nt
  }

  function NameOf(p: nat, t: nat): Name { Name(p, t % 2 == 1, t / 2) }

  /** The task whose export task p imports in sweep t. */
  function Source(c: Config, p: nat, t: nat): nat
    requires c.nt >= 2 && p < c.nt
  {
    if t % 2 == 0 then (if p == 0 then c.nt - 1 else p - 1) else (if p == c.nt - 1 then 0 else p + 1)
  }

  predicate Enabled(c: Config, s: State, p: nat) {
    && Shaped(c, s) && p < c.nt
    && (forall n :: n in s.names ==> s.names[n] < c.nt)
    && match s.pc[p]
       case AtStart => MayEnter(s.bar, p) || MayLeave(s.bar, p)
       case AtEnd => MayEnter(s.bar, p) || MayLeave(s.bar, p)
       case Import(t) => NameOf(Source(c, p, t), t) in s.names
       case Done => false
       case Failed => false
       case _ => true
  }

  function To(s: State, p: nat, pc: PC): State
    requires p < |s.pc|
  {
    s.(pc := s.pc[p := pc])
  }

  /** The head of the loop body, or what follows the loop. */
  function Loop(c: Config, p: nat, t: nat): PC {
    if t >= 2 * c.niters then AtEnd else if p == 0 then Reset(t) else Import(t)
  }

  function Next(c: Config, s: State, p: nat): State
    requires Enabled(c, s, p)
  {
    match s.pc[p]
    case AtStart =>
      if MayEnter(s.bar, p) then s.(bar := Enter(s.bar, p))
      else To(s, p, Loop(c, p, 0)).(bar := Leave(s.bar, p))
    case Reset(t) => To(s, p, Export(t)).(count := s.count[p := 1], countp := s.countp[p := p])
    case Export(t) =>
      if NameOf(p, t) in s.names then To(s, p, Failed)
      else To(s, p, if p == 0 then Import(t) else Loop(c, p, t + 1))
           .(names := s.names[NameOf(p, t) := s.countp[p]], pos := s.pos + 1)
    case Import(t) =>
      var pointer := s.names[NameOf(Source(c, p, t), t)];
      if p == 0 then To(s, p, ComparePointer(t)).(cp := pointer)
      else To(s, p, Load(t)).(countp := s.countp[p := pointer])
    case ComparePointer(t) => To(s, p, if s.cp == s.countp[p] then CompareCount(t) else Failed)
    case CompareCount(t) =>
      if s.count[s.cp] == c.nt then To(s, p, Loop(c, p, t + 1)).(sweep := t + 1, pos := 0) else To(s, p, Failed)
    case Load(t) => To(s, p, Store(t, s.count[s.countp[p]] + 1))
    case Store(t, value) => To(s, p, Export(t)).(count := s.count[s.countp[p] := value])
    case AtEnd =>
      if MayEnter(s.bar, p) then s.(bar := Enter(s.bar, p))
      else To(s, p, Done).(bar := Leave(s.bar, p))
  }

  predicate Legal(c: Config, s: State, ps: seq<nat>)
    decreases |ps|
  {
    ps == [] || (Enabled(c, s, ps[0]) && Legal(c, Next(c, s, ps[0]), ps[1..]))
  }

  function Run(c: Config, s: State, ps: seq<nat>): State
    requires Legal(c, s, ps)
    decreases |ps|
  {
    if ps == [] then s else Run(c, Next(c, s, ps[0]), ps[1..])
  }

  /** The barrier is there and its name exported; every task points to its own counter. */
  predicate Initial(c: Config, s: State) {
    && Shaped(c, s) && s.bar == CyclicBarrier.Fresh(c.nt, c.nt) && s.names == map[] && s.sweep == s.pos == 0
    && forall p :: 0 <= p < c.nt ==> s.pc[p] == AtStart && s.countp[p] == p
  }

  // ----- the invariant -----

  /** The place of task p in sweep t; task 0 comes first, and once more when the pointer is back. */
  function Pos(c: Config, p: nat, t: nat): (r: nat)
    requires p < c.nt
    ensures r < c.nt && (r == 0 <==> p == 0)
  {
    if p == 0 then 0 else if t % 2 == 0 then p else c.nt - p
  }

  lemma SourceBefore(c: Config, p: nat, t: nat)
    requires c.nt >= 2 && p < c.nt
    ensures Source(c, p, t) < c.nt && Pos(c, Source(c, p, t), t) + 1 == if p == 0 then c.nt else Pos(c, p, t)
  {
  }

  predicate AtOrBefore(c: Config, p: nat, pc: PC, t: nat) { pc == Loop(c, p, t) || (t == 0 && pc.AtStart?) }

  /** The counter has been raised by everybody who has had the pointer in this sweep. */
  ghost predicate TaskOk(c: Config, s: State, p: nat)
    requires Shaped(c, s) && p < c.nt
  {
    var pc, t := s.pc[p], s.sweep;
    if p == 0 then RootOk(c, s)
    else if Pos(c, p, t) < s.pos then pc == Loop(c, p, t + 1)
    else if Pos(c, p, t) > s.pos || t == 2 * c.niters then
      AtOrBefore(c, p, pc, t) || (t == 2 * c.niters && pc == Done)
    else
      && (AtOrBefore(c, p, pc, t)
          || (s.countp[p] == 0 && (pc == Load(t) || pc == Export(t) || pc == Store(t, s.pos + 1))))
      && s.count[0] == if pc == Export(t) then s.pos + 1 else s.pos
  }

  ghost predicate RootOk(c: Config, s: State)
    requires Shaped(c, s)
  {
    var pc, t := s.pc[0], s.sweep;
    if s.pos == 0 then
      || AtOrBefore(c, 0, pc, t)
      || (t < 2 * c.niters && pc == Export(t) && s.countp[0] == 0 && s.count[0] == 1)
      || (t == 2 * c.niters && pc == Done)
    else
      && s.countp[0] == 0
      && (pc == Import(t) || (s.pos == c.nt && s.cp == 0 && (pc == ComparePointer(t) || pc == CompareCount(t))))
      && (s.pos == c.nt ==> s.count[0] == c.nt)
  }

  ghost predicate NamesOk(c: Config, s: State) {
    && (forall n :: n in s.names ==> s.names[n] == 0)
    && (forall p: nat, t: nat :: p < c.nt ==>
          (NameOf(p, t) in s.names <==> (t < s.sweep || (t == s.sweep && Pos(c, p, t) < s.pos))))
  }

  function Calls(pc: PC, inside: bool): nat {
    (if inside then 1 else 0) + if pc.AtStart? then 0 else if pc.Done? then 2 else 1
  }

  ghost predicate Inv(c: Config, s: State) {
    && Shaped(c, s) && Sound(s.bar) && s.bar.needed == c.nt
    && s.sweep <= 2 * c.niters && s.pos <= c.nt && (s.sweep == 2 * c.niters ==> s.pos == 0)
    && (forall p :: 0 <= p < c.nt ==> TaskOk(c, s, p))
    && (forall p :: 0 <= p < c.nt ==> s.bar.calls[p] == Calls(s.pc[p], s.bar.inside[p]))
    && (forall p :: 0 <= p < c.nt && s.bar.inside[p] ==> s.pc[p].AtStart? || s.pc[p].AtEnd?)
    && NamesOk(c, s)
  }

  lemma InitialInv(c: Config, s: State)
    requires Initial(c, s)
    ensures Inv(c, s)
  {
    FreshSound(c.nt);
  }

  // ----- every step keeps it -----

  /** Two tasks in one place of a sweep are the same. */
  lemma OnePlace(c: Config, p: nat, q: nat, t: nat)
    requires p < c.nt && q < c.nt && Pos(c, p, t) == Pos(c, q, t)
    ensures p == q
  {
  }

  predicate AtBarrier(pc: PC) { pc.AtStart? || pc.AtEnd? }

  /** A task may act on the counter or export it only in its turn. */
  lemma ItsTurn(c: Config, s: State, p: nat)
    requires Inv(c, s) && Enabled(c, s, p) && !AtBarrier(s.pc[p])
    ensures s.sweep < 2 * c.niters && s.pc[p].t == s.sweep
    ensures Pos(c, p, s.sweep) == s.pos || (p == 0 && s.pos == c.nt)
  {
    assert TaskOk(c, s, p);
    if s.pc[p].Import? { SourceBefore(c, p, s.pc[p].t); }
  }

  /** The last barrier ends only when task 0 has come to it, after the last sweep. */
  lemma BarrierTask(c: Config, s: State, p: nat)
    requires Inv(c, s) && Enabled(c, s, p) && AtBarrier(s.pc[p])
    ensures Shaped(c, Next(c, s, p)) && TaskOk(c, Next(c, s, p), p)
  {
    assert TaskOk(c, s, p) && TaskOk(c, s, 0);
    assert s.bar.calls[p] == Calls(s.pc[p], s.bar.inside[p]);
    assert s.bar.calls[0] == Calls(s.pc[0], s.bar.inside[0]);
  }

  lemma BarrierFrame(c: Config, s: State, p: nat)
    requires Inv(c, s) && Enabled(c, s, p) && AtBarrier(s.pc[p])
    ensures var t := Next(c, s, p);
      && t == s.(pc := t.pc, bar := t.bar) && |t.pc| == |s.pc| && t.pc == s.pc[p := t.pc[p]]
      && Sound(t.bar) && t.bar.needed == c.nt && t.bar.inside == s.bar.inside[p := t.bar.inside[p]]
      && t.bar.calls == s.bar.calls[p := t.bar.calls[p]]
      && t.bar.calls[p] == Calls(t.pc[p], t.bar.inside[p]) && (t.bar.inside[p] ==> AtBarrier(t.pc[p]))
  {
    assert TaskOk(c, s, p);
    if MayEnter(s.bar, p) { EnterSound(s.bar, p); } else { LeaveSound(s.bar, p); }
  }

  lemma BarrierStep(c: Config, s: State, p: nat)
    requires Inv(c, s) && Enabled(c, s, p) && AtBarrier(s.pc[p])
    ensures Inv(c, Next(c, s, p))
  {
    BarrierTask(c, s, p);
    BarrierFrame(c, s, p);
    BarrierRest(c, s, Next(c, s, p), p);
  }

  lemma BarrierRest(c: Config, s: State, t: State, p: nat)
    requires Inv(c, s) && Shaped(c, t) && p < c.nt && TaskOk(c, t, p)
    requires t == s.(pc := t.pc, bar := t.bar) && t.pc == s.pc[p := t.pc[p]]
    requires Sound(t.bar) && t.bar.needed == c.nt
    requires t.bar.inside == s.bar.inside[p := t.bar.inside[p]] && t.bar.calls == s.bar.calls[p := t.bar.calls[p]]
    requires t.bar.calls[p] == Calls(t.pc[p], t.bar.inside[p]) && (t.bar.inside[p] ==> AtBarrier(t.pc[p]))
    ensures Inv(c, t)
  {
    forall q | 0 <= q < c.nt ensures TaskOk(c, t, q) { assert TaskOk(c, s, q); }
  }

  lemma TurnTask(c: Config, s: State, p: nat)
    requires Inv(c, s) && Enabled(c, s, p) && !AtBarrier(s.pc[p])
    ensures Shaped(c, Next(c, s, p)) && TaskOk(c, Next(c, s, p), p)
  {
    if s.pc[p].Import? { ImportTask(c, s, p); } else { TouchTask(c, s, p); }
  }

  lemma ImportTask(c: Config, s: State, p: nat)
    requires Inv(c, s) && Enabled(c, s, p) && s.pc[p].Import?
    ensures Shaped(c, Next(c, s, p)) && TaskOk(c, Next(c, s, p), p)
  {
    assert TaskOk(c, s, p);
    ItsTurn(c, s, p);
  }

  lemma TouchTask(c: Config, s: State, p: nat)
    requires Inv(c, s) && Enabled(c, s, p) && !AtBarrier(s.pc[p]) && !s.pc[p].Import?
    ensures Shaped(c, Next(c, s, p)) && TaskOk(c, Next(c, s, p), p)
  {
    assert TaskOk(c, s, p);
    ItsTurn(c, s, p);
  }

  lemma TurnOther(c: Config, s: State, p: nat, q: nat)
    requires Inv(c, s) && Enabled(c, s, p) && !AtBarrier(s.pc[p]) && q < c.nt && q != p
    ensures Shaped(c, Next(c, s, p)) && TaskOk(c, Next(c, s, p), q)
  {
    if s.pc[p].Export? { ExportOther(c, s, p, q); } else { CountOther(c, s, p, q); }
  }

  lemma CountOther(c: Config, s: State, p: nat, q: nat)
    requires Inv(c, s) && Enabled(c, s, p) && !AtBarrier(s.pc[p]) && !s.pc[p].Export? && q < c.nt && q != p
    ensures Shaped(c, Next(c, s, p)) && TaskOk(c, Next(c, s, p), q)
  {
    if s.pc[p].CompareCount? {
      SweepOther(c, s, p, q);
    } else if s.pc[p].Import? {
      ImportOther(c, s, p, q);
    } else {
      TouchOther(c, s, p, q);
    }
  }

  /** An import leaves the counter and everybody's place alone. */
  lemma ImportOther(c: Config, s: State, p: nat, q: nat)
    requires Inv(c, s) && Enabled(c, s, p) && s.pc[p].Import? && q < c.nt && q != p
    ensures Shaped(c, Next(c, s, p)) && TaskOk(c, Next(c, s, p), q)
  {
    assert TaskOk(c, s, p) && TaskOk(c, s, q);
  }

  /** With the last comparison of a sweep everybody is in its place for the next. */
  lemma SweepOther(c: Config, s: State, p: nat, q: nat)
    requires Inv(c, s) && Enabled(c, s, p) && s.pc[p].CompareCount? && q < c.nt && q != p
    ensures Shaped(c, Next(c, s, p)) && TaskOk(c, Next(c, s, p), q)
  {
    assert TaskOk(c, s, p) && TaskOk(c, s, q);
    ItsTurn(c, s, p);
  }

  lemma TouchOther(c: Config, s: State, p: nat, q: nat)
    requires Inv(c, s) && Enabled(c, s, p) && !AtBarrier(s.pc[p]) && !s.pc[p].Export? && !s.pc[p].CompareCount?
    requires !s.pc[p].Import? && q < c.nt && q != p
    ensures Shaped(c, Next(c, s, p)) && TaskOk(c, Next(c, s, p), q)
  {
    assert TaskOk(c, s, p) && TaskOk(c, s, q);
    ItsTurn(c, s, p);
    assert Pos(c, p, s.sweep) != Pos(c, q, s.sweep);
  }

  /** The export passes the turn on, so that the others' places stay where they are. */
  lemma ExportOther(c: Config, s: State, p: nat, q: nat)
    requires Inv(c, s) && Enabled(c, s, p) && s.pc[p].Export? && q < c.nt && q != p
    ensures Shaped(c, Next(c, s, p)) && TaskOk(c, Next(c, s, p), q)
  {
    assert TaskOk(c, s, p) && TaskOk(c, s, q);
    ItsTurn(c, s, p);
    assert Pos(c, p, s.sweep) != Pos(c, q, s.sweep);
  }

  lemma TurnNames(c: Config, s: State, p: nat)
    requires Inv(c, s) && Enabled(c, s, p) && !AtBarrier(s.pc[p])
    ensures NamesOk(c, Next(c, s, p))
  {
    var t := Next(c, s, p);
    assert TaskOk(c, s, p);
    ItsTurn(c, s, p);
    forall q: nat, i: nat | q < c.nt
      ensures NameOf(q, i) in t.names <==> (i < t.sweep || (i == t.sweep && Pos(c, q, i) < t.pos))
    {
      assert NameOf(q, i) in s.names <==> (i < s.sweep || (i == s.sweep && Pos(c, q, i) < s.pos));
      if Pos(c, q, s.sweep) == Pos(c, p, s.sweep) { OnePlace(c, p, q, s.sweep); }
    }
  }

  lemma TurnCalls(c: Config, s: State, p: nat)
    requires Inv(c, s) && Enabled(c, s, p) && !AtBarrier(s.pc[p])
    ensures var t := Next(c, s, p);
      && t.bar == s.bar && |t.pc| == |s.pc| && t.pc == s.pc[p := t.pc[p]]
      && Calls(t.pc[p], s.bar.inside[p]) == s.bar.calls[p] && !s.bar.inside[p]
      && t.sweep <= 2 * c.niters && t.pos <= c.nt && (t.sweep == 2 * c.niters ==> t.pos == 0)
  {
    assert TaskOk(c, s, p);
    ItsTurn(c, s, p);
  }

  lemma StepInv(c: Config, s: State, p: nat)
    requires Inv(c, s) && Enabled(c, s, p)
    ensures Inv(c, Next(c, s, p))
  {
    if AtBarrier(s.pc[p]) {
      BarrierStep(c, s, p);
    } else {
      TurnStep(c, s, p);
    }
  }

  lemma TurnStep(c: Config, s: State, p: nat)
    requires Inv(c, s) && Enabled(c, s, p) && !AtBarrier(s.pc[p])
    ensures Inv(c, Next(c, s, p))
  {
    TurnTask(c, s, p);
    forall q | 0 <= q < c.nt ensures TaskOk(c, Next(c, s, p), q) {
      if q != p { TurnOther(c, s, p, q); }
    }
    TurnNames(c, s, p);
    TurnCalls(c, s, p);
    TurnRest(c, s, Next(c, s, p), p);
  }

  lemma TurnRest(c: Config, s: State, t: State, p: nat)
    requires Inv(c, s) && Shaped(c, t) && p < c.nt && NamesOk(c, t) && forall q :: 0 <= q < c.nt ==> TaskOk(c, t, q)
    requires t.bar == s.bar && t.pc == s.pc[p := t.pc[p]]
    requires Calls(t.pc[p], s.bar.inside[p]) == s.bar.calls[p] && !s.bar.inside[p]
    requires t.sweep <= 2 * c.niters && t.pos <= c.nt && (t.sweep == 2 * c.niters ==> t.pos == 0)
    ensures Inv(c, t)
  {
  }

  // ----- termination -----

  /** How many steps a task can take at most. */
  function StepsLeft(c: Config, p: nat, pc: PC, inside: bool): int {
    (if inside then -1 else 0) +
    match pc
    case AtStart => 12 * c.niters + 7
    case Reset(t) => 6 * (2 * c.niters - t) + 5
    case Export(t) => 6 * (2 * c.niters - t) + if p == 0 then 4 else 1
    case Import(t) => 6 * (2 * c.niters - t) + if p == 0 then 3 else 4
    case ComparePointer(t) => 6 * (2 * c.niters - t) + 2
    case CompareCount(t) => 6 * (2 * c.niters - t) + 1
    case Load(t) => 6 * (2 * c.niters - t) + 3
    case Store(t, _) => 6 * (2 * c.niters - t) + 2
    case AtEnd => 2
    case _ => 0
  }

  function Ranks(c: Config, s: State): (r: seq<int>)
    requires Shaped(c, s)
    ensures |r| == |s.pc|
  {
    seq(|s.pc|, p requires 0 <= p < |s.pc| => StepsLeft(c, p, s.pc[p], s.bar.inside[p]))
  }

  lemma RanksNonNegative(c: Config, s: State)
    requires Inv(c, s)
    ensures forall p :: 0 <= p < c.nt ==> Ranks(c, s)[p] >= 0
  {
    forall p | 0 <= p < c.nt ensures Ranks(c, s)[p] >= 0 { assert TaskOk(c, s, p); }
  }

  ghost function Rank(c: Config, s: State): (r: int)
    requires Inv(c, s)
    ensures r >= 0
  {
    RanksNonNegative(c, s);
    SumNonNegative(Ranks(c, s));
    Sum(Ranks(c, s))
  }

  lemma OwnRankDrops(c: Config, s: State, p: nat)
    requires Inv(c, s) && Enabled(c, s, p)
    ensures var t := Next(c, s, p);
      && Shaped(c, t) && t.pc == s.pc[p := t.pc[p]] && t.bar.inside == s.bar.inside[p := t.bar.inside[p]]
      && StepsLeft(c, p, t.pc[p], t.bar.inside[p]) < StepsLeft(c, p, s.pc[p], s.bar.inside[p])
  {
    assert TaskOk(c, s, p);
    assert s.bar.inside == s.bar.inside[p := s.bar.inside[p]];
    if AtBarrier(s.pc[p]) { BarrierFrame(c, s, p); } else { TurnRankDrops(c, s, p); }
  }

  lemma TurnRankDrops(c: Config, s: State, p: nat)
    requires Inv(c, s) && Enabled(c, s, p) && !AtBarrier(s.pc[p])
    ensures var t := Next(c, s, p);
      && Shaped(c, t) && t.pc == s.pc[p := t.pc[p]] && t.bar == s.bar
      && StepsLeft(c, p, t.pc[p], t.bar.inside[p]) < StepsLeft(c, p, s.pc[p], s.bar.inside[p])
  {
    assert TaskOk(c, s, p);
    ItsTurn(c, s, p);
    TurnCalls(c, s, p);
  }

  lemma RankDrops(c: Config, s: State, p: nat)
    requires Inv(c, s) && Enabled(c, s, p)
    ensures Inv(c, Next(c, s, p)) && Rank(c, Next(c, s, p)) < Rank(c, s)
  {
    StepInv(c, s, p);
    OwnRankDrops(c, s, p);
    SumDrops(Ranks(c, s), Ranks(c, Next(c, s, p)), p);
  }

  // ----- what the program promises -----

  lemma {:induction false} RunInv(c: Config, s: State, ps: seq<nat>)
    requires Inv(c, s) && Legal(c, s, ps)
    ensures Inv(c, Run(c, s, ps)) && |ps| <= Rank(c, s)
    decreases |ps|
  {
    if ps == [] {
    } else {
      RankDrops(c, s, ps[0]);
      RunInv(c, Next(c, s, ps[0]), ps[1..]);
    }
  }

  /** Between its import and its export, or for task 0 between the export of one sweep and the
      end of the comparison outside of it, a task may touch the counter. */
  predicate HasRight(pc: PC) {
    pc.Reset? || pc.Load? || pc.Store? || pc.Export? || pc.ComparePointer? || pc.CompareCount?
  }

  /** No two tasks ever have the right to touch the counter, although nothing locks it. */
  lemma OneHolder(c: Config, s: State, p: nat, q: nat)
    requires Inv(c, s) && p < c.nt && q < c.nt && HasRight(s.pc[p]) && HasRight(s.pc[q])
    ensures p == q
  {
    assert TaskOk(c, s, p) && TaskOk(c, s, q);
  }

  /** The counter lives on task 0's stack: task 0 is still there whenever anybody follows the
      pointer. */
  lemma OwnerIsThere(c: Config, s: State, p: nat)
    requires Inv(c, s) && p < c.nt && (s.pc[p].Load? || s.pc[p].Store?)
    ensures s.countp[p] == 0 && s.pc[0].Import?
  {
    assert TaskOk(c, s, p) && TaskOk(c, s, 0);
  }

  /** What task 0 imports is its own pointer, and every other task has raised the counter. */
  lemma PointerComesBack(c: Config, s: State)
    requires Inv(c, s) && s.pc[0].Import? && Enabled(c, s, 0)
    ensures var t := s.pc[0].t; s.names[NameOf(Source(c, 0, t), t)] == 0 && s.count[0] == c.nt
    ensures s.pc[0].t == s.sweep && s.pos == c.nt
    ensures forall p: nat, i: nat :: p < c.nt && i <= s.sweep ==> NameOf(p, i) in s.names
  {
    ItsTurn(c, s, 0);
    SourceBefore(c, 0, s.sweep);
    assert TaskOk(c, s, 0);
    assert NameOf(Source(c, 0, s.sweep), s.sweep) in s.names;
  }

  /** The ring never stops before everybody is through. */
  lemma NeverStuck(c: Config, s: State)
    requires Inv(c, s) && forall p :: !Enabled(c, s, p)
    ensures forall p :: 0 <= p < c.nt ==> s.pc[p].Done?
  {
    var f := SomebodyFree(s.bar);
    if s.sweep < 2 * c.niters { SweepGoesOn(c, s); }
    assert TaskOk(c, s, f) && !Enabled(c, s, f);
    assert s.pc[f].Done? && s.bar.calls[f] == Calls(s.pc[f], s.bar.inside[f]);
    forall p | 0 <= p < c.nt ensures s.pc[p].Done? {
      assert TaskOk(c, s, p) && !Enabled(c, s, p) && s.bar.calls[p] == Calls(s.pc[p], s.bar.inside[p]);
    }
  }

  /** Within a sweep, the task whose place it is can go on, or is waited for at the barrier. */
  lemma SweepGoesOn(c: Config, s: State)
    requires Inv(c, s) && s.sweep < 2 * c.niters
    ensures exists p :: Enabled(c, s, p)
  {
    var h := if s.pos == 0 || s.pos == c.nt then 0 else if s.sweep % 2 == 0 then s.pos else c.nt - s.pos;
    SourceBefore(c, h, s.sweep);
    assert TaskOk(c, s, h) && (Pos(c, h, s.sweep) == s.pos || s.pos == c.nt);
    assert NameOf(Source(c, h, s.sweep), s.sweep) in s.names || s.pos == 0;
    if s.pc[h].AtStart? && !Enabled(c, s, h) {
      Contract(s.bar, h);
      var q :| 0 <= q < c.nt && s.bar.calls[q] < s.bar.calls[h];
      assert s.bar.calls[q] == Calls(s.pc[q], s.bar.inside[q]) && s.bar.calls[h] == Calls(s.pc[h], s.bar.inside[h]);
      assert Enabled(c, s, q);
    } else {
      assert Enabled(c, s, h);
    }
  }

  /** The main result: for every number of tasks from 2 up, every number of iterations and
      every interleaving, no CHECK fails, no name is exported twice, and whenever task 0's
      import has returned, it holds its own pointer and the counter is the number of tasks. */
  lemma EveryRun(c: Config, s: State, ps: seq<nat>)
    requires Initial(c, s) && Legal(c, s, ps)
    ensures Inv(c, s) && |ps| <= Rank(c, s)
    ensures var t := Run(c, s, ps); Shaped(c, t) && forall p :: 0 <= p < c.nt ==> !t.pc[p].Failed?
    ensures var t := Run(c, s, ps);
      t.pc[0].ComparePointer? || t.pc[0].CompareCount? ==> t.cp == t.countp[0] == 0 && t.count[0] == c.nt
    ensures var t := Run(c, s, ps);
      (forall p :: 0 <= p < c.nt ==> t.pc[p].Done?) ==>
        forall p: nat, i: nat :: p < c.nt ==> (NameOf(p, i) in t.names <==> i < 2 * c.niters)
  {
    InitialInv(c, s);
    RunInv(c, s, ps);
    Outcome(c, Run(c, s, ps));
  }

  lemma Outcome(c: Config, s: State)
    requires Inv(c, s)
    ensures forall p :: 0 <= p < c.nt ==> !s.pc[p].Failed?
    ensures s.pc[0].ComparePointer? || s.pc[0].CompareCount? ==> s.cp == s.countp[0] == 0 && s.count[0] == c.nt
    ensures (forall p :: 0 <= p < c.nt ==> s.pc[p].Done?) ==>
      forall p: nat, i: nat :: p < c.nt ==> (NameOf(p, i) in s.names <==> i < 2 * c.niters)
  {
    forall p | 0 <= p < c.nt ensures !s.pc[p].Failed? { assert TaskOk(c, s, p); }
    assert TaskOk(c, s, 0);
  }

  // ----- the owner of the barrier -----

  lemma Cons(c: Config, s: State, p: nat, rest: seq<nat>)
    requires Enabled(c, s, p) && Legal(c, Next(c, s, p), rest)
    ensures Legal(c, s, [p] + rest) && Run(c, s, [p] + rest) == Run(c, Next(c, s, p), rest)
  {
    assert ([p] + rest)[1..] == rest;
  }

  lemma {:induction false} Append(c: Config, s: State, a: seq<nat>, b: seq<nat>)
    requires Legal(c, s, a) && Legal(c, Run(c, s, a), b)
    ensures Legal(c, s, a + b) && Run(c, s, a + b) == Run(c, Run(c, s, a), b)
    decreases |a|
  {
    if a == [] {
      assert a + b == b;
    } else {
      assert (a + b)[0] == a[0] && (a + b)[1..] == a[1..] + b;
      Append(c, Next(c, s, a[0]), a[1..], b);
    }
  }

  predicate InLastWait(c: Config, s: State, q: nat) {
    Shaped(c, s) && q < c.nt && s.pc[q].AtEnd? && s.bar.inside[q]
  }

  /** The counter and the barrier are on task 0's stack. When task 0 is done, all sweeps are over,
      and whoever is not done as well is in its last wait, which is over. */
  lemma OwnerMayGo(c: Config, s: State, q: nat)
    requires Inv(c, s) && q < c.nt && s.pc[0].Done?
    ensures s.pc[q].Done? || (InLastWait(c, s, q) && MayLeave(s.bar, q))
  {
    assert TaskOk(c, s, 0) && TaskOk(c, s, q);
    assert s.bar.calls[0] == Calls(s.pc[0], s.bar.inside[0]) && s.bar.calls[q] == Calls(s.pc[q], s.bar.inside[q]);
  }

  /** Only from its last wait a task gets to its end. */
  lemma NotYetDone(c: Config, s: State, p: nat, q: nat)
    requires q < c.nt && Enabled(c, s, p) && !s.pc[q].Done? && !InLastWait(c, s, q)
    ensures Shaped(c, Next(c, s, p)) ==> !Next(c, s, p).pc[q].Done?
  {
  }

  lemma {:induction false} ComesToLastWait(c: Config, s: State, q: nat) returns (ps: seq<nat>)
    requires q < c.nt && Inv(c, s) && !s.pc[q].Done?
    ensures Legal(c, s, ps) && Inv(c, Run(c, s, ps)) && InLastWait(c, Run(c, s, ps), q)
    decreases Rank(c, s)
  {
    if InLastWait(c, s, q) {
      ps := [];
    } else if p :| Enabled(c, s, p) {
      NotYetDone(c, s, p, q);
      RankDrops(c, s, p);
      var rest := ComesToLastWait(c, Next(c, s, p), q);
      Cons(c, s, p, rest);
      ps := [p] + rest;
    } else {
      NeverStuck(c, s);
      assert false;
    }
  }

  /** While task q stays in its last wait, somebody else can go on until task 0 is done. */
  lemma OtherMoves(c: Config, s: State, q: nat) returns (p: nat)
    requires 0 < q < c.nt && Inv(c, s) && InLastWait(c, s, q) && !s.pc[0].Done?
    ensures Enabled(c, s, p) && p != q
  {
    if MayLeave(s.bar, q) {
      LastRoundOver(c, s, q);
      p := 0;
    } else {
      if forall i :: !Enabled(c, s, i) {
        NeverStuck(c, s);
        assert false;
      }
      p :| Enabled(c, s, p);
    }
  }

  lemma LastRoundOver(c: Config, s: State, q: nat)
    requires 0 < q < c.nt && Inv(c, s) && InLastWait(c, s, q) && MayLeave(s.bar, q) && !s.pc[0].Done?
    ensures Enabled(c, s, 0)
  {
    Contract(s.bar, q);
    assert TaskOk(c, s, 0);
    assert s.bar.calls[0] == Calls(s.pc[0], s.bar.inside[0]) && s.bar.calls[q] == Calls(s.pc[q], s.bar.inside[q]);
  }

  lemma Stays(c: Config, s: State, p: nat, q: nat)
    requires Enabled(c, s, p) && p != q && InLastWait(c, s, q) && Shaped(c, Next(c, s, p))
    ensures InLastWait(c, Next(c, s, p), q)
  {
  }

  lemma {:induction false} OwnerLeaves(c: Config, s: State, q: nat) returns (ps: seq<nat>)
    requires 0 < q < c.nt && Inv(c, s) && InLastWait(c, s, q)
    ensures Legal(c, s, ps) && InLastWait(c, Run(c, s, ps), q) && Run(c, s, ps).pc[0].Done?
    decreases Rank(c, s)
  {
    if s.pc[0].Done? {
      ps := [];
    } else {
      var p := OtherMoves(c, s, q);
      RankDrops(c, s, p);
      Stays(c, s, p, q);
      var rest := OwnerLeaves(c, Next(c, s, p), q);
      Cons(c, s, p, rest);
      ps := [p] + rest;
    }
  }

  /** For every number of tasks and iterations, any other task may still be inside its last wait
      when task 0 is done. */
  lemma BarrierOutlived(c: Config, s: State, q: nat) returns (ps: seq<nat>)
    requires Initial(c, s) && 0 < q < c.nt
    ensures Legal(c, s, ps)
    ensures var t := Run(c, s, ps); InLastWait(c, t, q) && t.pc[0].Done?
  {
    InitialInv(c, s);
    var a := ComesToLastWait(c, s, q);
    var b := OwnerLeaves(c, Run(c, s, a), q);
    Append(c, s, a, b);
    ps := a + b;
  }
}
