/**
 compat/malloc-x.c: every task keeps replacing the heap block in some slot that another task
 filled last. A slot has a spinlock, but `who` is first looked at without it. Loads, stores
 and library calls are steps of their own; malloc returns any block that is not live, and so
 perhaps one that was freed a moment ago.
 */
module MallocSlots {
  import opened CyclicBarrier
  import opened Sums

  datatype PC =
    | FirstMalloc | FirstStore(b: nat) | FirstWho
    | AtBarrier
    | CheckCount(i: nat) | Pick(i: nat) | Look(i: nat, n: nat) | TryLock(i: nat, n: nat)
    | Probe(i: nat, n: nat) | Free(i: nat, n: nat) | Malloc(i: nat, n: nat)
    | Store(i: nat, n: nat, b: nat) | SetWho(i: nat, n: nat) | Unlock(i: nat, n: nat)
    | Leave
    | Finished
    | HeapError                                // mprobe or free() found a block that is not live

  datatype Config = Config(nt: nat, niters: nat)

  /** region -1 is NULL; lock -1 is free, otherwise it names the task that took it. `owner`
      is history: the task that allocated a block last. */
  datatype State = State(
    bar: Barrier, pc: seq<PC>,
    region: seq<int>, who: seq<int>, lock: seq<int>, count: int,
    live: set<nat>, owner: map<nat, nat>)

  /** Choose is random(), and Get is malloc(). */
  datatype Step = Go(p: nat) | Choose(p: nat, n: nat) | Get(p: nat, b: nat)

  predicate Shaped(c: Config, s: State) {
    && c.nt > 0
    && |s.pc| == |s.region| == |s.who| == |s.lock| == c.nt
    && |s.bar.inside| == |s.bar.ticket| == |s.bar.calls| == c.nt
  }

  /** The slot in whose critical section a task is. */
  predicate Inside(pc: PC, n: nat) {
    match pc
    case Probe(_, m) => m == n
    case Free(_, m) => m == n
    case Malloc(_, m) => m == n
    case Store(_, m, _) => m == n
    case SetWho(_, m) => m == n
    case Unlock(_, m) => m == n
    case _ => false
  }

  predicate SlotInRange(c: Config, pc: PC) {
    (pc.Look? || pc.TryLock? || pc.Probe? || pc.Free? || pc.Malloc? || pc.Store? || pc.SetWho? || pc.Unlock?)
    ==> pc.n < c.nt
  }

  predicate Enabled(c: Config, s: State, st: Step) {
    && Shaped(c, s) && st.p < c.nt && SlotInRange(c, s.pc[st.p])
    && var pc := s.pc[st.p];
       match st
       case Choose(_, n) => pc.Pick? && n < c.nt
       case Get(_, b) => (pc.FirstMalloc? || pc.Malloc?) && b !in s.live
       case Go(p) =>
         match pc
         case AtBarrier => MayEnter(s.bar, p) || MayLeave(s.bar, p)
         case Pick(_) => false
         case FirstMalloc => false
         case Malloc(_, _) => false
         case Finished => false
         case HeapError => false
         case _ => true
  }

  function Next(c: Config, s: State, st: Step): State
    requires Enabled(c, s, st)
  {
    match st
    case Choose(p, n) => To(s, p, Look(s.pc[p].i, n))
    case Get(p, b) =>
      To(s, p, if s.pc[p].FirstMalloc? then FirstStore(b) else Store(s.pc[p].i, s.pc[p].n, b))
      .(live := s.live + {b}, owner := s.owner[b := p])
    case Go(p) => Move(c, s, p)
  }

  function To(s: State, p: nat, pc: PC): State
    requires p < |s.pc|
  {
    s.(pc := s.pc[p := pc])
  }

  function Move(c: Config, s: State, p: nat): State
    requires Enabled(c, s, Go(p))
  {
    match s.pc[p]
    case FirstStore(b) => To(s, p, FirstWho).(region := s.region[p := b])
    case FirstWho => To(s, p, AtBarrier).(who := s.who[p := p])
    case AtBarrier =>
      if MayEnter(s.bar, p) then s.(bar := Enter(s.bar, p))
      else To(s, p, CheckCount(0)).(bar := CyclicBarrier.Leave(s.bar, p))
    case CheckCount(i) => To(s, p, if i == c.niters || s.count == 0 then Leave else Pick(i))
    case Look(i, n) => To(s, p, if s.who[n] == p then CheckCount(i) else TryLock(i, n))
    case TryLock(i, n) =>
      if s.lock[n] == -1 then To(s, p, Probe(i, n)).(lock := s.lock[n := p]) else To(s, p, CheckCount(i))
    case Probe(i, n) => To(s, p, if s.region[n] >= 0 && s.region[n] in s.live then Free(i, n) else HeapError)
    case Free(i, n) =>
      if s.region[n] >= 0 && s.region[n] in s.live then To(s, p, Malloc(i, n)).(live := s.live - {s.region[n]})
      else To(s, p, HeapError)
    case Store(i, n, b) => To(s, p, SetWho(i, n)).(region := s.region[n := b])
    case SetWho(i, n) => To(s, p, Unlock(i, n)).(who := s.who[n := p])
    case Unlock(i, n) => To(s, p, CheckCount(i + 1)).(lock := s.lock[n := -1])
    case Leave => To(s, p, Finished).(count := s.count - 1)
  }

  predicate Legal(c: Config, s: State, sts: seq<Step>)
    decreases |sts|
  {
    sts == [] || (Enabled(c, s, sts[0]) && Legal(c, Next(c, s, sts[0]), sts[1..]))
  }

  function Run(c: Config, s: State, sts: seq<Step>): State
    requires Legal(c, s, sts)
    decreases |sts|
  {
    if sts == [] then s else Run(c, Next(c, s, sts[0]), sts[1..])
  }

  /** Task 0 has set up the slots, the counter and the barrier and exported them; no other
      task gets past its imports before that. */
  predicate Initial(c: Config, s: State) {
    && Shaped(c, s) && s.bar == CyclicBarrier.Fresh(c.nt, c.nt) && s.count == c.nt - 1
    && s.live == {} && s.owner == map[]
    && forall p :: 0 <= p < c.nt ==> s.pc[p] == FirstMalloc && s.region[p] == s.who[p] == s.lock[p] == -1
  }

  // ----- the invariant -----

  predicate PastInit(pc: PC) {
    !pc.FirstMalloc? && !pc.FirstStore? && !pc.FirstWho?
  }

  predicate PastBarrier(pc: PC) { PastInit(pc) && !pc.AtBarrier? }

  /** Between the unlocked look at `who` and the store to it, a task relies on its look. */
  predicate Relies(pc: PC, n: nat) {
    (pc.TryLock? && pc.n == n) || (Inside(pc, n) && !pc.Unlock?)
  }

  /** The loop index runs from 0 to niters, and is below it in the loop's body. */
  predicate IndexOk(c: Config, pc: PC) {
    if pc.CheckCount? then pc.i <= c.niters
    else pc.Pick? || pc.Look? || SlotStep(pc) ==> pc.i < c.niters
  }

  ghost predicate TaskOk(c: Config, s: State, p: nat)
    requires Shaped(c, s) && p < c.nt
  {
    var pc := s.pc[p];
    && SlotInRange(c, pc) && IndexOk(c, pc) && !pc.HeapError?
    && (forall n :: 0 <= n < c.nt && Inside(pc, n) ==> s.lock[n] == p)
    && (forall n :: 0 <= n < c.nt && Relies(pc, n) ==> s.who[n] != p)
    && (PastBarrier(pc) ==> s.bar.calls[p] == 1 && !s.bar.inside[p])
    && (pc.AtBarrier? ==> s.bar.calls[p] == if s.bar.inside[p] then 1 else 0)
    && (!PastInit(pc) ==> s.bar.calls[p] == 0 && !s.bar.inside[p])
  }

  /** Block b is live and was allocated by task p. */
  predicate Holds(s: State, b: int, p: int) {
    b >= 0 && b in s.live && b in s.owner && s.owner[b] == p
  }

  /** The block that slot n accounts for, or -1 while its task has yet to allocate one. */
  function Cell(c: Config, s: State, n: nat): int
    requires Shaped(c, s) && n < c.nt
  {
    if 0 <= s.lock[n] < c.nt then
      match s.pc[s.lock[n]]
      case Malloc(_, _) => -1
      case Store(_, _, b) => b
      case _ => s.region[n]
    else
      match s.pc[n]
      case FirstMalloc => -1
      case FirstStore(b) => b
      case _ => s.region[n]
  }

  /** The task that, going by slot n, allocated that block. */
  function By(c: Config, s: State, n: nat): int
    requires Shaped(c, s) && n < c.nt
  {
    if 0 <= s.lock[n] < c.nt then
      match s.pc[s.lock[n]]
      case Store(_, _, _) => s.lock[n]
      case SetWho(_, _) => s.lock[n]
      case _ => s.who[n]
    else if PastInit(s.pc[n]) then s.who[n]
    else n
  }

  predicate Vacant(c: Config, s: State, n: nat)
    requires Shaped(c, s) && n < c.nt
  {
    if 0 <= s.lock[n] < c.nt then s.pc[s.lock[n]].Malloc? else s.pc[n].FirstMalloc?
  }

  ghost predicate SlotOk(c: Config, s: State, n: nat)
    requires Shaped(c, s) && n < c.nt
  {
    && -1 <= s.lock[n] < c.nt
    && (s.lock[n] >= 0 ==> Inside(s.pc[s.lock[n]], n))
    && (Vacant(c, s, n) || Holds(s, Cell(c, s, n), By(c, s, n)))
  }

  /** Live blocks and slots match one to one: no double free and no leak. */
  ghost predicate HeapOk(c: Config, s: State)
    requires Shaped(c, s)
  {
    && (forall n, m :: 0 <= n < m < c.nt && Cell(c, s, n) >= 0 ==> Cell(c, s, n) != Cell(c, s, m))
    && (forall b :: b in s.live ==> exists n :: 0 <= n < c.nt && Cell(c, s, n) == b)
  }

  function FinishedFlags(s: State): (r: seq<int>)
    ensures |r| == |s.pc|
  {
    seq(|s.pc|, p requires 0 <= p < |s.pc| => if s.pc[p].Finished? then 1 else 0)
  }

  ghost predicate Inv(c: Config, s: State) {
    && Shaped(c, s) && Sound(s.bar) && s.bar.needed == c.nt
    && (forall p :: 0 <= p < c.nt ==> TaskOk(c, s, p))
    && (forall n :: 0 <= n < c.nt ==> SlotOk(c, s, n))
    && HeapOk(c, s)
    && s.count == c.nt - 1 - Sum(FinishedFlags(s))
  }

  lemma InitialInv(c: Config, s: State)
    requires Initial(c, s)
    ensures Inv(c, s)
  {
    FreshSound(c.nt);
    SumSame(FinishedFlags(s), 0);
  }

  /** Once anybody is past the barrier, everybody has filled its slot. */
  lemma AllFilled(c: Config, s: State, p: nat, q: nat)
    requires Inv(c, s) && p < c.nt && q < c.nt && PastBarrier(s.pc[p])
    ensures PastInit(s.pc[q])
  {
    assert TaskOk(c, s, p) && TaskOk(c, s, q);
    assert s.bar.calls[q] >= s.bar.round;
  }

  /** Inside a critical section the block in the slot is live, and the task that stored it is
      another one, although `who` was looked at before the lock was taken. */
  lemma VictimIsForeign(c: Config, s: State, p: nat, n: nat)
    requires Inv(c, s) && p < c.nt && n < c.nt && (s.pc[p].Probe? || s.pc[p].Free?) && s.pc[p].n == n
    ensures s.who[n] != p && Holds(s, s.region[n], s.who[n])
  {
    assert TaskOk(c, s, p) && SlotOk(c, s, n);
    assert Inside(s.pc[p], n) && Relies(s.pc[p], n);
  }

  lemma StepTask(c: Config, s: State, st: Step)
    requires Inv(c, s) && Enabled(c, s, st)
    ensures Shaped(c, Next(c, s, st)) && TaskOk(c, Next(c, s, st), st.p)
  {
    assert TaskOk(c, s, st.p);
    var pc := s.pc[st.p];
    if SlotStep(pc) {
      StepInSlot(c, s, st);
    } else {
      StepOutside(c, s, st);
    }
  }

  predicate SlotStep(pc: PC) {
    pc.TryLock? || pc.Probe? || pc.Free? || pc.Malloc? || pc.Store? || pc.SetWho? || pc.Unlock?
  }

  lemma StepInSlot(c: Config, s: State, st: Step)
    requires Inv(c, s) && Enabled(c, s, st) && SlotStep(s.pc[st.p])
    ensures Shaped(c, Next(c, s, st)) && TaskOk(c, Next(c, s, st), st.p)
  {
    assert TaskOk(c, s, st.p);
    var pc := s.pc[st.p];
    assert Inside(pc, pc.n) || pc.TryLock?;
    if pc.Probe? || pc.Free? { VictimIsForeign(c, s, st.p, pc.n); }
  }

  lemma StepOutside(c: Config, s: State, st: Step)
    requires Inv(c, s) && Enabled(c, s, st) && !SlotStep(s.pc[st.p])
    ensures Shaped(c, Next(c, s, st)) && TaskOk(c, Next(c, s, st), st.p)
  {
    assert TaskOk(c, s, st.p);
    if s.pc[st.p].AtBarrier? { StepWaiting(c, s, st); } else { StepLooking(c, s, st); }
  }

  lemma StepWaiting(c: Config, s: State, st: Step)
    requires Enabled(c, s, st) && s.pc[st.p].AtBarrier? && TaskOk(c, s, st.p) && Sound(s.bar)
    ensures Shaped(c, Next(c, s, st)) && TaskOk(c, Next(c, s, st), st.p)
  {
  }

  lemma StepLooking(c: Config, s: State, st: Step)
    requires Enabled(c, s, st) && !SlotStep(s.pc[st.p]) && !s.pc[st.p].AtBarrier? && TaskOk(c, s, st.p)
    ensures Shaped(c, Next(c, s, st)) && TaskOk(c, Next(c, s, st), st.p)
  {
  }

  lemma StepOtherTask(c: Config, s: State, st: Step, q: nat)
    requires Inv(c, s) && Enabled(c, s, st) && q < c.nt && q != st.p
    ensures Shaped(c, Next(c, s, st)) && TaskOk(c, Next(c, s, st), q)
  {
    if SlotStep(s.pc[st.p]) { SlotStepOther(c, s, st, q); } else { OutsideOther(c, s, st, q); }
  }

  lemma SlotStepOther(c: Config, s: State, st: Step, q: nat)
    requires Inv(c, s) && Enabled(c, s, st) && q < c.nt && q != st.p && SlotStep(s.pc[st.p])
    ensures Shaped(c, Next(c, s, st)) && TaskOk(c, Next(c, s, st), q)
  {
    assert TaskOk(c, s, st.p) && TaskOk(c, s, q);
    var pc, t := s.pc[st.p], Next(c, s, st);
    if pc.TryLock? || pc.Unlock? {
      forall n | 0 <= n < c.nt && Inside(t.pc[q], n) ensures t.lock[n] == q { assert s.lock[n] == q; }
    }
  }

  lemma OutsideOther(c: Config, s: State, st: Step, q: nat)
    requires Inv(c, s) && Enabled(c, s, st) && q < c.nt && q != st.p && !SlotStep(s.pc[st.p])
    ensures Shaped(c, Next(c, s, st)) && TaskOk(c, Next(c, s, st), q)
  {
    assert TaskOk(c, s, st.p) && TaskOk(c, s, q);
    if s.pc[st.p].FirstWho? && PastBarrier(s.pc[q]) { AllFilled(c, s, q, st.p); assert false; }
  }

  /** The slot that a step of task p works on. */
  predicate WorksOn(s: State, p: nat, n: nat)
    requires p < |s.pc| && n < |s.lock|
  {
    var pc := s.pc[p];
    if PastInit(pc) then Inside(pc, n) || (pc.TryLock? && pc.n == n && s.lock[n] == -1) else n == p
  }

  lemma OtherCellsStay(c: Config, s: State, st: Step, n: nat)
    requires Inv(c, s) && Enabled(c, s, st) && n < c.nt && !WorksOn(s, st.p, n)
    ensures var t := Next(c, s, st);
      && Shaped(c, t) && t.lock[n] == s.lock[n]
      && Cell(c, t, n) == Cell(c, s, n) && By(c, t, n) == By(c, s, n) && Vacant(c, t, n) == Vacant(c, s, n)
      && (s.lock[n] >= 0 ==> s.lock[n] != st.p)
  {
    assert SlotOk(c, s, n);
    OtherSlotStays(c, s, st, n);
  }

  lemma OtherSlotStays(c: Config, s: State, st: Step, n: nat)
    requires Inv(c, s) && Enabled(c, s, st) && n < c.nt && !WorksOn(s, st.p, n)
    ensures var t := Next(c, s, st);
      && |t.lock| == |t.region| == |t.who| == c.nt && t.lock[n] == s.lock[n] && t.region[n] == s.region[n]
      && t.who[n] == s.who[n] && |t.pc| == |s.pc| && t.pc == s.pc[st.p := t.pc[st.p]]
      && (st.p != n || (PastInit(s.pc[st.p]) && PastInit(t.pc[st.p])))
  {
  }

  /** How the block of the slot worked on changes: it is freed, replaced by a new one, or kept. */
  lemma CellChanges(c: Config, s: State, st: Step, n: nat)
    requires Inv(c, s) && Enabled(c, s, st) && n < c.nt && WorksOn(s, st.p, n)
    ensures var t, pc := Next(c, s, st), s.pc[st.p];
      && Shaped(c, t)
      && (pc.FirstMalloc? || pc.Malloc? ==>
            st.Get? && Vacant(c, s, n) && Cell(c, s, n) == -1 && Cell(c, t, n) == st.b && t.live == s.live + {st.b}
            && By(c, t, n) == st.p && !Vacant(c, t, n) && t.owner == s.owner[st.b := st.p] && st.b !in s.live)
      && (pc.Free? ==> Vacant(c, t, n) && Cell(c, t, n) == -1 && !Vacant(c, s, n) && t.live == s.live - {Cell(c, s, n)}
                       && t.owner == s.owner)
      && (!pc.FirstMalloc? && !pc.Malloc? && !pc.Free? ==>
            Cell(c, t, n) == Cell(c, s, n) && t.live == s.live && t.owner == s.owner
            && !Vacant(c, s, n) && !Vacant(c, t, n) && Holds(s, Cell(c, s, n), By(c, t, n)))
      && -1 <= t.lock[n] < c.nt && (t.lock[n] >= 0 ==> Inside(t.pc[t.lock[n]], n))
  {
    var p, pc := st.p, s.pc[st.p];
    assert SlotOk(c, s, n) && TaskOk(c, s, p);
    if pc.TryLock? { AllFilled(c, s, p, n); }
    if Inside(pc, n) { assert s.lock[n] == p; AllFilled(c, s, p, n); }
    if pc.Probe? || pc.Free? { VictimIsForeign(c, s, p, n); }
    if !PastInit(pc) && s.lock[n] >= 0 {
      AllFilled(c, s, s.lock[n], p);
      assert false;
    }
  }

  lemma StepSlot(c: Config, s: State, st: Step, n: nat)
    requires Inv(c, s) && Enabled(c, s, st) && n < c.nt
    ensures Shaped(c, Next(c, s, st)) && SlotOk(c, Next(c, s, st), n)
  {
    assert SlotOk(c, s, n);
    if WorksOn(s, st.p, n) {
      CellChanges(c, s, st, n);
    } else {
      OtherCellsStay(c, s, st, n);
      if !Vacant(c, s, n) { HeapAround(c, s, st, n); }
    }
  }

  /** Nobody frees a block that another slot accounts for, or hands one out twice. */
  lemma HeapAround(c: Config, s: State, st: Step, n: nat)
    requires Inv(c, s) && Enabled(c, s, st) && n < c.nt && !WorksOn(s, st.p, n) && Cell(c, s, n) >= 0
    requires Cell(c, s, n) in s.live && Cell(c, s, n) in s.owner
    ensures var t, b := Next(c, s, st), Cell(c, s, n); b in t.live && b in t.owner && t.owner[b] == s.owner[b]
  {
    var w := Worked(s, st.p);
    assert TaskOk(c, s, st.p);
    if WorksOn(s, st.p, w) {
      CellChanges(c, s, st, w);
      assert Cell(c, s, w) >= 0 ==> Cell(c, s, w) != Cell(c, s, n);
    }
  }

  function Worked(s: State, p: nat): nat
    requires p < |s.pc|
  {
    var pc := s.pc[p];
    if SlotStep(pc) then pc.n else p
  }

  lemma OnlyWorked(c: Config, s: State, p: nat, n: nat)
    requires Shaped(c, s) && p < c.nt && n < c.nt && WorksOn(s, p, n)
    ensures n == Worked(s, p)
  {
  }

  lemma StepDistinct(c: Config, s: State, st: Step, n: nat, m: nat)
    requires Inv(c, s) && Enabled(c, s, st) && n < m < c.nt
    ensures var t := Next(c, s, st); Shaped(c, t) && (Cell(c, t, n) >= 0 ==> Cell(c, t, n) != Cell(c, t, m))
  {
    assert SlotOk(c, s, n) && SlotOk(c, s, m);
    assert Cell(c, s, n) >= 0 ==> Cell(c, s, n) != Cell(c, s, m);
    if WorksOn(s, st.p, n) {
      OnlyWorked(c, s, st.p, n);
      CellChanges(c, s, st, n);
      if WorksOn(s, st.p, m) { OnlyWorked(c, s, st.p, m); }
      OtherCellsStay(c, s, st, m);
    } else {
      OtherCellsStay(c, s, st, n);
      if WorksOn(s, st.p, m) { CellChanges(c, s, st, m); } else { OtherCellsStay(c, s, st, m); }
    }
  }

  lemma StepCovers(c: Config, s: State, st: Step, b: nat)
    requires Inv(c, s) && Enabled(c, s, st) && b in Next(c, s, st).live
    ensures var t := Next(c, s, st);
      Shaped(c, t) && exists n :: 0 <= n < c.nt && Cell(c, t, n) == b
  {
    var t, w := Next(c, s, st), Worked(s, st.p);
    assert TaskOk(c, s, st.p);
    if WorksOn(s, st.p, w) { CellChanges(c, s, st, w); }
    if b in s.live {
      var n :| 0 <= n < c.nt && Cell(c, s, n) == b;
      if WorksOn(s, st.p, n) { OnlyWorked(c, s, st.p, n); } else { OtherCellsStay(c, s, st, n); }
      assert Cell(c, t, n) == b;
    } else {
      assert Cell(c, t, w) == b;
    }
  }

  lemma StepHeap(c: Config, s: State, st: Step)
    requires Inv(c, s) && Enabled(c, s, st)
    ensures Shaped(c, Next(c, s, st)) && HeapOk(c, Next(c, s, st))
  {
    var t := Next(c, s, st);
    assert Shaped(c, t);
    forall n, m | 0 <= n < m < c.nt && Cell(c, t, n) >= 0 ensures Cell(c, t, n) != Cell(c, t, m) {
      StepDistinct(c, s, st, n, m);
    }
    forall b | b in t.live ensures exists n :: 0 <= n < c.nt && Cell(c, t, n) == b {
      StepCovers(c, s, st, b);
    }
  }

  lemma StepCount(c: Config, s: State, st: Step)
    requires Inv(c, s) && Enabled(c, s, st)
    ensures var t := Next(c, s, st); t.count == c.nt - 1 - Sum(FinishedFlags(t))
  {
    var t, p := Next(c, s, st), st.p;
    assert TaskOk(c, s, p);
    var f := if t.pc[p].Finished? then 1 else 0;
    assert FinishedFlags(t) == FinishedFlags(s)[p := f];
    SumUpdate(FinishedFlags(s), p, f);
  }

  lemma StepBarrier(c: Config, s: State, st: Step)
    requires Inv(c, s) && Enabled(c, s, st)
    ensures Shaped(c, Next(c, s, st)) && Sound(Next(c, s, st).bar) && Next(c, s, st).bar.needed == c.nt
  {
    if s.pc[st.p].AtBarrier? && st.Go? {
      if MayEnter(s.bar, st.p) { EnterSound(s.bar, st.p); } else { LeaveSound(s.bar, st.p); }
    }
  }

  lemma StepInv(c: Config, s: State, st: Step)
    requires Inv(c, s) && Enabled(c, s, st)
    ensures Inv(c, Next(c, s, st))
  {
    var t := Next(c, s, st);
    StepBarrier(c, s, st);
    forall p | 0 <= p < c.nt ensures TaskOk(c, t, p) {
      if p == st.p { StepTask(c, s, st); } else { StepOtherTask(c, s, st, p); }
    }
    forall n | 0 <= n < c.nt ensures SlotOk(c, t, n) { StepSlot(c, s, st, n); }
    StepHeap(c, s, st);
    StepCount(c, s, st);
  }

  // ----- what the program promises -----

  lemma {:induction false} RunInv(c: Config, s: State, sts: seq<Step>)
    requires Inv(c, s) && Legal(c, s, sts)
    ensures Inv(c, Run(c, s, sts))
    decreases |sts|
  {
    if sts == [] {
    } else {
      StepInv(c, s, sts[0]);
      RunInv(c, Next(c, s, sts[0]), sts[1..]);
    }
  }

  /** A task that leaves its loop because the counter is 0 is the last one. */
  lemma EarlyLeaverIsLast(c: Config, s: State, p: nat, q: nat)
    requires Inv(c, s) && p < c.nt && q < c.nt && p != q && !s.pc[p].Finished? && s.count == 0
    ensures s.pc[q].Finished?
  {
    var f := FinishedFlags(s);
    var g := f[p := 1];
    SumUpdate(f, p, 1);
    SumAtMost(g, 1);
    assert g[q] == f[q];
  }

  /** The main result: in every run, for any number of tasks and iterations and any random
      choices, no heap check fails, every block freed was live and put there by another task,
      and the live blocks are exactly the ones the slots account for, one each. */
  lemma EveryRun(c: Config, s: State, sts: seq<Step>)
    requires Initial(c, s) && Legal(c, s, sts)
    ensures var t := Run(c, s, sts); Shaped(c, t) && forall p :: 0 <= p < c.nt ==> !t.pc[p].HeapError?
    ensures var t := Run(c, s, sts);
      forall p :: 0 <= p < c.nt && (t.pc[p].Probe? || t.pc[p].Free?) ==>
        t.pc[p].n < c.nt && t.who[t.pc[p].n] != p && Holds(t, t.region[t.pc[p].n], t.who[t.pc[p].n])
    ensures var t := Run(c, s, sts);
      (forall p :: 0 <= p < c.nt ==> t.pc[p].Finished?) ==>
        && (forall n, m :: 0 <= n < m < c.nt ==> t.region[n] != t.region[m])
        && (forall n :: 0 <= n < c.nt ==> t.lock[n] == -1 && Holds(t, t.region[n], t.who[n]))
        && (forall b :: b in t.live ==> exists n :: 0 <= n < c.nt && t.region[n] == b)
        && t.count == -1
  {
    InitialInv(c, s);
    RunInv(c, s, sts);
    var t := Run(c, s, sts);
    forall p | 0 <= p < c.nt ensures !t.pc[p].HeapError? { assert TaskOk(c, t, p); }
    forall p | 0 <= p < c.nt && (t.pc[p].Probe? || t.pc[p].Free?)
      ensures t.pc[p].n < c.nt && t.who[t.pc[p].n] != p && Holds(t, t.region[t.pc[p].n], t.who[t.pc[p].n])
    {
      assert TaskOk(c, t, p);
      VictimIsForeign(c, t, p, t.pc[p].n);
    }
    if forall p :: 0 <= p < c.nt ==> t.pc[p].Finished? { AfterwardsClean(c, t); }
  }

  lemma AfterwardsClean(c: Config, t: State)
    requires Inv(c, t) && forall p :: 0 <= p < c.nt ==> t.pc[p].Finished?
    ensures forall n, m :: 0 <= n < m < c.nt ==> t.region[n] != t.region[m]
    ensures forall n :: 0 <= n < c.nt ==> t.lock[n] == -1 && Holds(t, t.region[n], t.who[n])
    ensures forall b :: b in t.live ==> exists n :: 0 <= n < c.nt && t.region[n] == b
    ensures t.count == -1
  {
    forall n | 0 <= n < c.nt
      ensures t.lock[n] == -1 && Holds(t, t.region[n], t.who[n]) && Cell(c, t, n) == t.region[n]
    {
      assert SlotOk(c, t, n);
    }
    forall b | b in t.live ensures exists n :: 0 <= n < c.nt && t.region[n] == b {
      var n :| 0 <= n < c.nt && Cell(c, t, n) == b;
      assert t.region[n] == b;
    }
    SumSame(FinishedFlags(t), 1);
  }
}
