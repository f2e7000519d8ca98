/**
 How much work the tasks of compat/malloc-x.c do: in each of its niters iterations a task probes,
 frees and allocates once, in one slot, and it does with fewer only if all others have finished.
 */
module MallocWork {
  import opened MallocSlots
  import opened Sequences

  predicate InSection(pc: PC) { SlotStep(pc) && !pc.TryLock? }

  /** What a step adds to it. */
  function Part(s: State, st: Step, p: nat): seq<PC>
    requires p < |s.pc|
  {
    if st.p == p && InSection(s.pc[p]) then [s.pc[p]] else []
  }

  /** What task p does inside critical sections in a run: the points that it goes on from. */
  function Work(c: Config, s: State, sts: seq<Step>, p: nat): (w: seq<PC>)
    requires Legal(c, s, sts) && Shaped(c, s) && p < c.nt
    decreases |sts|
  {
    if sts == [] then []
    else
      StepShaped(c, s, sts[0]);
      Part(s, sts[0], p) + Work(c, Next(c, s, sts[0]), sts[1..], p)
  }

  lemma StepShaped(c: Config, s: State, st: Step)
    requires Enabled(c, s, st)
    ensures Shaped(c, Next(c, s, st))
  {
  }

  /** The parts of a replacement, in the order in which the program has them. */
  predicate IsPart(pc: PC, part: nat) {
    match part
    case 0 => pc.Probe?
    case 1 => pc.Free?
    case 2 => pc.Malloc?
    case 3 => pc.Store?
    case 4 => pc.SetWho?
    case 5 => pc.Unlock?
    case _ => false
  }

  /** Entry j is part j % 6 of iteration j / 6, in the slot that the iteration began with. */
  predicate EntryOk(w: seq<PC>, j: nat)
    requires j < |w|
  {
    IsPart(w[j], j % 6) && w[j].i == j / 6 && Begun(w, j / 6, w[j].n)
  }

  /** Iteration i has begun, and in slot n. */
  predicate Begun(w: seq<PC>, i: nat, n: nat) { 6 * i < |w| && w[6 * i].Probe? && w[6 * i].n == n }

  ghost predicate OthersFinished(s: State, p: nat) {
    forall q :: 0 <= q < |s.pc| && q != p ==> s.pc[q].Finished?
  }

  /** How far task p is with its work, by where it stands. */
  ghost predicate Tally(c: Config, s: State, p: nat, w: seq<PC>)
    requires p < |s.pc|
  {
    && (forall j :: 0 <= j < |w| ==> EntryOk(w, j))
    && match s.pc[p]
       case CheckCount(i) => |w| == 6 * i
       case Pick(i) => |w| == 6 * i
       case Look(i, _) => |w| == 6 * i
       case TryLock(i, _) => |w| == 6 * i
       case Probe(i, _) => |w| == 6 * i
       case Free(i, n) => |w| == 6 * i + 1 && Begun(w, i, n)
       case Malloc(i, n) => |w| == 6 * i + 2 && Begun(w, i, n)
       case Store(i, n, _) => |w| == 6 * i + 3 && Begun(w, i, n)
       case SetWho(i, n) => |w| == 6 * i + 4 && Begun(w, i, n)
       case Unlock(i, n) => |w| == 6 * i + 5 && Begun(w, i, n)
       case Leave => Enough(c, s, p, |w|)
       case Finished => Enough(c, s, p, |w|)
       case _ => w == []
  }

  /** All iterations, or fewer if nobody else was left. */
  ghost predicate Enough(c: Config, s: State, p: nat, done: nat) {
    done == 6 * c.niters || (done % 6 == 0 && done < 6 * c.niters && OthersFinished(s, p))
  }

  lemma TallyStep(c: Config, s: State, st: Step, p: nat, w: seq<PC>)
    requires Inv(c, s) && Enabled(c, s, st) && p < c.nt && Tally(c, s, p, w)
    ensures Shaped(c, Next(c, s, st)) && Tally(c, Next(c, s, st), p, w + Part(s, st, p))
  {
    NothingMore(w);
    if st.p == p { TallyOwn(c, s, st, w); } else { TallyOther(c, s, st, p, w); }
  }

  lemma TallyOther(c: Config, s: State, st: Step, p: nat, w: seq<PC>)
    requires Enabled(c, s, st) && p < c.nt && st.p != p && Tally(c, s, p, w)
    ensures Shaped(c, Next(c, s, st)) && Tally(c, Next(c, s, st), p, w)
  {
  }

  lemma TallyOwn(c: Config, s: State, st: Step, w: seq<PC>)
    requires Inv(c, s) && Enabled(c, s, st) && Tally(c, s, st.p, w)
    ensures Shaped(c, Next(c, s, st)) && Tally(c, Next(c, s, st), st.p, w + Part(s, st, st.p))
  {
    assert TaskOk(c, s, st.p);
    NothingMore(w);
    var pc := s.pc[st.p];
    if InSection(pc) {
      OneMorePart(c, s, st, w);
    } else if pc.CheckCount? && s.count == 0 {
      forall q | 0 <= q < c.nt && q != st.p ensures s.pc[q].Finished? { EarlyLeaverIsLast(c, s, st.p, q); }
    }
  }

  lemma OneMorePart(c: Config, s: State, st: Step, w: seq<PC>)
    requires Inv(c, s) && Enabled(c, s, st) && Tally(c, s, st.p, w) && InSection(s.pc[st.p])
    ensures Shaped(c, Next(c, s, st)) && Tally(c, Next(c, s, st), st.p, w + [s.pc[st.p]])
  {
    var pc := s.pc[st.p];
    var v := w + [pc];
    if pc.Probe? || pc.Free? { VictimIsForeign(c, s, st.p, pc.n); }
    forall j | 0 <= j < |v| ensures EntryOk(v, j) {
      if j < |w| { assert EntryOk(w, j); }
    }
  }

  lemma {:induction false} TallyRun(c: Config, s: State, sts: seq<Step>, p: nat, w: seq<PC>)
    requires Inv(c, s) && Legal(c, s, sts) && p < c.nt && Tally(c, s, p, w)
    ensures Shaped(c, Run(c, s, sts)) && Tally(c, Run(c, s, sts), p, w + Work(c, s, sts, p))
    decreases |sts|
  {
    if sts == [] {
      NothingMore(w);
    } else {
      StepInv(c, s, sts[0]);
      TallyStep(c, s, sts[0], p, w);
      TallyRun(c, Next(c, s, sts[0]), sts[1..], p, w + Part(s, sts[0], p));
      Associates(w, Part(s, sts[0], p), Work(c, Next(c, s, sts[0]), sts[1..], p));
    }
  }

  /** At the head of its loop a task has taken the six steps of as many iterations as it counts, and
      behind it those of all niters, or of fewer if it is the only one left. */
  predicate WorkDone(c: Config, pcs: seq<PC>, p: nat, done: nat)
    requires p < |pcs|
  {
    && (pcs[p].CheckCount? ==> done == 6 * pcs[p].i)
    && (pcs[p].Leave? || pcs[p].Finished? ==>
          || done == 6 * c.niters
          || (done % 6 == 0 && done < 6 * c.niters && forall q :: 0 <= q < |pcs| && q != p ==> pcs[q].Finished?))
  }

  /** The main result: in every run, what a task does inside critical sections is iteration after
      iteration, from 0 up, one probe, free, malloc, store of the block, store to `who` and unlock
      of one slot; a task at the head of its loop has done as many iterations as it counts; and
      one that has left it has done niters, or is the last one. */
  lemma EveryTaskWorks(c: Config, s: State, sts: seq<Step>, p: nat)
    requires Initial(c, s) && Legal(c, s, sts) && p < c.nt
    ensures forall j :: 0 <= j < |Work(c, s, sts, p)| ==> EntryOk(Work(c, s, sts, p), j)
    ensures var t := Run(c, s, sts); Shaped(c, t) && WorkDone(c, t.pc, p, |Work(c, s, sts, p)|)
  {
    InitialInv(c, s);
    TallyRun(c, s, sts, p, []);
    NothingMore(Work(c, s, sts, p));
  }

  // ----- polling -----

  /** How often task p has looked at the counter, picked a slot, and looked at `who` of one. */
  function Looks(c: Config, s: State, sts: seq<Step>, p: nat): (r: (nat, nat, nat))
    requires Legal(c, s, sts) && Shaped(c, s) && p < c.nt
    decreases |sts|
  {
    if sts == [] then (0, 0, 0)
    else
      StepShaped(c, s, sts[0]);
      var n, pc, own := Looks(c, Next(c, s, sts[0]), sts[1..], p), s.pc[p], sts[0].p == p;
      (n.0 + (if own && pc.CheckCount? then 1 else 0), n.1 + (if own && pc.Pick? then 1 else 0),
       n.2 + (if own && pc.Look? then 1 else 0))
  }

  /** A task that has looked at the counter has yet to pick, and then to look at the slot. */
  function Ahead(pc: PC): (int, int) {
    match pc
    case Pick(_) => (1, 0)
    case Look(_, _) => (0, 1)
    case Leave => (1, 0)
    case Finished => (1, 0)
    case _ => (0, 0)
  }

  /** No slot is picked without a look at the counter since the last pick, and none is locked without
      a look at who filled it. */
  lemma {:induction false} LooksFirst(c: Config, s: State, sts: seq<Step>, p: nat)
    requires Inv(c, s) && Legal(c, s, sts) && p < c.nt
    ensures var t, n := Run(c, s, sts), Looks(c, s, sts, p);
      && Shaped(c, t)
      && n.0 - n.1 == Ahead(t.pc[p]).0 - Ahead(s.pc[p]).0 && n.1 - n.2 == Ahead(t.pc[p]).1 - Ahead(s.pc[p]).1
    decreases |sts|
  {
    if sts == [] {
    } else {
      StepInv(c, s, sts[0]);
      assert TaskOk(c, s, p) && TaskOk(c, Next(c, s, sts[0]), p);
      LooksOnce(c, s, sts[0], p);
      LooksFirst(c, Next(c, s, sts[0]), sts[1..], p);
    }
  }

  lemma LooksOnce(c: Config, s: State, st: Step, p: nat)
    requires Enabled(c, s, st) && p < c.nt && !s.pc[p].HeapError?
    requires Shaped(c, Next(c, s, st)) && !Next(c, s, st).pc[p].HeapError?
    ensures var t, own := Next(c, s, st), st.p == p;
      && Ahead(t.pc[p]).0 - Ahead(s.pc[p]).0
         == (if own && s.pc[p].CheckCount? then 1 else 0) - (if own && s.pc[p].Pick? then 1 else 0)
      && Ahead(t.pc[p]).1 - Ahead(s.pc[p]).1
         == (if own && s.pc[p].Pick? then 1 else 0) - (if own && s.pc[p].Look? then 1 else 0)
  {
  }

  /** mprobe and free() notice a block that is not live, whatever state the program is in. */
  lemma DeadBlockIsNoticed(c: Config, s: State, p: nat)
    requires Enabled(c, s, Go(p)) && (s.pc[p].Probe? || s.pc[p].Free?)
    ensures var b := s.region[s.pc[p].n]; Next(c, s, Go(p)).pc[p].HeapError? <==> b < 0 || b !in s.live
  {
  }
}
