/**
 compat/pagefault.c: root and the tasks each map a page, publish its address, store to all the
 pages between two barriers and unmap their own. Party nt is root; slot p of the shared array
 is for the page of party p.
 */
module PageTouches {
  import opened CyclicBarrier
  import opened Sums
  import opened Supply

  datatype Config = Config(nt: nat)
  {
    function Parties(): nat { nt + 1 }
    /** Tasks begin with their own page, root with page 0. */
    function First(p: nat): nat { if p == nt then 0 else p }
  }

  datatype PC =
    | Mmap | Publish
    | WaitA | Upper(i: nat) | Lower(i: nat) | WaitB          // the two loops over the slots
    | Join                                                   // root waits for the tasks
    | Munmap | Done
    | Failed                                                 // a fault, or munmap of a page not mapped

  /** An entry of `maps` is -1 until it is stored to. `touches` is history: how often a party
      has stored to the page in a slot. */
  datatype State = State(
    bar: Barrier, pc: seq<PC>, page: seq<nat>, maps: seq<int>, mapped: set<nat>, touches: seq<seq<nat>>)

  /** mmap returns any page that is not mapped. */
  datatype Step = Go(p: nat) | Map(p: nat, page: nat)

  predicate Shaped(c: Config, s: State) {
    && |s.pc| == |s.page| == |s.maps| == |s.touches| == c.Parties()
    && |s.bar.inside| == |s.bar.ticket| == |s.bar.calls| == c.Parties()
    && forall p :: 0 <= p < c.Parties() ==> |s.touches[p]| == c.Parties()
  }

  predicate AtBarrier(pc: PC) { pc.WaitA? || pc.WaitB? }

  predicate Enabled(c: Config, s: State, st: Step) {
    && Shaped(c, s) && st.p < c.Parties()
    && var pc := s.pc[st.p];
       match st
       case Map(_, page) => pc.Mmap? && page !in s.mapped
       case Go(p) =>
         match pc
         case Mmap => false
         case Done => false
         case Failed => false
         case Join => forall q :: 0 <= q < c.nt ==> s.pc[q].Done?
         case _ => AtBarrier(pc) ==> MayEnter(s.bar, p) || MayLeave(s.bar, p)
  }

  function To(s: State, p: nat, pc: PC): State
    requires p < |s.pc|
  {
    s.(pc := s.pc[p := pc])
  }

  function Next(c: Config, s: State, st: Step): State
    requires Enabled(c, s, st)
  {
    var p := st.p;
    match s.pc[p]
    case Mmap => To(s, p, Publish).(page := s.page[p := st.page], mapped := s.mapped + {st.page})
    case Publish => To(s, p, WaitA).(maps := s.maps[p := s.page[p]])
    case Upper(i) => if i < c.Parties() then Touch(c, s, p, i, Upper(i + 1)) else To(s, p, Lower(0))
    case Lower(i) => if p < c.nt && i < p then Touch(c, s, p, i, Lower(i + 1)) else To(s, p, WaitB)
    case Join => To(s, p, Munmap)
    case Munmap => if s.page[p] in s.mapped then To(s, p, Done).(mapped := s.mapped - {s.page[p]}) else To(s, p, Failed)
    case pc =>
      if MayEnter(s.bar, p) then s.(bar := Enter(s.bar, p))
      else To(s, p, if pc.WaitA? then Upper(c.First(p)) else if p == c.nt then Join else Munmap)
           .(bar := Leave(s.bar, p))
  }

  function Touch(c: Config, s: State, p: nat, i: nat, then': PC): State
    requires Shaped(c, s) && p < c.Parties() && i < c.Parties()
  {
    if s.maps[i] < 0 || s.maps[i] !in s.mapped then To(s, p, Failed)
    else To(s, p, then').(touches := Mark(s.touches, p, i))
  }

  function Mark(touches: seq<seq<nat>>, p: nat, i: nat): seq<seq<nat>>
    requires p < |touches| && i < |touches[p]|
  {
    var row: seq<nat> := touches[p][i := touches[p][i] + 1];
    touches[p := row]
  }

  predicate Legal(c: Config, s: State, sts: seq<Step>)
    decreases |sts|
  {
    sts == [] || (Enabled(c, s, sts[0]) && Legal(c, Next(c, s, sts[0]), sts[1..]))
  }

  function Run(c: Config, s: State, sts: seq<Step>): State
    requires Legal(c, s, sts)
    decreases |sts|
  {
    if sts == [] then s else Run(c, Next(c, s, sts[0]), sts[1..])
  }

  predicate Initial(c: Config, s: State) {
    && Shaped(c, s) && s.bar == CyclicBarrier.Fresh(c.Parties(), c.Parties()) && s.mapped == {}
    && forall p :: 0 <= p < c.Parties() ==>
         s.pc[p] == Mmap && s.maps[p] == -1 && forall i :: 0 <= i < c.Parties() ==> s.touches[p][i] == 0
  }

  // ----- the invariant -----

  function Calls(pc: PC, inside: bool): nat {
    (if inside then 1 else 0) +
    match pc
    case Mmap => 0
    case Publish => 0
    case WaitA => 0
    case Upper(_) => 1
    case Lower(_) => 1
    case WaitB => 1
    case _ => 2
  }

  predicate HasPage(pc: PC) { !pc.Mmap? && !pc.Done? }

  /** Has a party at `pc` stored to the page in slot i? */
  predicate Touched(c: Config, p: nat, pc: PC, i: nat) {
    match pc
    case Mmap => false
    case Publish => false
    case WaitA => false
    case Upper(k) => c.First(p) <= i < k
    case Lower(k) => c.First(p) <= i || i < k
    case _ => true
  }

  ghost predicate PartyOk(c: Config, s: State, p: nat)
    requires Shaped(c, s) && p < c.Parties()
  {
    var pc := s.pc[p];
    && s.bar.calls[p] == Calls(pc, s.bar.inside[p]) && (s.bar.inside[p] ==> AtBarrier(pc)) && !pc.Failed?
    && (HasPage(pc) ==> s.page[p] in s.mapped)
    && (!pc.Mmap? && !pc.Publish? ==> s.maps[p] == s.page[p])
    && (pc.Upper? ==> c.First(p) <= pc.i <= c.Parties()) && (pc.Lower? ==> pc.i <= c.First(p))
    && (pc.Join? ==> p == c.nt)
    && (forall i :: 0 <= i < c.Parties() ==> s.touches[p][i] == if Touched(c, p, pc, i) then 1 else 0)
  }

  ghost predicate Inv(c: Config, s: State) {
    && Shaped(c, s) && Sound(s.bar) && s.bar.needed == c.Parties()
    && (forall p :: 0 <= p < c.Parties() ==> PartyOk(c, s, p))
    && (forall p, q :: 0 <= p < q < c.Parties() && HasPage(s.pc[p]) && HasPage(s.pc[q]) ==> s.page[p] != s.page[q])
    && (forall m :: m in s.mapped ==> exists p :: 0 <= p < c.Parties() && HasPage(s.pc[p]) && s.page[p] == m)
  }

  lemma InitialInv(c: Config, s: State)
    requires Initial(c, s)
    ensures Inv(c, s)
  {
    FreshSound(c.Parties());
  }

  /** Whoever stores finds every page published and none unmapped. */
  lemma EverythingMapped(c: Config, s: State, p: nat, i: nat)
    requires Inv(c, s) && p < c.Parties() && i < c.Parties() && (s.pc[p].Upper? || s.pc[p].Lower?)
    ensures s.maps[i] == s.page[i] && s.page[i] in s.mapped
  {
    assert PartyOk(c, s, p) && PartyOk(c, s, i);
  }

  lemma StepParty(c: Config, s: State, st: Step)
    requires Inv(c, s) && Enabled(c, s, st)
    ensures Shaped(c, Next(c, s, st)) && PartyOk(c, Next(c, s, st), st.p)
    ensures Sound(Next(c, s, st).bar) && Next(c, s, st).bar.needed == c.Parties()
  {
    if AtBarrier(s.pc[st.p]) { WaitParty(c, s, st.p); } else { WorkParty(c, s, st); }
  }

  lemma WaitParty(c: Config, s: State, p: nat)
    requires Inv(c, s) && Enabled(c, s, Go(p)) && AtBarrier(s.pc[p])
    ensures var t := Next(c, s, Go(p)); Shaped(c, t) && PartyOk(c, t, p) && Sound(t.bar) && t.bar.needed == c.Parties()
  {
    assert PartyOk(c, s, p);
    if MayEnter(s.bar, p) { EnterSound(s.bar, p); } else { LeaveSound(s.bar, p); }
  }

  lemma WorkParty(c: Config, s: State, st: Step)
    requires Inv(c, s) && Enabled(c, s, st) && !AtBarrier(s.pc[st.p])
    ensures var t := Next(c, s, st); Shaped(c, t) && PartyOk(c, t, st.p) && t.bar == s.bar
  {
    var p, pc := st.p, s.pc[st.p];
    assert PartyOk(c, s, p);
    if (pc.Upper? || pc.Lower?) && pc.i < c.Parties() { EverythingMapped(c, s, p, pc.i); }
  }

  lemma StepOther(c: Config, s: State, st: Step, q: nat)
    requires Inv(c, s) && Enabled(c, s, st) && q < c.Parties() && q != st.p
    ensures Shaped(c, Next(c, s, st)) && PartyOk(c, Next(c, s, st), q)
  {
    assert PartyOk(c, s, st.p) && PartyOk(c, s, q);
    StepParty(c, s, st);
    OnlyActor(c, s, st);
    if HasPage(s.pc[st.p]) && HasPage(s.pc[q]) { PagesApart(c, s, st.p, q); }
    OtherStays(c, s, Next(c, s, st), st.p, q);
  }

  lemma PagesApart(c: Config, s: State, p: nat, q: nat)
    requires Inv(c, s) && p < c.Parties() && q < c.Parties() && p != q && HasPage(s.pc[p]) && HasPage(s.pc[q])
    ensures s.page[p] != s.page[q]
  {
  }

  lemma OtherStays(c: Config, s: State, t: State, p: nat, q: nat)
    requires Moved(c, s, t, p) && q < c.Parties() && q != p && PartyOk(c, s, q)
    requires HasPage(s.pc[p]) && HasPage(s.pc[q]) ==> s.page[p] != s.page[q]
    ensures PartyOk(c, t, q)
  {
    assert t.pc[q] == s.pc[q] && t.page[q] == s.page[q] && t.maps[q] == s.maps[q] && t.touches[q] == s.touches[q];
  }

  /** What a step changes: the party's own entries, and of the mapped pages only its own. */
  lemma OnlyActor(c: Config, s: State, st: Step)
    requires Enabled(c, s, st) && PartyOk(c, s, st.p) && !Next(c, s, st).pc[st.p].Failed?
    ensures Moved(c, s, Next(c, s, st), st.p)
  {
    if AtBarrier(s.pc[st.p]) { OnlyWaiter(c, s, st.p); } else { OnlyWorker(c, s, st); }
  }

  lemma OnlyWaiter(c: Config, s: State, p: nat)
    requires Enabled(c, s, Go(p)) && PartyOk(c, s, p) && AtBarrier(s.pc[p])
    ensures Moved(c, s, Next(c, s, Go(p)), p)
  {
    var t := Next(c, s, Go(p));
    assert t.page == s.page[p := t.page[p]] && t.maps == s.maps[p := t.maps[p]];
    assert t.touches == s.touches[p := t.touches[p]];
  }

  lemma OnlyWorker(c: Config, s: State, st: Step)
    requires Enabled(c, s, st) && PartyOk(c, s, st.p) && !AtBarrier(s.pc[st.p])
    requires !Next(c, s, st).pc[st.p].Failed?
    ensures Moved(c, s, Next(c, s, st), st.p)
  {
    var t, p := Next(c, s, st), st.p;
    assert t.bar == s.bar && t.bar.inside == s.bar.inside[p := t.bar.inside[p]];
    assert t.bar.calls == s.bar.calls[p := t.bar.calls[p]];
  }

  ghost predicate Moved(c: Config, s: State, t: State, p: nat) {
    && Shaped(c, s) && Shaped(c, t) && p < c.Parties()
    && t.pc == s.pc[p := t.pc[p]] && t.page == s.page[p := t.page[p]]
    && t.maps == s.maps[p := t.maps[p]] && t.touches == s.touches[p := t.touches[p]]
    && t.bar.inside == s.bar.inside[p := t.bar.inside[p]] && t.bar.calls == s.bar.calls[p := t.bar.calls[p]]
    && if s.pc[p].Mmap? then t.page[p] !in s.mapped && t.mapped == s.mapped + {t.page[p]} && t.pc[p].Publish?
       else t.page == s.page
            && (s.pc[p].Munmap? && t.pc[p].Done? ==> t.mapped == s.mapped - {t.page[p]})
            && (!(s.pc[p].Munmap? && t.pc[p].Done?) ==> t.mapped == s.mapped && HasPage(s.pc[p]) == HasPage(t.pc[p]))
  }

  lemma StepPages(c: Config, s: State, t: State, p: nat)
    requires Inv(c, s) && Moved(c, s, t, p)
    ensures forall a, b :: 0 <= a < b < c.Parties() && HasPage(t.pc[a]) && HasPage(t.pc[b]) ==> t.page[a] != t.page[b]
    ensures forall m :: m in t.mapped ==> exists a :: 0 <= a < c.Parties() && HasPage(t.pc[a]) && t.page[a] == m
  {
    forall m | m in t.mapped ensures exists a :: 0 <= a < c.Parties() && HasPage(t.pc[a]) && t.page[a] == m {
      if s.pc[p].Mmap? && m == t.page[p] {
        assert HasPage(t.pc[p]);
      } else {
        var a :| 0 <= a < c.Parties() && HasPage(s.pc[a]) && s.page[a] == m;
        assert HasPage(t.pc[a]) && t.page[a] == m;
      }
    }
    forall a, b | 0 <= a < b < c.Parties() && HasPage(t.pc[a]) && HasPage(t.pc[b]) ensures t.page[a] != t.page[b] {
      assert PartyOk(c, s, a) && PartyOk(c, s, b);
    }
  }

  lemma StepInv(c: Config, s: State, st: Step)
    requires Inv(c, s) && Enabled(c, s, st)
    ensures Inv(c, Next(c, s, st))
  {
    assert PartyOk(c, s, st.p);
    StepParty(c, s, st);
    forall q | 0 <= q < c.Parties() ensures PartyOk(c, Next(c, s, st), q) { if q != st.p { StepOther(c, s, st, q); } }
    OnlyActor(c, s, st);
    StepPages(c, s, Next(c, s, st), st.p);
  }

  // ----- termination -----

  /** How many steps a party can take at most. */
  function StepsLeft(c: Config, pc: PC, inside: bool): int {
    (if inside then -1 else 0) +
    match pc
    case Mmap => 2 * c.Parties() + 14
    case Publish => 2 * c.Parties() + 13
    case WaitA => 2 * c.Parties() + 12
    case Upper(i) => 2 * c.Parties() - i + 10
    case Lower(i) => c.Parties() - i + 6
    case WaitB => 5
    case Join => 2
    case Munmap => 1
    case _ => 0
  }

  function Ranks(c: Config, s: State): (r: seq<int>)
    requires Shaped(c, s)
    ensures |r| == |s.pc|
  {
    seq(|s.pc|, p requires 0 <= p < |s.pc| => StepsLeft(c, s.pc[p], s.bar.inside[p]))
  }

  lemma RanksNonNegative(c: Config, s: State)
    requires Inv(c, s)
    ensures forall p :: 0 <= p < c.Parties() ==> Ranks(c, s)[p] >= 0
  {
    forall p | 0 <= p < c.Parties() ensures Ranks(c, s)[p] >= 0 { assert PartyOk(c, s, p); }
  }

  ghost function Rank(c: Config, s: State): (r: int)
    requires Inv(c, s)
    ensures r >= 0
  {
    RanksNonNegative(c, s);
    SumNonNegative(Ranks(c, s));
    Sum(Ranks(c, s))
  }

  lemma OwnRankDrops(c: Config, s: State, st: Step)
    requires Enabled(c, s, st) && PartyOk(c, s, st.p) && !Next(c, s, st).pc[st.p].Failed?
    ensures var t, p := Next(c, s, st), st.p;
      Shaped(c, t) && StepsLeft(c, t.pc[p], t.bar.inside[p]) < StepsLeft(c, s.pc[p], s.bar.inside[p])
  {
  }

  lemma RankDrops(c: Config, s: State, st: Step)
    requires Inv(c, s) && Enabled(c, s, st)
    ensures Inv(c, Next(c, s, st)) && Rank(c, Next(c, s, st)) < Rank(c, s)
  {
    StepInv(c, s, st);
    assert PartyOk(c, s, st.p) && PartyOk(c, Next(c, s, st), st.p);
    OnlyActor(c, s, st);
    OwnRankDrops(c, s, st);
    SumDrops(Ranks(c, s), Ranks(c, Next(c, s, st)), st.p);
  }

  // ----- what the program promises -----

  lemma {:induction false} RunInv(c: Config, s: State, sts: seq<Step>)
    requires Inv(c, s) && Legal(c, s, sts)
    ensures Inv(c, Run(c, s, sts)) && |sts| <= Rank(c, s)
    decreases |sts|
  {
    if sts == [] {
    } else {
      RankDrops(c, s, sts[0]);
      RunInv(c, Next(c, s, sts[0]), sts[1..]);
    }
  }

  /** The main result: for every number of tasks and every interleaving no store faults and no
      munmap fails, and when all are done every party has stored to every page exactly once
      and no page is left mapped. */
  lemma EveryRun(c: Config, s: State, sts: seq<Step>)
    requires Initial(c, s) && Legal(c, s, sts)
    ensures Inv(c, s) && |sts| <= Rank(c, s)
    ensures var t := Run(c, s, sts); Shaped(c, t) && forall p :: 0 <= p < c.Parties() ==> !t.pc[p].Failed?
    ensures var t := Run(c, s, sts);
      (forall p :: 0 <= p < c.Parties() ==> t.pc[p].Done?) ==>
        && t.mapped == {}
        && forall p, i :: 0 <= p < c.Parties() && 0 <= i < c.Parties() ==> t.touches[p][i] == 1
  {
    InitialInv(c, s);
    RunInv(c, s, sts);
    Outcome(c, Run(c, s, sts));
  }

  lemma Outcome(c: Config, s: State)
    requires Inv(c, s)
    ensures forall p :: 0 <= p < c.Parties() ==> !s.pc[p].Failed?
    ensures (forall p :: 0 <= p < c.Parties() ==> s.pc[p].Done?) ==>
      s.mapped == {} && forall p, i :: 0 <= p < c.Parties() && 0 <= i < c.Parties() ==> s.touches[p][i] == 1
  {
    forall p | 0 <= p < c.Parties()
      ensures !s.pc[p].Failed?
      ensures s.pc[p].Done? ==> forall i :: 0 <= i < c.Parties() ==> s.touches[p][i] == 1
    {
      assert PartyOk(c, s, p);
    }
  }

  lemma NeverStuck(c: Config, s: State)
    requires Inv(c, s) && forall st :: !Enabled(c, s, st)
    ensures forall p :: 0 <= p < c.Parties() ==> s.pc[p].Done?
  {
    var page := NotInUse(s.mapped);
    var f := SomebodyFree(s.bar);
    assert PartyOk(c, s, f) && !Enabled(c, s, Go(f)) && !Enabled(c, s, Map(f, page));
    assert s.bar.calls[f] == 2 == s.bar.round;
    forall p | 0 <= p < c.Parties() ensures s.pc[p].Done? || s.pc[p].Join? {
      assert PartyOk(c, s, p) && !Enabled(c, s, Go(p)) && !Enabled(c, s, Map(p, page));
    }
    forall p | 0 <= p < c.nt ensures s.pc[p].Done? { assert PartyOk(c, s, p); }
    assert !Enabled(c, s, Go(c.nt));
  }
}
