/**
 The steps of compat/pagefault.c one by one: in which order a party stores to the pages, and that
 root unmaps its own only when all tasks have ended.
 */
module PageWork {
  import opened PageTouches
  import opened Sequences

  // ----- the stores of a run -----

  predicate Stores(c: Config, s: State, st: Step, p: nat)
    requires p < |s.pc|
  {
    st == Go(p) && match s.pc[p]
                   case Upper(i) => i < c.Parties()
                   case Lower(i) => p < c.nt && i < p
                   case _ => false
  }

  lemma OnePc(c: Config, s: State, st: Step)
    requires Enabled(c, s, st)
    ensures var t := Next(c, s, st); Shaped(c, t) && t.pc == s.pc[st.p := t.pc[st.p]]
  {
  }

  /** The slots whose pages party p stores to, in order. */
  function Slots(c: Config, s: State, sts: seq<Step>, p: nat): seq<nat>
    requires Shaped(c, s) && Legal(c, s, sts) && p < c.Parties()
    decreases |sts|
  {
    if sts == [] then []
    else
      OnePc(c, s, sts[0]);
      (if Stores(c, s, sts[0], p) then [s.pc[p].i] else []) + Slots(c, Next(c, s, sts[0]), sts[1..], p)
  }

  /** A task's m-th store is to the m-th slot from its own on, root's is to slot m. */
  function Expected(c: Config, p: nat, m: int): int {
    var n := (if p == c.nt then 0 else p) + m;
    if n <= c.nt then n else n - (c.nt + 1)
  }

  function Progress(c: Config, p: nat, pc: PC): int {
    match pc
    case Mmap => 0
    case Publish => 0
    case WaitA => 0
    case Upper(i) => i - if p == c.nt then 0 else p
    case Lower(i) => c.nt + 1 - (if p == c.nt then 0 else p) + i
    case _ => c.nt + 1
  }

  predicate InRange(c: Config, p: nat, pc: PC) {
    && !pc.Failed? && (pc.Upper? ==> pc.i <= c.nt + 1)
    && (pc.Lower? ==> pc.i <= if p == c.nt then 0 else p)
  }

  ghost predicate Tally(c: Config, s: State, p: nat, w: seq<nat>)
    requires p < |s.pc|
  {
    && InRange(c, p, s.pc[p]) && |w| == Progress(c, p, s.pc[p])
    && forall m :: 0 <= m < |w| ==> w[m] == Expected(c, p, m)
  }

  lemma OwnProgress(c: Config, s: State, st: Step)
    requires Enabled(c, s, st) && InRange(c, st.p, s.pc[st.p]) && !Next(c, s, st).pc[st.p].Failed?
    ensures var t, pc, p := Next(c, s, st), s.pc[st.p], st.p;
      && InRange(c, p, t.pc[p])
      && Progress(c, p, t.pc[p]) == Progress(c, p, pc) + (if Stores(c, s, st, p) then 1 else 0)
      && (Stores(c, s, st, p) ==> pc.i == Expected(c, p, Progress(c, p, pc)))
  {
  }

  lemma TallyStep(c: Config, s: State, st: Step, p: nat, w: seq<nat>)
    requires Enabled(c, s, st) && p < c.Parties() && Tally(c, s, p, w)
    requires Shaped(c, Next(c, s, st)) && !Next(c, s, st).pc[p].Failed?
    ensures Tally(c, Next(c, s, st), p, if Stores(c, s, st, p) then w + [s.pc[p].i] else w)
  {
    OnePc(c, s, st);
    if st.p == p { OwnProgress(c, s, st); }
  }

  lemma {:induction false} TallyRun(c: Config, s: State, sts: seq<Step>, p: nat, w: seq<nat>)
    requires Inv(c, s) && Legal(c, s, sts) && p < c.Parties() && Tally(c, s, p, w)
    ensures Shaped(c, Run(c, s, sts)) && Tally(c, Run(c, s, sts), p, w + Slots(c, s, sts, p))
    decreases |sts|
  {
    if sts == [] {
      NothingMore(w);
    } else {
      var t := Next(c, s, sts[0]);
      StepInv(c, s, sts[0]);
      assert PartyOk(c, t, p);
      TallyStep(c, s, sts[0], p, w);
      var more := if Stores(c, s, sts[0], p) then [s.pc[p].i] else [];
      Associates(w, more, Slots(c, t, sts[1..], p));
      TallyRun(c, t, sts[1..], p, w + more);
    }
  }

  /** In every run the stores of a task go over all slots, from its own to the last and then from the
      first to the one before its own, and those of root from the first to the last; and a party
      that unmaps its page has made all of them. */
  lemma StoresInOrder(c: Config, s: State, sts: seq<Step>, p: nat)
    requires Initial(c, s) && Legal(c, s, sts) && p < c.Parties()
    ensures forall m :: 0 <= m < |Slots(c, s, sts, p)| ==> Slots(c, s, sts, p)[m] == Expected(c, p, m)
    ensures var t := Run(c, s, sts);
      Shaped(c, t) && (t.pc[p].Munmap? || t.pc[p].Done? ==> |Slots(c, s, sts, p)| == c.nt + 1)
  {
    InitialInv(c, s);
    TallyRun(c, s, sts, p, []);
    NothingMore(Slots(c, s, sts, p));
  }

  // ----- root is last -----

  ghost predicate RootIsLast(c: Config, s: State) {
    Shaped(c, s) && (s.pc[c.nt].Munmap? || s.pc[c.nt].Done? ==> forall q :: 0 <= q < c.nt ==> s.pc[q].Done?)
  }

  lemma {:induction false} RootStaysLast(c: Config, s: State, sts: seq<Step>)
    requires RootIsLast(c, s) && Legal(c, s, sts)
    ensures RootIsLast(c, Run(c, s, sts))
    decreases |sts|
  {
    if sts == [] {
    } else {
      RootStaysLast(c, Next(c, s, sts[0]), sts[1..]);
    }
  }

  /** Root unmaps its page only when all tasks have ended. */
  lemma RootUnmapsLast(c: Config, s: State, sts: seq<Step>)
    requires Initial(c, s) && Legal(c, s, sts)
    ensures var t := Run(c, s, sts);
      Shaped(c, t) && (t.pc[c.nt].Munmap? || t.pc[c.nt].Done? ==> forall q :: 0 <= q < c.nt ==> t.pc[q].Done?)
  {
    RootStaysLast(c, s, sts);
  }

  /** A store through an entry that holds no mapped page, and an unmapping of a page that is not
      mapped, are noticed in any state. */
  lemma FaultIsNoticed(c: Config, s: State, p: nat)
    requires Enabled(c, s, Go(p)) && (Stores(c, s, Go(p), p) || s.pc[p].Munmap?)
    ensures p < |Next(c, s, Go(p)).pc|
    ensures Next(c, s, Go(p)).pc[p].Failed? <==>
      if s.pc[p].Munmap? then s.page[p] !in s.mapped
      else s.maps[s.pc[p].i] < 0 || s.maps[s.pc[p].i] !in s.mapped
  {
  }
}
