/**
 The signals of basics/pip_kill.c one by one: which party receives which signal, in a whole run,
 and which steps of its loop a party takes.
 */
module SignalOrder {
  import opened SignalRing
  import opened Sequences

  // ----- the signals of a run -----

  function IfReceipt(st: Step): seq<Step> { if st.Take? then [st] else [] }

  /** The receipts of a run, in order. */
  function Receipts(sts: seq<Step>): seq<Step> { if sts == [] then [] else IfReceipt(sts[0]) + Receipts(sts[1..]) }

  /** The number of the first receipt of round r. */
  function First(c: Config, r: nat): nat { if r == 0 then 0 else First(c, r - 1) + c.Parties() }

  lemma {:induction false} FirstIs(c: Config, r: nat)
    ensures First(c, r) == r * (c.nt + 1)
  {
    if r == 0 {
    } else {
      FirstIs(c, r - 1);
      assert r * (c.nt + 1) == (r - 1) * (c.nt + 1) + (c.nt + 1);
    }
  }

  lemma {:induction false} FirstGrows(c: Config, a: nat, b: nat)
    requires a < b
    ensures First(c, a) + c.Parties() <= First(c, b)
  {
    if a < b - 1 { FirstGrows(c, a, b - 1); }
  }

  /** What the k-th receipt of round r has to be: parties 1, 2, ..., nt and then root. */
  function Expected(c: Config, r: nat, k: nat): Step {
    Take(if k < c.nt then k + 1 else 0, if r % 2 == 0 then Usr1 else Usr2)
  }

  ghost predicate InOrder(c: Config, ts: seq<Step>) {
    forall r: nat, k: nat {:trigger Expected(c, r, k)} ::
      k <= c.nt && First(c, r) + k < |ts| ==> ts[First(c, r) + k] == Expected(c, r, k)
  }

  /** The party whose turn it is has received its signal and not passed it on. */
  predicate HasTaken(pc: PC) { pc.CheckSender? || pc.CheckSignal? || pc.SetSender? || pc.Kill? }

  /** How many signals have been received, by whose turn it is. */
  function SoFar(c: Config, s: State): int
    requires Shaped(c, s) && s.pos <= c.Parties()
  {
    if s.pos == 0 then First(c, s.round)
    else First(c, s.round) + s.pos - 1
         + if HasTaken(s.pc[if s.pos == c.Parties() then 0 else s.pos]) then 1 else 0
  }

  lemma StepCounts(c: Config, s: State, st: Step)
    requires Inv(c, s) && Enabled(c, s, st)
    ensures Inv(c, Next(c, s, st)) && SoFar(c, Next(c, s, st)) == SoFar(c, s) + if st.Take? then 1 else 0
  {
    StepInv(c, s, st);
    if AtBarrier(s.pc[st.p]) || s.pc[st.p].Block? {
      WaitCounts(c, s, st.p);
    } else {
      TurnCounts(c, s, st);
    }
  }

  /** Whoever is at a barrier has nothing to do with the turn. */
  lemma WaitCounts(c: Config, s: State, p: nat)
    requires Inv(c, s) && Enabled(c, s, Go(p)) && (AtBarrier(s.pc[p]) || s.pc[p].Block?)
    ensures var t := Next(c, s, Go(p)); Shaped(c, t) && t.pos <= c.Parties() && SoFar(c, t) == SoFar(c, s)
  {
    WaitFrame(c, s, p);
    assert PartyOk(c, s, 0) && PartyOk(c, s, p);
  }

  lemma TurnCounts(c: Config, s: State, st: Step)
    requires Inv(c, s) && Enabled(c, s, st) && !AtBarrier(s.pc[st.p]) && !s.pc[st.p].Block?
    requires Inv(c, Next(c, s, st))
    ensures SoFar(c, Next(c, s, st)) == SoFar(c, s) + if st.Take? then 1 else 0
  {
    if s.pc[st.p].Kill? { KillCounts(c, s, st.p); } else { OtherCounts(c, s, st); }
  }

  /** The target of a kill has yet to receive it. */
  lemma KillCounts(c: Config, s: State, p: nat)
    requires Inv(c, s) && Enabled(c, s, Go(p)) && s.pc[p].Kill? && Shaped(c, Next(c, s, Go(p)))
    ensures Next(c, s, Go(p)).pos <= c.Parties() && SoFar(c, Next(c, s, Go(p))) == SoFar(c, s)
  {
    var h := NextParty(c, p);
    ItsTurn(c, s, Go(p));
    TargetIsFree(c, s, p);
    assert PartyOk(c, s, p) && PartyOk(c, s, h);
  }

  lemma OtherCounts(c: Config, s: State, st: Step)
    requires Inv(c, s) && Enabled(c, s, st) && !AtBarrier(s.pc[st.p]) && !s.pc[st.p].Block? && !s.pc[st.p].Kill?
    requires Shaped(c, Next(c, s, st)) && Next(c, s, st).pos <= c.Parties()
    ensures SoFar(c, Next(c, s, st)) == SoFar(c, s) + if st.Take? then 1 else 0
  {
    ItsTurn(c, s, st);
    assert PartyOk(c, s, st.p);
  }

  lemma TakesExpected(c: Config, s: State, st: Step)
    requires Inv(c, s) && Enabled(c, s, st) && st.Take?
    ensures exists k: nat :: k <= c.nt && SoFar(c, s) == First(c, s.round) + k && st == Expected(c, s.round, k)
  {
    ItsTurn(c, s, st);
    assert PartyOk(c, s, st.p);
    var k: nat := if st.p == 0 then c.nt else st.p - 1;
    assert SoFar(c, s) == First(c, s.round) + k && st == Expected(c, s.round, k);
  }

  lemma OneMoreInOrder(c: Config, ts: seq<Step>, r: nat, k: nat, st: Step)
    requires InOrder(c, ts) && k <= c.nt && |ts| == First(c, r) + k && st == Expected(c, r, k)
    ensures InOrder(c, ts + [st])
  {
    var us := ts + [st];
    forall a: nat, b: nat | b <= c.nt && First(c, a) + b < |us| ensures us[First(c, a) + b] == Expected(c, a, b) {
      if First(c, a) + b == |ts| {
        if a < r { FirstGrows(c, a, r); }
        if r < a { FirstGrows(c, r, a); }
      }
    }
  }

  lemma StepInOrder(c: Config, s: State, st: Step, ts: seq<Step>)
    requires Inv(c, s) && Enabled(c, s, st) && InOrder(c, ts) && |ts| == SoFar(c, s)
    ensures InOrder(c, ts + IfReceipt(st))
  {
    NothingMore(ts);
    if st.Take? {
      TakesExpected(c, s, st);
      var k: nat :| k <= c.nt && SoFar(c, s) == First(c, s.round) + k && st == Expected(c, s.round, k);
      OneMoreInOrder(c, ts, s.round, k, st);
    }
  }

  lemma {:induction false} RunInOrder(c: Config, s: State, sts: seq<Step>, ts: seq<Step>)
    requires Inv(c, s) && Legal(c, s, sts) && InOrder(c, ts) && |ts| == SoFar(c, s)
    ensures InOrder(c, ts + Receipts(sts))
    decreases |sts|
  {
    if sts == [] {
      NothingMore(ts);
    } else {
      StepCounts(c, s, sts[0]);
      StepInOrder(c, s, sts[0], ts);
      RunInOrder(c, Next(c, s, sts[0]), sts[1..], ts + IfReceipt(sts[0]));
      Associates(ts, IfReceipt(sts[0]), Receipts(sts[1..]));
    }
  }

  /** The main result on the order: in every run the signals of round r are received by tasks 0, 1,
      ..., nt-1 and then by root, and they are SIGUSR1 if r is even and SIGUSR2 if not. */
  lemma ReceivedInOrder(c: Config, s: State, sts: seq<Step>, r: nat, k: nat)
    requires Initial(c, s) && Legal(c, s, sts) && k <= c.nt && r * (c.nt + 1) + k < |Receipts(sts)|
    ensures Receipts(sts)[r * (c.nt + 1) + k]
            == Take(if k < c.nt then k + 1 else 0, if r % 2 == 0 then Usr1 else Usr2)
  {
    InitialInv(c, s);
    RunInOrder(c, s, sts, []);
    NothingMore(Receipts(sts));
    FirstIs(c, r);
    assert Receipts(sts)[First(c, r) + k] == Expected(c, r, k);
  }

  // ----- the steps of a party's loop -----

  predicate InLoop(pc: PC) { pc.SetSender? || pc.Kill? || pc.Await? || pc.CheckSender? || pc.CheckSignal? }

  function Part(s: State, st: Step, p: nat): seq<PC>
    requires p < |s.pc|
  {
    if st.p == p && InLoop(s.pc[p]) then [s.pc[p]] else []
  }

  lemma StepShaped(c: Config, s: State, st: Step)
    requires Enabled(c, s, st)
    ensures Shaped(c, Next(c, s, st))
  {
  }

  /** What party p does in its loop in a run: the points that it goes on from. */
  function Work(c: Config, s: State, sts: seq<Step>, p: nat): seq<PC>
    requires Legal(c, s, sts) && Shaped(c, s) && p < c.Parties()
    decreases |sts|
  {
    if sts == [] then []
    else
      StepShaped(c, s, sts[0]);
      Part(s, sts[0], p) + Work(c, Next(c, s, sts[0]), sts[1..], p)
  }

  /** wait_signal_root sends and then waits; wait_signal_task waits and then sends. */
  predicate IsPart(p: nat, pc: PC, part: nat) {
    match part
    case 0 => if p == 0 then pc.SetSender? else pc.Await?
    case 1 => if p == 0 then pc.Kill? else pc.CheckSignal?
    case 2 => if p == 0 then pc.Await? else pc.CheckSender?
    case 3 => if p == 0 then pc.CheckSender? else pc.SetSender?
    case 4 => if p == 0 then pc.CheckSignal? else pc.Kill?
    case _ => false
  }

  predicate EntryOk(p: nat, w: seq<PC>, j: nat)
    requires j < |w|
  {
    IsPart(p, w[j], j % 5) && w[j].r == j / 5
  }

  function Progress(c: Config, p: nat, pc: PC): int {
    match pc
    case SetSender(r) => 5 * r + if p == 0 then 0 else 3
    case Kill(r) => 5 * r + if p == 0 then 1 else 4
    case Await(r) => 5 * r + if p == 0 then 2 else 0
    case CheckSender(r, _) => 5 * r + if p == 0 then 3 else 2
    case CheckSignal(r, _) => 5 * r + if p == 0 then 4 else 1
    case AtEnd => 10 * c.niters
    case Done => 10 * c.niters
    case _ => 0
  }

  ghost predicate Tally(c: Config, s: State, p: nat, w: seq<PC>)
    requires p < |s.pc|
  {
    |w| == Progress(c, p, s.pc[p]) && forall j :: 0 <= j < |w| ==> EntryOk(p, w, j)
  }

  lemma OwnProgress(c: Config, s: State, st: Step)
    requires Inv(c, s) && Enabled(c, s, st) && InLoop(s.pc[st.p])
    ensures Proceeds(c, s, st)
  {
    assert PartyOk(c, s, st.p);
    ItsTurn(c, s, st);
    if s.pc[st.p].CheckSender? || s.pc[st.p].CheckSignal? {
      CheckProceeds(c, s, st.p);
    } else {
      MoveProceeds(c, s, st);
    }
  }

  ghost predicate Proceeds(c: Config, s: State, st: Step)
    requires Enabled(c, s, st) && InLoop(s.pc[st.p])
  {
    var t, pc, p := Next(c, s, st), s.pc[st.p], st.p;
    && |t.pc| == |s.pc| && Progress(c, p, t.pc[p]) == Progress(c, p, pc) + 1
    && 5 * pc.r <= Progress(c, p, pc) < 5 * pc.r + 5 && IsPart(p, pc, Progress(c, p, pc) - 5 * pc.r)
  }

  lemma CheckProceeds(c: Config, s: State, p: nat)
    requires Enabled(c, s, Go(p)) && (s.pc[p].CheckSender? || s.pc[p].CheckSignal?) && PartyOk(c, s, p)
    requires s.round < c.Rounds() && s.pc[p].r == s.round
    ensures Proceeds(c, s, Go(p))
  {
  }

  lemma MoveProceeds(c: Config, s: State, st: Step)
    requires Enabled(c, s, st) && (s.pc[st.p].SetSender? || s.pc[st.p].Kill? || s.pc[st.p].Await?)
    requires s.pc[st.p].r < c.Rounds()
    ensures Proceeds(c, s, st)
  {
  }

  lemma OtherProgress(c: Config, s: State, st: Step, p: nat)
    requires Inv(c, s) && Enabled(c, s, st) && p < c.Parties() && (st.p != p || !InLoop(s.pc[p]))
    ensures |Next(c, s, st).pc| == |s.pc| && Progress(c, p, Next(c, s, st).pc[p]) == Progress(c, p, s.pc[p])
  {
    if st.p == p && s.pc[p].AtStart? { assert PartyOk(c, s, p); }
  }

  lemma TallyStep(c: Config, s: State, st: Step, p: nat, w: seq<PC>)
    requires Inv(c, s) && Enabled(c, s, st) && p < c.Parties() && Tally(c, s, p, w)
    ensures Shaped(c, Next(c, s, st)) && Tally(c, Next(c, s, st), p, w + Part(s, st, p))
  {
    StepShaped(c, s, st);
    if st.p == p && InLoop(s.pc[p]) {
      OwnProgress(c, s, st);
      OneMorePart(p, w, s.pc[p]);
    } else {
      NothingMore(w);
      OtherProgress(c, s, st, p);
    }
  }

  lemma OneMorePart(p: nat, w: seq<PC>, pc: PC)
    requires InLoop(pc) && 5 * pc.r <= |w| < 5 * pc.r + 5 && IsPart(p, pc, |w| - 5 * pc.r)
    requires forall j :: 0 <= j < |w| ==> EntryOk(p, w, j)
    ensures forall j :: 0 <= j < |w| + 1 ==> EntryOk(p, w + [pc], j)
  {
    forall j | 0 <= j < |w| + 1 ensures EntryOk(p, w + [pc], j) { if j < |w| { assert EntryOk(p, w, j); } }
  }

  lemma {:induction false} TallyRun(c: Config, s: State, sts: seq<Step>, p: nat, w: seq<PC>)
    requires Inv(c, s) && Legal(c, s, sts) && p < c.Parties() && Tally(c, s, p, w)
    ensures Shaped(c, Run(c, s, sts)) && Tally(c, Run(c, s, sts), p, w + Work(c, s, sts, p))
    decreases |sts|
  {
    if sts == [] {
      NothingMore(w);
    } else {
      StepInv(c, s, sts[0]);
      TallyStep(c, s, sts[0], p, w);
      TallyRun(c, Next(c, s, sts[0]), sts[1..], p, w + Part(s, sts[0], p));
      Associates(w, Part(s, sts[0], p), Work(c, Next(c, s, sts[0]), sts[1..], p));
    }
  }

  /** In every run a party takes the steps of its loop in the order of the program, both checks
      included; and when it is through it has taken all of them, for all rounds. */
  lemma EveryPartyWorks(c: Config, s: State, sts: seq<Step>, p: nat)
    requires Initial(c, s) && Legal(c, s, sts) && p < c.Parties()
    ensures forall j :: 0 <= j < |Work(c, s, sts, p)| ==> EntryOk(p, Work(c, s, sts, p), j)
    ensures var t := Run(c, s, sts); Shaped(c, t) && (t.pc[p].Done? ==> |Work(c, s, sts, p)| == 10 * c.niters)
  {
    InitialInv(c, s);
    TallyRun(c, s, sts, p, []);
    NothingMore(Work(c, s, sts, p));
  }

  /** The checks notice a wrong sender and a wrong signal, whatever state the program is in. */
  lemma WrongIsNoticed(c: Config, s: State, p: nat)
    requires Enabled(c, s, Go(p)) && (s.pc[p].CheckSender? || s.pc[p].CheckSignal?)
    ensures |Next(c, s, Go(p)).pc| == c.nt + 1
    ensures Next(c, s, Go(p)).pc[p].Failed? <==>
      if s.pc[p].CheckSender? then s.sender != (if p == 0 then c.nt else p - 1)
      else s.pc[p].sig != if s.pc[p].r % 2 == 0 then Usr1 else Usr2
  {
  }

  /** A signal that reaches the handler, or meets one of its kind, is noticed in any state. */
  lemma LossIsNoticed(c: Config, s: State, p: nat)
    requires Enabled(c, s, Go(p)) && s.pc[p].Kill? && !s.handled && !s.merged
    ensures var t, q := Next(c, s, Go(p)), if p == c.nt then 0 else p + 1;
      var sig := if s.pc[p].r % 2 == 0 then Usr1 else Usr2;
      && (t.handled <==> !s.blocked[q]) && (t.merged <==> s.blocked[q] && sig in s.pending[q])
      && (s.blocked[q] ==> t.pending == s.pending[q := s.pending[q] + {sig}])
  {
  }
}
