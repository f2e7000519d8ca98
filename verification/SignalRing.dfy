/**
 basics/pip_kill.c: root and the tasks pass a signal around a ring. Pending signals are not
 queued: a second one of the same number is lost. A signal that is not blocked is run by the
 handler and never seen by sigwait. Party 0 is root and party k is task k - 1; rounds with an
 even number use SIGUSR1 and the others SIGUSR2.
 */
module SignalRing {
  import opened CyclicBarrier
  import opened Sums

  datatype Config = Config(nt: nat, niters: nat)
  {
    function Parties(): nat { nt + 1 }
    function Rounds(): nat { 2 * niters }
  }

  datatype Signal = Usr1 | Usr2

  datatype PC =
    | Block | AtStart
    | SetSender(r: nat) | Kill(r: nat) | Await(r: nat)
    | CheckSender(r: nat, sig: Signal) | CheckSignal(r: nat, sig: Signal)
    | AtEnd | Done
    | Failed

  /** `handled` and `merged` record that a signal was run by the handler, or lost because it
      was pending already; `round` and `pos` are history: whose turn it is. */
  datatype State = State(
    bar: Barrier, pc: seq<PC>, blocked: seq<bool>, pending: seq<set<Signal>>, sender: nat,
    handled: bool, merged: bool, round: nat, pos: nat)

  /** sigwait returns any one of the pending signals. */
  datatype Step = Go(p: nat) | Take(p: nat, sig: Signal)

  predicate Shaped(c: Config, s: State) {
    && c.nt > 0
    && |s.pc| == |s.blocked| == |s.pending| == c.Parties()
    && |s.bar.inside| == |s.bar.ticket| == |s.bar.calls| == c.Parties()
  }

  function SignalOf(r: nat): Signal { if r % 2 == 0 then Usr1 else Usr2 }

  function NextParty(c: Config, p: nat): nat { if p + 1 >= c.Parties() then 0 else p + 1 }
  function PrevParty(c: Config, p: nat): nat { if p == 0 then c.nt else p - 1 }

  predicate Enabled(c: Config, s: State, st: Step) {
    && Shaped(c, s) && st.p < c.Parties()
    && var pc := s.pc[st.p];
       match st
       case Take(p, sig) => pc.Await? && sig in s.pending[p]
       case Go(p) =>
         match pc
         case AtStart => MayEnter(s.bar, p) || MayLeave(s.bar, p)
         case AtEnd => MayEnter(s.bar, p) || MayLeave(s.bar, p)
         case Await(_) => false
         case Done => false
         case Failed => false
         case _ => true
  }

  function To(s: State, p: nat, pc: PC): State
    requires p < |s.pc|
  {
    s.(pc := s.pc[p := pc])
  }

  /** The head of the loop body, or what follows the loop. */
  function Loop(c: Config, p: nat, r: nat): PC {
    if r >= c.Rounds() then AtEnd else if p == 0 then SetSender(r) else Await(r)
  }

  function Next(c: Config, s: State, st: Step): State
    requires Enabled(c, s, st)
  {
    var p := st.p;
    match s.pc[p]
    case Block => To(s, p, AtStart).(blocked := s.blocked[p := true])
    case AtStart =>
      if MayEnter(s.bar, p) then s.(bar := Enter(s.bar, p))
      else To(s, p, Loop(c, p, 0)).(bar := Leave(s.bar, p))
    case SetSender(r) => To(s, p, Kill(r)).(sender := p)
    case Kill(r) =>
      Deliver(To(s, p, if p == 0 then Await(r) else Loop(c, p, r + 1)), NextParty(c, p), SignalOf(r))
      .(pos := s.pos + 1)
    case Await(r) =>
      To(s, p, if p == 0 then CheckSender(r, st.sig) else CheckSignal(r, st.sig))
      .(pending := s.pending[p := s.pending[p] - {st.sig}])
    case CheckSender(r, sig) =>
      To(s, p, if s.sender != PrevParty(c, p) then Failed else if p == 0 then CheckSignal(r, sig) else SetSender(r))
    case CheckSignal(r, sig) =>
      if sig != SignalOf(r) then To(s, p, Failed)
      else if p == 0 then To(s, p, Loop(c, p, r + 1)).(round := r + 1, pos := 0)
      else To(s, p, CheckSender(r, sig))
    case AtEnd =>
      if MayEnter(s.bar, p) then s.(bar := Enter(s.bar, p))
      else To(s, p, Done).(bar := Leave(s.bar, p))
  }

  function Deliver(s: State, p: nat, sig: Signal): State
    requires p < |s.blocked| == |s.pending|
  {
    if !s.blocked[p] then s.(handled := true)
    else s.(merged := s.merged || sig in s.pending[p], pending := s.pending[p := s.pending[p] + {sig}])
  }

  predicate Legal(c: Config, s: State, sts: seq<Step>)
    decreases |sts|
  {
    sts == [] || (Enabled(c, s, sts[0]) && Legal(c, Next(c, s, sts[0]), sts[1..]))
  }

  function Run(c: Config, s: State, sts: seq<Step>): State
    requires Legal(c, s, sts)
    decreases |sts|
  {
    if sts == [] then s else Run(c, Next(c, s, sts[0]), sts[1..])
  }

  /** Signals may be blocked or not before the tasks have asked for it. */
  predicate Initial(c: Config, s: State) {
    && Shaped(c, s) && s.bar == CyclicBarrier.Fresh(c.Parties(), c.Parties())
    && !s.handled && !s.merged && s.round == s.pos == 0
    && forall p :: 0 <= p < c.Parties() ==> s.pc[p] == Block && s.pending[p] == {}
  }

  // ----- the invariant -----

  predicate AtOrBefore(c: Config, p: nat, pc: PC, r: nat) {
    pc == Loop(c, p, r) || (r == 0 && (pc.Block? || pc.AtStart?)) || (r == c.Rounds() && pc.Done?)
  }

  ghost predicate PartyOk(c: Config, s: State, p: nat)
    requires Shaped(c, s) && p < c.Parties()
  {
    if p == 0 then RootOk(c, s)
    else if p < s.pos then s.pc[p] == Loop(c, p, s.round + 1) && s.pending[p] == {}
    else if p > s.pos || s.round == c.Rounds() then AtOrBefore(c, p, s.pc[p], s.round) && s.pending[p] == {}
    else HolderOk(c, s, p)
  }

  /** The signal has been sent to p, who has not passed it on yet. */
  ghost predicate HolderOk(c: Config, s: State, p: nat)
    requires Shaped(c, s) && p < c.Parties()
  {
    var pc, r, sig := s.pc[p], s.round, SignalOf(s.round);
    || (AtOrBefore(c, p, pc, r) && !pc.Block? && s.pending[p] == {sig} && s.sender == p - 1)
    || ((pc == CheckSignal(r, sig) || pc == CheckSender(r, sig)) && s.pending[p] == {} && s.sender == p - 1)
    || (pc == SetSender(r) && s.pending[p] == {})
    || (pc == Kill(r) && s.pending[p] == {} && s.sender == p)
  }

  ghost predicate RootOk(c: Config, s: State)
    requires Shaped(c, s)
  {
    var pc, r, sig := s.pc[0], s.round, SignalOf(s.round);
    if s.pos == 0 then
      s.pending[0] == {} && (AtOrBefore(c, 0, pc, r) || (r < c.Rounds() && pc == Kill(r) && s.sender == 0))
    else if s.pos <= c.nt then pc == Await(r) && s.pending[0] == {}
    else
      && s.sender == c.nt
      && if pc == Await(r) then s.pending[0] == {sig}
         else s.pending[0] == {} && (pc == CheckSender(r, sig) || pc == CheckSignal(r, sig))
  }

  function Calls(pc: PC, inside: bool): nat {
    (if inside then 1 else 0) + if pc.Block? || pc.AtStart? then 0 else if pc.Done? then 2 else 1
  }

  predicate AtBarrier(pc: PC) { pc.AtStart? || pc.AtEnd? }

  ghost predicate Inv(c: Config, s: State) {
    && Shaped(c, s) && Sound(s.bar) && s.bar.needed == c.Parties()
    && !s.handled && !s.merged
    && s.round <= c.Rounds() && s.pos <= c.Parties() && (s.round == c.Rounds() ==> s.pos == 0)
    && (forall p :: 0 <= p < c.Parties() ==> PartyOk(c, s, p))
    && (forall p :: 0 <= p < c.Parties() ==> s.bar.calls[p] == Calls(s.pc[p], s.bar.inside[p]))
    && (forall p :: 0 <= p < c.Parties() && s.bar.inside[p] ==> AtBarrier(s.pc[p]))
    && (forall p :: 0 <= p < c.Parties() && !s.pc[p].Block? ==> s.blocked[p])
  }

  lemma InitialInv(c: Config, s: State)
    requires Initial(c, s)
    ensures Inv(c, s)
  {
    FreshSound(c.Parties());
  }

  // ----- every step keeps it -----

  /** Only the party whose turn it is moves inside the loops. */
  lemma ItsTurn(c: Config, s: State, st: Step)
    requires Inv(c, s) && Enabled(c, s, st) && !AtBarrier(s.pc[st.p]) && !s.pc[st.p].Block?
    ensures s.round < c.Rounds() && s.pc[st.p].r == s.round
    ensures s.pos == st.p || (st.p == 0 && s.pos == c.Parties())
    ensures st.Take? ==> st.sig == SignalOf(s.round)
  {
    assert PartyOk(c, s, st.p);
  }

  /** Whoever is past the first barrier can rely on all signals being blocked. */
  lemma AllBlocked(c: Config, s: State, p: nat, q: nat)
    requires Inv(c, s) && p < c.Parties() && q < c.Parties() && Calls(s.pc[p], false) >= 1
    ensures s.blocked[q] && !s.pc[q].Block?
  {
    assert s.bar.calls[p] == Calls(s.pc[p], s.bar.inside[p]);
    assert s.bar.calls[q] == Calls(s.pc[q], s.bar.inside[q]);
  }

  /** The target of a kill has nothing pending. */
  lemma TargetIsFree(c: Config, s: State, p: nat)
    requires Inv(c, s) && Enabled(c, s, Go(p)) && s.pc[p].Kill?
    ensures var q := NextParty(c, p);
      q < c.Parties() && q != p && s.blocked[q] && s.pending[q] == {} && !s.pc[q].Block?
  {
    var q := NextParty(c, p);
    ItsTurn(c, s, Go(p));
    AllBlocked(c, s, p, q);
    assert PartyOk(c, s, q) && PartyOk(c, s, p);
  }

  lemma WaitTask(c: Config, s: State, p: nat)
    requires Inv(c, s) && Enabled(c, s, Go(p)) && (AtBarrier(s.pc[p]) || s.pc[p].Block?)
    ensures Shaped(c, Next(c, s, Go(p))) && PartyOk(c, Next(c, s, Go(p)), p)
  {
    assert PartyOk(c, s, p) && PartyOk(c, s, 0);
    assert s.bar.calls[p] == Calls(s.pc[p], s.bar.inside[p]);
    assert s.bar.calls[0] == Calls(s.pc[0], s.bar.inside[0]);
  }

  lemma WaitFrame(c: Config, s: State, p: nat)
    requires Inv(c, s) && Enabled(c, s, Go(p)) && (AtBarrier(s.pc[p]) || s.pc[p].Block?)
    ensures Waited(c, s, Next(c, s, Go(p)), p)
  {
    assert PartyOk(c, s, p);
    if MayEnter(s.bar, p) { EnterSound(s.bar, p); } else { LeaveSound(s.bar, p); }
  }

  ghost predicate Waited(c: Config, s: State, t: State, p: nat) {
    && Shaped(c, s) && Shaped(c, t) && p < c.Parties()
    && t == s.(pc := t.pc, bar := t.bar, blocked := t.blocked) && t.pc == s.pc[p := t.pc[p]]
    && t.blocked == s.blocked[p := t.blocked[p]] && (!t.pc[p].Block? ==> t.blocked[p])
    && Sound(t.bar) && t.bar.needed == c.Parties()
    && t.bar.inside == s.bar.inside[p := t.bar.inside[p]] && t.bar.calls == s.bar.calls[p := t.bar.calls[p]]
    && t.bar.calls[p] == Calls(t.pc[p], t.bar.inside[p]) && (t.bar.inside[p] ==> AtBarrier(t.pc[p]))
  }

  lemma WaitInv(c: Config, s: State, t: State, p: nat)
    requires Inv(c, s) && Waited(c, s, t, p) && PartyOk(c, t, p)
    ensures Inv(c, t)
  {
    forall q | 0 <= q < c.Parties() ensures PartyOk(c, t, q) { assert PartyOk(c, s, q); }
  }

  lemma TurnParty(c: Config, s: State, st: Step)
    requires Inv(c, s) && Enabled(c, s, st) && !AtBarrier(s.pc[st.p]) && !s.pc[st.p].Block?
    ensures Shaped(c, Next(c, s, st)) && PartyOk(c, Next(c, s, st), st.p)
  {
    if s.pc[st.p].Kill? { KillParty(c, s, st.p); } else { CheckParty(c, s, st); }
  }

  lemma KillParty(c: Config, s: State, p: nat)
    requires Inv(c, s) && Enabled(c, s, Go(p)) && s.pc[p].Kill?
    ensures Shaped(c, Next(c, s, Go(p))) && PartyOk(c, Next(c, s, Go(p)), p)
  {
    assert PartyOk(c, s, p);
    ItsTurn(c, s, Go(p));
    TargetIsFree(c, s, p);
  }

  lemma CheckParty(c: Config, s: State, st: Step)
    requires Inv(c, s) && Enabled(c, s, st) && !AtBarrier(s.pc[st.p]) && !s.pc[st.p].Block? && !s.pc[st.p].Kill?
    ensures Shaped(c, Next(c, s, st)) && PartyOk(c, Next(c, s, st), st.p)
  {
    assert PartyOk(c, s, st.p);
    ItsTurn(c, s, st);
  }

  lemma TurnOther(c: Config, s: State, st: Step, q: nat)
    requires Inv(c, s) && Enabled(c, s, st) && !AtBarrier(s.pc[st.p]) && !s.pc[st.p].Block?
    requires q < c.Parties() && q != st.p
    ensures Shaped(c, Next(c, s, st)) && PartyOk(c, Next(c, s, st), q)
  {
    if s.pc[st.p].Kill? {
      KillOther(c, s, st.p, q);
    } else {
      assert PartyOk(c, s, st.p) && PartyOk(c, s, q);
      ItsTurn(c, s, st);
    }
  }

  /** A signal that is sent is left pending at its target and nowhere else. */
  lemma KillOther(c: Config, s: State, p: nat, q: nat)
    requires Inv(c, s) && Enabled(c, s, Go(p)) && s.pc[p].Kill? && q < c.Parties() && q != p
    ensures Shaped(c, Next(c, s, Go(p))) && PartyOk(c, Next(c, s, Go(p)), q)
  {
    assert PartyOk(c, s, p) && PartyOk(c, s, q);
    ItsTurn(c, s, Go(p));
    TargetIsFree(c, s, p);
  }

  ghost predicate Framed(c: Config, s: State, t: State, p: nat) {
    && p < |s.pc| == |t.pc| == |s.bar.inside| == |s.bar.calls|
    && t.bar == s.bar && t.pc == s.pc[p := t.pc[p]] && t.blocked == s.blocked
    && Calls(t.pc[p], s.bar.inside[p]) == s.bar.calls[p] && !s.bar.inside[p] && !t.pc[p].Block?
    && t.round <= c.Rounds() && t.pos <= c.Parties() && (t.round == c.Rounds() ==> t.pos == 0)
    && !t.handled && !t.merged
  }

  lemma TurnFrame(c: Config, s: State, st: Step)
    requires Inv(c, s) && Enabled(c, s, st) && !AtBarrier(s.pc[st.p]) && !s.pc[st.p].Block?
    ensures Framed(c, s, Next(c, s, st), st.p)
  {
    assert PartyOk(c, s, st.p);
    ItsTurn(c, s, st);
    if s.pc[st.p].Kill? { KillFrame(c, s, st.p); }
  }

  lemma KillFrame(c: Config, s: State, p: nat)
    requires Inv(c, s) && Enabled(c, s, Go(p)) && s.pc[p].Kill?
    ensures Framed(c, s, Next(c, s, Go(p)), p)
  {
    assert PartyOk(c, s, p);
    ItsTurn(c, s, Go(p));
    TargetIsFree(c, s, p);
  }

  lemma StepInv(c: Config, s: State, st: Step)
    requires Inv(c, s) && Enabled(c, s, st)
    ensures Inv(c, Next(c, s, st))
  {
    if AtBarrier(s.pc[st.p]) || s.pc[st.p].Block? {
      WaitTask(c, s, st.p);
      WaitFrame(c, s, st.p);
      WaitInv(c, s, Next(c, s, st), st.p);
    } else {
      forall q | 0 <= q < c.Parties() ensures PartyOk(c, Next(c, s, st), q) {
        if q == st.p { TurnParty(c, s, st); } else { TurnOther(c, s, st, q); }
      }
      TurnFrame(c, s, st);
    }
  }

  // ----- termination -----

  /** How many steps a party can take at most. */
  function StepsLeft(c: Config, p: nat, pc: PC, inside: bool): int {
    (if inside then -1 else 0) +
    match pc
    case Block => 6 * c.Rounds() + 8
    case AtStart => 6 * c.Rounds() + 7
    case SetSender(r) => 6 * (c.Rounds() - r) + if p == 0 then 5 else 2
    case Kill(r) => 6 * (c.Rounds() - r) + if p == 0 then 4 else 1
    case Await(r) => 6 * (c.Rounds() - r) + if p == 0 then 3 else 5
    case CheckSender(r, _) => 6 * (c.Rounds() - r) + if p == 0 then 2 else 3
    case CheckSignal(r, _) => 6 * (c.Rounds() - r) + if p == 0 then 1 else 4
    case AtEnd => 2
    case _ => 0
  }

  function Ranks(c: Config, s: State): (r: seq<int>)
    requires Shaped(c, s)
    ensures |r| == |s.pc|
  {
    seq(|s.pc|, p requires 0 <= p < |s.pc| => StepsLeft(c, p, s.pc[p], s.bar.inside[p]))
  }

  lemma RanksNonNegative(c: Config, s: State)
    requires Inv(c, s)
    ensures forall p :: 0 <= p < c.Parties() ==> Ranks(c, s)[p] >= 0
  {
    forall p | 0 <= p < c.Parties() ensures Ranks(c, s)[p] >= 0 { assert PartyOk(c, s, p); }
  }

  ghost function Rank(c: Config, s: State): (r: int)
    requires Inv(c, s)
    ensures r >= 0
  {
    RanksNonNegative(c, s);
    SumNonNegative(Ranks(c, s));
    Sum(Ranks(c, s))
  }

  ghost predicate Drops(c: Config, s: State, st: Step)
    requires Enabled(c, s, st)
  {
    var t, p := Next(c, s, st), st.p;
    && Shaped(c, t) && t.pc == s.pc[p := t.pc[p]] && t.bar.inside == s.bar.inside[p := t.bar.inside[p]]
    && StepsLeft(c, p, t.pc[p], t.bar.inside[p]) < StepsLeft(c, p, s.pc[p], s.bar.inside[p])
  }

  lemma OwnRankDrops(c: Config, s: State, st: Step)
    requires Inv(c, s) && Enabled(c, s, st)
    ensures Drops(c, s, st)
  {
    if AtBarrier(s.pc[st.p]) || s.pc[st.p].Block? { WaitDrops(c, s, st.p); } else { TurnDrops(c, s, st); }
  }

  lemma WaitDrops(c: Config, s: State, p: nat)
    requires Inv(c, s) && Enabled(c, s, Go(p)) && (AtBarrier(s.pc[p]) || s.pc[p].Block?)
    ensures Drops(c, s, Go(p))
  {
    assert PartyOk(c, s, p);
    WaitFrame(c, s, p);
  }

  lemma TurnDrops(c: Config, s: State, st: Step)
    requires Inv(c, s) && Enabled(c, s, st) && !AtBarrier(s.pc[st.p]) && !s.pc[st.p].Block?
    ensures Drops(c, s, st)
  {
    assert PartyOk(c, s, st.p);
    assert s.bar.inside == s.bar.inside[st.p := s.bar.inside[st.p]];
    ItsTurn(c, s, st);
    TurnFrame(c, s, st);
  }

  lemma RankDrops(c: Config, s: State, st: Step)
    requires Inv(c, s) && Enabled(c, s, st)
    ensures Inv(c, Next(c, s, st)) && Rank(c, Next(c, s, st)) < Rank(c, s)
  {
    StepInv(c, s, st);
    OwnRankDrops(c, s, st);
    SumDrops(Ranks(c, s), Ranks(c, Next(c, s, st)), st.p);
  }

  // ----- what the program promises -----

  lemma {:induction false} RunInv(c: Config, s: State, sts: seq<Step>)
    requires Inv(c, s) && Legal(c, s, sts)
    ensures Inv(c, Run(c, s, sts)) && |sts| <= Rank(c, s)
    decreases |sts|
  {
    if sts == [] {
    } else {
      RankDrops(c, s, sts[0]);
      RunInv(c, Next(c, s, sts[0]), sts[1..]);
    }
  }

  /** At most one signal is pending anywhere; it is the one of the round, and `pipid_sender`
      names the party before the one it is sent to. */
  lemma OneSignal(c: Config, s: State, p: nat, q: nat)
    requires Inv(c, s) && p < c.Parties() && q < c.Parties() && s.pending[p] != {}
    ensures s.pending[p] == {SignalOf(s.round)} && s.sender == PrevParty(c, p) && s.blocked[p]
    ensures q != p ==> s.pending[q] == {}
  {
    assert PartyOk(c, s, p) && PartyOk(c, s, q);
  }

  function Received(sts: seq<Step>, p: nat): seq<Signal> {
    if sts == [] then []
    else (if sts[0].Take? && sts[0].p == p then [sts[0].sig] else []) + Received(sts[1..], p)
  }

  /** The signals of rounds a to b - 1. */
  function Signals(a: nat, b: nat): seq<Signal>
    decreases b - a
  {
    if a >= b then [] else [SignalOf(a)] + Signals(a + 1, b)
  }

  /** How many rounds' signals a party has taken. */
  function Taken(c: Config, p: nat, pc: PC): nat {
    match pc
    case SetSender(r) => if p == 0 then r else r + 1
    case Kill(r) => if p == 0 then r else r + 1
    case Await(r) => r
    case CheckSender(r, _) => r + 1
    case CheckSignal(r, _) => r + 1
    case AtEnd => c.Rounds()
    case Done => c.Rounds()
    case _ => 0
  }

  lemma StepTakes(c: Config, s: State, st: Step, p: nat)
    requires Inv(c, s) && Enabled(c, s, st) && p < c.Parties()
    ensures |Next(c, s, st).pc| == c.Parties()
    ensures Taken(c, p, Next(c, s, st).pc[p]) == Taken(c, p, s.pc[p]) + if st.Take? && st.p == p then 1 else 0
    ensures st.Take? && st.p == p ==> st.sig == SignalOf(Taken(c, p, s.pc[p]))
  {
    if AtBarrier(s.pc[st.p]) || s.pc[st.p].Block? {
      WaitTakes(c, s, st.p, p);
    } else {
      TurnTakes(c, s, st);
      TurnFrame(c, s, st);
    }
  }

  lemma WaitTakes(c: Config, s: State, q: nat, p: nat)
    requires Inv(c, s) && Enabled(c, s, Go(q)) && (AtBarrier(s.pc[q]) || s.pc[q].Block?) && p < c.Parties()
    ensures var t := Next(c, s, Go(q)); |t.pc| == c.Parties() && Taken(c, p, t.pc[p]) == Taken(c, p, s.pc[p])
  {
  }

  lemma TurnTakes(c: Config, s: State, st: Step)
    requires Inv(c, s) && Enabled(c, s, st) && !AtBarrier(s.pc[st.p]) && !s.pc[st.p].Block?
    ensures var t, p := Next(c, s, st), st.p;
      && |t.pc| == c.Parties()
      && Taken(c, p, t.pc[p]) == Taken(c, p, s.pc[p]) + (if st.Take? then 1 else 0)
      && (st.Take? ==> st.sig == SignalOf(Taken(c, p, s.pc[p])))
  {
    assert PartyOk(c, s, st.p);
    ItsTurn(c, s, st);
    OwnTakes(c, s, st);
  }

  lemma OwnTakes(c: Config, s: State, st: Step)
    requires Enabled(c, s, st) && !AtBarrier(s.pc[st.p]) && !s.pc[st.p].Block? && PartyOk(c, s, st.p)
    requires s.round < c.Rounds() && s.pc[st.p].r == s.round
    ensures var t, p := Next(c, s, st), st.p;
      |t.pc| == c.Parties() && Taken(c, p, t.pc[p]) == Taken(c, p, s.pc[p]) + (if st.Take? then 1 else 0)
  {
    if s.pc[st.p].CheckSender? || s.pc[st.p].CheckSignal? {
      CheckTakes(c, s, st.p);
    } else {
      MoveTakes(c, s, st);
    }
  }

  lemma CheckTakes(c: Config, s: State, p: nat)
    requires Enabled(c, s, Go(p)) && (s.pc[p].CheckSender? || s.pc[p].CheckSignal?) && PartyOk(c, s, p)
    requires s.round < c.Rounds() && s.pc[p].r == s.round
    ensures var t := Next(c, s, Go(p)); |t.pc| == c.Parties() && Taken(c, p, t.pc[p]) == Taken(c, p, s.pc[p])
  {
  }

  lemma MoveTakes(c: Config, s: State, st: Step)
    requires Enabled(c, s, st) && (s.pc[st.p].SetSender? || s.pc[st.p].Kill? || s.pc[st.p].Await?)
    requires s.pc[st.p].r < c.Rounds()
    ensures var t, p := Next(c, s, st), st.p;
      |t.pc| == c.Parties() && Taken(c, p, t.pc[p]) == Taken(c, p, s.pc[p]) + (if st.Take? then 1 else 0)
  {
  }

  /** No signal is lost and none is taken twice or out of turn: a party receives the signals of
      all its rounds in order. */
  lemma {:induction false} RunReceives(c: Config, s: State, sts: seq<Step>, p: nat)
    requires Inv(c, s) && Legal(c, s, sts) && p < c.Parties()
    ensures var t := Run(c, s, sts);
      && |t.pc| == c.Parties() && Taken(c, p, s.pc[p]) <= Taken(c, p, t.pc[p])
      && Received(sts, p) == Signals(Taken(c, p, s.pc[p]), Taken(c, p, t.pc[p]))
    decreases |sts|
  {
    if sts == [] {
    } else {
      StepInv(c, s, sts[0]);
      StepTakes(c, s, sts[0], p);
      var t := Next(c, s, sts[0]);
      RunReceives(c, t, sts[1..], p);
      OneMore(sts, p, Taken(c, p, s.pc[p]), Taken(c, p, t.pc[p]), Taken(c, p, Run(c, s, sts).pc[p]));
    }
  }

  lemma OneMore(sts: seq<Step>, p: nat, a: nat, m: nat, b: nat)
    requires sts != [] && m <= b && m == a + if sts[0].Take? && sts[0].p == p then 1 else 0
    requires sts[0].Take? && sts[0].p == p ==> sts[0].sig == SignalOf(a)
    requires Received(sts[1..], p) == Signals(m, b)
    ensures Received(sts, p) == Signals(a, b)
  {
  }

  /** The ring never stops before everybody is through. */
  lemma NeverStuck(c: Config, s: State)
    requires Inv(c, s) && forall st :: !Enabled(c, s, st)
    ensures forall p :: 0 <= p < c.Parties() ==> s.pc[p].Done?
  {
    if s.round < c.Rounds() { RoundGoesOn(c, s); }
    var f := SomebodyFree(s.bar);
    assert PartyOk(c, s, f) && !Enabled(c, s, Go(f));
    assert s.pc[f].Done? && s.bar.calls[f] == Calls(s.pc[f], s.bar.inside[f]);
    forall p | 0 <= p < c.Parties() ensures s.pc[p].Done? {
      assert PartyOk(c, s, p) && !Enabled(c, s, Go(p)) && s.bar.calls[p] == Calls(s.pc[p], s.bar.inside[p]);
    }
  }

  lemma RoundGoesOn(c: Config, s: State)
    requires Inv(c, s) && s.round < c.Rounds()
    ensures exists st :: Enabled(c, s, st)
  {
    var h := if s.pos == c.Parties() then 0 else s.pos;
    assert PartyOk(c, s, h);
    if s.pc[h].Await? {
      assert Enabled(c, s, Take(h, SignalOf(s.round)));
    } else if s.pc[h].AtStart? && !Enabled(c, s, Go(h)) {
      Contract(s.bar, h);
      var q :| 0 <= q < c.Parties() && s.bar.calls[q] < s.bar.calls[h];
      assert s.bar.calls[q] == Calls(s.pc[q], s.bar.inside[q]) && s.bar.calls[h] == Calls(s.pc[h], s.bar.inside[h]);
      assert Enabled(c, s, Go(q));
    } else {
      assert Enabled(c, s, Go(h));
    }
  }

  lemma NeverFails(c: Config, s: State, p: nat)
    requires Inv(c, s) && p < c.Parties()
    ensures !s.pc[p].Failed?
  {
    assert PartyOk(c, s, p);
  }

  lemma {:induction false} SignalsAre(a: nat, b: nat)
    requires a <= b
    ensures |Signals(a, b)| == b - a
    ensures forall j :: 0 <= j < b - a ==> Signals(a, b)[j] == if (a + j) % 2 == 0 then Usr1 else Usr2
    decreases b - a
  {
    if a == b {
    } else {
      SignalsAre(a + 1, b);
      forall j | 0 <= j < b - a ensures Signals(a, b)[j] == if (a + j) % 2 == 0 then Usr1 else Usr2 {
        if j > 0 { assert Signals(a, b)[j] == Signals(a + 1, b)[j - 1]; }
      }
    }
  }

  /** SIGUSR1 and SIGUSR2 in turn, niters times each */
  predicate Alternating(c: Config, received: seq<Signal>) {
    && |received| == 2 * c.niters
    && forall j :: 0 <= j < c.niters ==> received[2 * j] == Usr1 && received[2 * j + 1] == Usr2
  }

  lemma ReceivesAll(c: Config, s: State, sts: seq<Step>, p: nat)
    requires Inv(c, s) && Legal(c, s, sts) && p < c.Parties() && s.pc[p].Block?
    ensures p < |Run(c, s, sts).pc| && (Run(c, s, sts).pc[p].Done? ==> Alternating(c, Received(sts, p)))
  {
    RunReceives(c, s, sts, p);
    if Run(c, s, sts).pc[p].Done? { AllAlternate(c); }
  }

  lemma AllAlternate(c: Config)
    ensures Alternating(c, Signals(0, 2 * c.niters))
  {
    SignalsAre(0, 2 * c.niters);
  }

  /** The main result: for every number of tasks and iterations and in every interleaving, no
      CHECK fails, no signal is lost in another or reaches the handler, and a party that is
      through has received SIGUSR1 and SIGUSR2 in turn, niters times each. */
  lemma EveryRun(c: Config, s: State, sts: seq<Step>)
    requires Initial(c, s) && Legal(c, s, sts)
    ensures Inv(c, s) && |sts| <= Rank(c, s)
    ensures var t := Run(c, s, sts);
      Shaped(c, t) && !t.handled && !t.merged && forall p :: 0 <= p < c.Parties() ==> !t.pc[p].Failed?
    ensures var t := Run(c, s, sts);
      forall p :: 0 <= p < c.Parties() && t.pc[p].Done? ==> Alternating(c, Received(sts, p))
  {
    InitialInv(c, s);
    RunInv(c, s, sts);
    forall p | 0 <= p < c.Parties() ensures !Run(c, s, sts).pc[p].Failed? { NeverFails(c, Run(c, s, sts), p); }
    forall p | 0 <= p < c.Parties() && Run(c, s, sts).pc[p].Done?
      ensures Alternating(c, Received(sts, p))
    {
      ReceivesAll(c, s, sts, p);
    }
  }
}
