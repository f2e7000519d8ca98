/** basics/pip_kill.c with the shared sender, the masks and the pending sets updated in place. */
module SignalRingProgram {
  import opened CyclicBarrier
  import opened R = SignalRing

  class Program {
    const c: Config
    const pc: array<PC>
    const blocked: array<bool>
    const pending: array<set<Signal>>
    var bar: Barrier
    var sender: nat
    var handled: bool
    ghost var merged: bool
    ghost var round: nat
    ghost var pos: nat

    ghost function View(): State
      reads this, pc, blocked, pending
    {
      State(bar, pc[..], blocked[..], pending[..], sender, handled, merged, round, pos)
    }

    ghost predicate Valid()
      reads this, pc, blocked, pending
    {
      Inv(c, View())
    }

    constructor (c: Config)
      requires c.nt > 0
      ensures Valid() && this.c == c && Initial(c, View())
      ensures fresh(pc) && fresh(blocked) && fresh(pending)
    {
      this.c := c;
      pc := new PC[c.Parties()](_ => Block);
      blocked := new bool[c.Parties()](_ => false);
      pending := new set<Signal>[c.Parties()](_ => {});
      bar := CyclicBarrier.Fresh(c.Parties(), c.Parties());
      sender, handled, merged, round, pos := 0, false, false, 0, 0;
      new;
      InitialInv(c, View());
    }

    method CanExecute(st: Step) returns (r: bool)
      requires Valid()
      ensures r == Enabled(c, View(), st)
    {
      r := Enabled(c, State(bar, pc[..], blocked[..], pending[..], sender, handled, false, 0, 0), st);
    }

    method Execute(st: Step)
      requires Valid() && Enabled(c, View(), st)
      modifies this, pc, blocked, pending
      ensures Valid() && View() == Next(c, old(View()), st)
    {
      ghost var before := View();
      var p := st.p;
      if pc[p].Block? || AtBarrier(pc[p]) {
        WaitStep(p);
      } else if pc[p].Kill? {
        Send(p);
      } else if st.Take? {
        pending[p] := pending[p] - {st.sig};
        pc[p] := if p == 0 then CheckSender(pc[p].r, st.sig) else CheckSignal(pc[p].r, st.sig);
      } else {
        CheckStep(p);
      }
      StepInv(c, before, st);
    }

    method WaitStep(p: nat)
      requires Valid() && Enabled(c, View(), Go(p)) && (AtBarrier(pc[p]) || pc[p].Block?)
      modifies this, pc, blocked
      ensures View() == Next(c, old(View()), Go(p))
    {
      if pc[p].Block? {
        blocked[p], pc[p] := true, AtStart;
      } else if MayEnter(bar, p) {
        bar := Enter(bar, p);
      } else {
        bar := Leave(bar, p);
        pc[p] := if pc[p].AtStart? then Loop(c, p, 0) else Done;
      }
    }

    /** pip_kill: the signal is left pending if it is blocked, and else run by the handler. */
    method Send(p: nat)
      requires Valid() && Enabled(c, View(), Go(p)) && pc[p].Kill?
      modifies this, pc, pending
      ensures View() == Next(c, old(View()), Go(p))
    {
      var r, q := pc[p].r, NextParty(c, p);
      var sig := SignalOf(r);
      handled := handled || !blocked[q];
      if blocked[q] {
        merged := merged || sig in pending[q];
        pending[q] := pending[q] + {sig};
      }
      pc[p], pos := if p == 0 then Await(r) else Loop(c, p, r + 1), pos + 1;
    }

    method CheckStep(p: nat)
      requires Valid() && Enabled(c, View(), Go(p)) && (pc[p].SetSender? || pc[p].CheckSender? || pc[p].CheckSignal?)
      modifies this, pc
      ensures View() == Next(c, old(View()), Go(p))
    {
      match pc[p] {
        case SetSender(r) =>
          sender, pc[p] := p, Kill(r);
        case CheckSender(r, sig) =>
          pc[p] := if sender != PrevParty(c, p) then Failed else if p == 0 then CheckSignal(r, sig) else SetSender(r);
        case CheckSignal(r, sig) =>
          var ok := sig == SignalOf(r);
          if ok && p == 0 { round, pos := r + 1, 0; }
          pc[p] := if !ok then Failed else if p == 0 then Loop(c, p, r + 1) else CheckSender(r, sig);
      }
    }
  }

  /** The ring under any schedule: no CHECK fails, no signal is lost or reaches the handler, at
      most one is pending, and a party that is done has received those of all rounds in order. */
  method RunRing(c: Config, schedule: seq<Step>) returns (p: Program, ghost taken: seq<Step>)
    requires c.nt > 0
    ensures p.Valid() && p.c == c && !p.handled && !p.merged
    ensures forall t :: 0 <= t < c.Parties() ==> !p.pc[t].Failed?
    ensures forall t, u :: 0 <= t < u < c.Parties() && p.pending[t] != {} ==> p.pending[u] == {}
    ensures forall t :: 0 <= t < c.Parties() && p.pc[t].Done? ==> Alternating(c, Received(taken, t))
  {
    p := new Program(c);
    ghost var start := p.View();
    taken := [];
    for i := 0 to |schedule|
      invariant p.Valid() && p.c == c && fresh(p) && fresh(p.pc) && fresh(p.blocked) && fresh(p.pending)
      invariant Legal(c, start, taken) && p.View() == Run(c, start, taken)
    {
      var possible := p.CanExecute(schedule[i]);
      if possible {
        RunExtends(c, start, taken, schedule[i]);
        p.Execute(schedule[i]);
        taken := taken + [schedule[i]];
      }
    }
    R.EveryRun(c, start, taken);
    forall t, u | 0 <= t < u < c.Parties() && p.pending[t] != {} ensures p.pending[u] == {} {
      OneSignal(c, p.View(), t, u);
    }
  }

  lemma {:induction false} RunExtends(c: Config, s: State, sts: seq<Step>, st: Step)
    requires Legal(c, s, sts) && Enabled(c, Run(c, s, sts), st)
    ensures Legal(c, s, sts + [st]) && Run(c, s, sts + [st]) == Next(c, Run(c, s, sts), st)
    decreases |sts|
  {
    if sts == [] {
      assert [st][1..] == [] && Run(c, s, [st]) == Run(c, Next(c, s, st), []);
    } else {
      assert (sts + [st])[0] == sts[0] && (sts + [st])[1..] == sts[1..] + [st];
      RunExtends(c, Next(c, s, sts[0]), sts[1..], st);
    }
  }
}
