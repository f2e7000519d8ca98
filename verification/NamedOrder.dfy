/**
 The exports of basics/pip_namexp.c one by one: in which order the tasks export which names in a
 whole run, and which steps of its loop a task takes.
 */
module NamedOrder {
  import opened NamedRing
  import opened Sequences

  // ----- the exports of a run -----

  /** What a step exports that was not exported before. */
  function Newly(c: Config, s: State, p: nat): seq<set<Name>>
    requires Enabled(c, s, p)
  {
    var t := Next(c, s, p);
    if t.names.Keys != s.names.Keys then [t.names.Keys - s.names.Keys] else []
  }

  function Exports(c: Config, s: State, ps: seq<nat>): seq<set<Name>>
    requires Legal(c, s, ps)
    decreases |ps|
  {
    if ps == [] then [] else Newly(c, s, ps[0]) + Exports(c, Next(c, s, ps[0]), ps[1..])
  }

  /** The number of the first export of sweep t. */
  function First(c: Config, t: nat): nat { if t == 0 then 0 else First(c, t - 1) + c.nt }

  lemma {:induction false} FirstIs(c: Config, t: nat)
    ensures First(c, t) == t * c.nt
  {
    if t == 0 {
    } else {
      FirstIs(c, t - 1);
      assert t * c.nt == (t - 1) * c.nt + c.nt;
    }
  }

  lemma {:induction false} FirstGrows(c: Config, a: nat, b: nat)
    requires a < b
    ensures First(c, a) + c.nt <= First(c, b)
  {
    if a < b - 1 { FirstGrows(c, a, b - 1); }
  }

  /** The k-th export of sweep t: forward tasks 0, 1, ..., nt-1, and backward 0, nt-1, ..., 1. */
  function Expected(c: Config, t: nat, k: nat): set<Name>
    requires k < c.nt
  {
    {Name(if k == 0 || t % 2 == 0 then k else c.nt - k, t % 2 == 1, t / 2)}
  }

  ghost predicate InOrder(c: Config, es: seq<set<Name>>) {
    forall t: nat, k: nat {:trigger Expected(c, t, k)} ::
      k < c.nt && First(c, t) + k < |es| ==> es[First(c, t) + k] == Expected(c, t, k)
  }

  function SoFar(c: Config, s: State): nat { First(c, s.sweep) + s.pos }

  lemma StepCounts(c: Config, s: State, p: nat)
    requires Inv(c, s) && Enabled(c, s, p)
    ensures Inv(c, Next(c, s, p))
    ensures SoFar(c, Next(c, s, p)) == SoFar(c, s) + if s.pc[p].Export? then 1 else 0
  {
    StepInv(c, s, p);
    assert TaskOk(c, s, p);
    if !AtBarrier(s.pc[p]) { ItsTurn(c, s, p); }
  }

  lemma ExportsExpected(c: Config, s: State, p: nat)
    requires Inv(c, s) && Enabled(c, s, p) && s.pc[p].Export?
    ensures s.pos < c.nt && Next(c, s, p).names.Keys - s.names.Keys == Expected(c, s.sweep, s.pos)
    ensures Next(c, s, p).names.Keys != s.names.Keys
  {
    assert TaskOk(c, s, p);
    ItsTurn(c, s, p);
    var name := NameOf(p, s.sweep);
    assert name !in s.names;
    assert Next(c, s, p).names.Keys == s.names.Keys + {name};
    assert name in Next(c, s, p).names.Keys;
  }

  lemma OnlyExports(c: Config, s: State, p: nat)
    requires Inv(c, s) && Enabled(c, s, p) && !s.pc[p].Export?
    ensures Next(c, s, p).names == s.names
  {
  }

  lemma OneMoreInOrder(c: Config, es: seq<set<Name>>, t: nat, k: nat, e: set<Name>)
    requires InOrder(c, es) && k < c.nt && |es| == First(c, t) + k && e == Expected(c, t, k)
    ensures InOrder(c, es + [e])
  {
    var us := es + [e];
    forall a: nat, b: nat | b < c.nt && First(c, a) + b < |us| ensures us[First(c, a) + b] == Expected(c, a, b) {
      if First(c, a) + b == |es| {
        if a < t { FirstGrows(c, a, t); }
        if t < a { FirstGrows(c, t, a); }
      }
    }
  }

  lemma StepInOrder(c: Config, s: State, p: nat, es: seq<set<Name>>)
    requires Inv(c, s) && Enabled(c, s, p) && InOrder(c, es) && |es| == SoFar(c, s)
    ensures InOrder(c, es + Newly(c, s, p)) && |Newly(c, s, p)| == if s.pc[p].Export? then 1 else 0
  {
    NothingMore(es);
    if s.pc[p].Export? {
      ExportsExpected(c, s, p);
      OneMoreInOrder(c, es, s.sweep, s.pos, Expected(c, s.sweep, s.pos));
    } else {
      OnlyExports(c, s, p);
    }
  }

  lemma {:induction false} RunInOrder(c: Config, s: State, ps: seq<nat>, es: seq<set<Name>>)
    requires Inv(c, s) && Legal(c, s, ps) && InOrder(c, es) && |es| == SoFar(c, s)
    ensures InOrder(c, es + Exports(c, s, ps)) && |es + Exports(c, s, ps)| == SoFar(c, Run(c, s, ps))
    decreases |ps|
  {
    if ps == [] {
      NothingMore(es);
    } else {
      StepCounts(c, s, ps[0]);
      StepInOrder(c, s, ps[0], es);
      RunInOrder(c, Next(c, s, ps[0]), ps[1..], es + Newly(c, s, ps[0]));
      Associates(es, Newly(c, s, ps[0]), Exports(c, Next(c, s, ps[0]), ps[1..]));
    }
  }

  /** The main result on the order: in every run export number t * nt + k is of one name, that of
      task k in a forward sweep, and in a backward sweep that of task 0 first and of task nt - k
      after it; sweep t is the forward one of iteration t / 2 if t is even and the backward one if
      it is odd. When all are done there have been 2 * niters * nt exports. */
  lemma ExportedInOrder(c: Config, s: State, ps: seq<nat>, t: nat, k: nat)
    requires Initial(c, s) && Legal(c, s, ps) && k < c.nt
    ensures var es := Exports(c, s, ps);
      t * c.nt + k < |es| ==>
        es[t * c.nt + k] == {Name(if k == 0 || t % 2 == 0 then k else c.nt - k, t % 2 == 1, t / 2)}
    ensures var u := Run(c, s, ps);
      Shaped(c, u) && (u.pc[0].Done? ==> |Exports(c, s, ps)| == 2 * c.niters * c.nt)
  {
    InitialInv(c, s);
    AllInOrder(c, s, ps);
    FirstIs(c, t);
    EntryIs(c, Exports(c, s, ps), t, k);
    RunInv(c, s, ps);
    if Run(c, s, ps).pc[0].Done? { EndsAfterAll(c, Run(c, s, ps)); }
  }

  lemma AllInOrder(c: Config, s: State, ps: seq<nat>)
    requires Inv(c, s) && Legal(c, s, ps) && s.sweep == s.pos == 0
    ensures InOrder(c, Exports(c, s, ps)) && |Exports(c, s, ps)| == SoFar(c, Run(c, s, ps))
  {
    RunInOrder(c, s, ps, []);
    NothingMore(Exports(c, s, ps));
  }

  lemma EntryIs(c: Config, es: seq<set<Name>>, t: nat, k: nat)
    requires InOrder(c, es) && k < c.nt
    ensures First(c, t) + k < |es| ==>
      es[First(c, t) + k] == {Name(if k == 0 || t % 2 == 0 then k else c.nt - k, t % 2 == 1, t / 2)}
  {
    assert First(c, t) + k < |es| ==> es[First(c, t) + k] == Expected(c, t, k);
  }

  lemma EndsAfterAll(c: Config, s: State)
    requires Inv(c, s) && s.pc[0].Done?
    ensures SoFar(c, s) == 2 * c.niters * c.nt
  {
    assert TaskOk(c, s, 0);
    FirstIs(c, 2 * c.niters);
  }

  // ----- the steps of a task's loop -----

  predicate InLoop(pc: PC) { !AtBarrier(pc) && !pc.Done? && !pc.Failed? }

  function Part(s: State, q: nat, p: nat): seq<PC>
    requires p < |s.pc|
  {
    if q == p && InLoop(s.pc[p]) then [s.pc[p]] else []
  }

  lemma StepLength(c: Config, s: State, p: nat)
    requires Enabled(c, s, p)
    ensures |Next(c, s, p).pc| == |s.pc|
  {
  }

  /** What task p does in its loop in a run: the points that it goes on from. */
  function Work(c: Config, s: State, ps: seq<nat>, p: nat): seq<PC>
    requires Legal(c, s, ps) && p < |s.pc|
    decreases |ps|
  {
    if ps == [] then []
    else
      StepLength(c, s, ps[0]);
      Part(s, ps[0], p) + Work(c, Next(c, s, ps[0]), ps[1..], p)
  }

  /** How many steps a sweep takes: task 0 sends the pointer out and checks it when it is back, the
      others take it, add 1 to what it points to, and pass it on. */
  function Parts(p: nat): nat { if p == 0 then 5 else 4 }

  predicate IsPart(p: nat, pc: PC, part: nat) {
    match part
    case 0 => if p == 0 then pc.Reset? else pc.Import?
    case 1 => if p == 0 then pc.Export? else pc.Load?
    case 2 => if p == 0 then pc.Import? else pc.Store?
    case 3 => if p == 0 then pc.ComparePointer? else pc.Export?
    case 4 => p == 0 && pc.CompareCount?
    case _ => false
  }

  predicate EntryOk(p: nat, w: seq<PC>, j: nat)
    requires j < |w|
  {
    InLoop(w[j]) && IsPart(p, w[j], j % Parts(p)) && w[j].t == j / Parts(p)
  }

  function Progress(c: Config, p: nat, pc: PC): int {
    match pc
    case Reset(t) => 5 * t
    case Export(t) => if p == 0 then 5 * t + 1 else 4 * t + 3
    case Import(t) => if p == 0 then 5 * t + 2 else 4 * t
    case ComparePointer(t) => 5 * t + 3
    case CompareCount(t) => 5 * t + 4
    case Load(t) => 4 * t + 1
    case Store(t, _) => 4 * t + 2
    case AtStart => 0
    case _ => Parts(p) * (2 * c.niters)
  }

  ghost predicate Tally(c: Config, s: State, p: nat, w: seq<PC>)
    requires p < |s.pc|
  {
    |w| == Progress(c, p, s.pc[p]) && forall j :: 0 <= j < |w| ==> EntryOk(p, w, j)
  }

  lemma OwnProgress(c: Config, s: State, p: nat)
    requires Inv(c, s) && Enabled(c, s, p) && InLoop(s.pc[p])
    ensures Proceeds(c, s, p)
  {
    StepInv(c, s, p);
    assert TaskOk(c, s, p) && TaskOk(c, Next(c, s, p), p);
    ItsTurn(c, s, p);
    LeanProgress(c, s, p);
  }

  ghost predicate Proceeds(c: Config, s: State, p: nat)
    requires Enabled(c, s, p) && InLoop(s.pc[p])
  {
    var t, pc := Next(c, s, p), s.pc[p];
    && |t.pc| == |s.pc| && Progress(c, p, t.pc[p]) == Progress(c, p, pc) + 1
    && Parts(p) * pc.t <= Progress(c, p, pc) < Parts(p) * pc.t + Parts(p)
    && IsPart(p, pc, Progress(c, p, pc) - Parts(p) * pc.t)
  }

  /** Task 0 and the others have each their own steps. */
  predicate Fits(p: nat, pc: PC) {
    && (pc.Reset? || pc.ComparePointer? || pc.CompareCount? ==> p == 0) && (pc.Load? || pc.Store? ==> p > 0)
  }

  lemma LeanProgress(c: Config, s: State, p: nat)
    requires Enabled(c, s, p) && InLoop(s.pc[p]) && Fits(p, s.pc[p]) && s.pc[p].t < 2 * c.niters
    requires |Next(c, s, p).pc| == |s.pc| && !Next(c, s, p).pc[p].Failed?
    ensures Proceeds(c, s, p)
  {
  }

  lemma OtherProgress(c: Config, s: State, q: nat, p: nat)
    requires Inv(c, s) && Enabled(c, s, q) && p < c.nt && (q != p || !InLoop(s.pc[p]))
    ensures |Next(c, s, q).pc| == |s.pc| && Progress(c, p, Next(c, s, q).pc[p]) == Progress(c, p, s.pc[p])
  {
  }

  lemma OneMorePart(p: nat, w: seq<PC>, pc: PC)
    requires InLoop(pc) && Parts(p) * pc.t <= |w| < Parts(p) * pc.t + Parts(p) && IsPart(p, pc, |w| - Parts(p) * pc.t)
    requires forall j :: 0 <= j < |w| ==> EntryOk(p, w, j)
    ensures forall j :: 0 <= j < |w| + 1 ==> EntryOk(p, w + [pc], j)
  {
    forall j | 0 <= j < |w| + 1 ensures EntryOk(p, w + [pc], j) { if j < |w| { assert EntryOk(p, w, j); } }
  }

  lemma TallyStep(c: Config, s: State, q: nat, p: nat, w: seq<PC>)
    requires Inv(c, s) && Enabled(c, s, q) && p < c.nt && Tally(c, s, p, w)
    ensures |Next(c, s, q).pc| == |s.pc| && Tally(c, Next(c, s, q), p, w + Part(s, q, p))
  {
    if q == p && InLoop(s.pc[p]) {
      OwnProgress(c, s, p);
      OneMorePart(p, w, s.pc[p]);
    } else {
      NothingMore(w);
      OtherProgress(c, s, q, p);
    }
  }

  lemma {:induction false} TallyRun(c: Config, s: State, ps: seq<nat>, p: nat, w: seq<PC>)
    requires Inv(c, s) && Legal(c, s, ps) && p < c.nt && Tally(c, s, p, w)
    ensures Shaped(c, Run(c, s, ps)) && Tally(c, Run(c, s, ps), p, w + Work(c, s, ps, p))
    decreases |ps|
  {
    if ps == [] {
      NothingMore(w);
    } else {
      StepInv(c, s, ps[0]);
      TallyStep(c, s, ps[0], p, w);
      TallyRun(c, Next(c, s, ps[0]), ps[1..], p, w + Part(s, ps[0], p));
      Associates(w, Part(s, ps[0], p), Work(c, Next(c, s, ps[0]), ps[1..], p));
    }
  }

  /** In every run a task takes the steps of its loop in the order of the program, task 0 with both
      checks in every sweep; and when it is done it has taken all of them, for all sweeps. */
  lemma EveryTaskWorks(c: Config, s: State, ps: seq<nat>, p: nat)
    requires Initial(c, s) && Legal(c, s, ps) && p < c.nt
    ensures forall j :: 0 <= j < |Work(c, s, ps, p)| ==> EntryOk(p, Work(c, s, ps, p), j)
    ensures var t := Run(c, s, ps);
      Shaped(c, t) && (t.pc[p].Done? ==> |Work(c, s, ps, p)| == (if p == 0 then 5 else 4) * (2 * c.niters))
  {
    InitialInv(c, s);
    TallyRun(c, s, ps, p, []);
    NothingMore(Work(c, s, ps, p));
  }

  /** A load and the store behind it add 1 to whatever the pointer leads to. */
  lemma AddsOne(c: Config, s: State, p: nat)
    requires Enabled(c, s, p) && s.pc[p].Load?
    ensures var t := Next(c, s, p);
      Enabled(c, t, p) && Next(c, t, p).count == s.count[s.countp[p] := s.count[s.countp[p]] + 1]
  {
  }

  /** Another pointer, another count and a name exported before are noticed in any state. */
  lemma WrongIsNoticed(c: Config, s: State, p: nat)
    requires Enabled(c, s, p) && (s.pc[p].ComparePointer? || s.pc[p].CompareCount? || s.pc[p].Export?)
    ensures |Next(c, s, p).pc| == c.nt
    ensures Next(c, s, p).pc[p].Failed? <==>
      match s.pc[p]
      case ComparePointer(_) => s.cp != s.countp[p]
      case CompareCount(_) => s.count[s.cp] != c.nt
      case Export(t) => Name(p, t % 2 == 1, t / 2) in s.names
      case _ => false
  {
  }
}
