/**
 What the threads of porting/spinlock.c do in a run: every one of them races niters times, and
 then counts niters times up and down with the lock, each step in its place.
 */
module LockedWork {
  import opened LockedCount
  import opened Sequences

  /** A step of one of the two loops, a trylock only if it succeeds. */
  predicate Works(s: State, pc: PC) { Races(pc) || (Locks(pc) && (pc.Try? ==> s.lock == -1)) }

  function Part(s: State, q: nat, p: nat): seq<PC>
    requires p < |s.pc|
  {
    if q == p && Works(s, s.pc[p]) then [s.pc[p]] else []
  }

  lemma StepShaped(c: Config, s: State, p: nat)
    requires Enabled(c, s, p)
    ensures Shaped(c, Next(c, s, p))
  {
  }

  /** What thread p does in its two loops in a run: the points that it goes on from. */
  function Work(c: Config, s: State, ps: seq<nat>, p: nat): seq<PC>
    requires Legal(c, s, ps) && Shaped(c, s) && p < c.nt
    decreases |ps|
  {
    if ps == [] then []
    else
      StepShaped(c, s, ps[0]);
      Part(s, ps[0], p) + Work(c, Next(c, s, ps[0]), ps[1..], p)
  }

  /** The parts of an iteration of the first loop ... */
  predicate IsRacePart(pc: PC, part: nat) {
    match part
    case 0 => pc.Racing? && pc.add
    case 1 => pc.RacingStore? && pc.add
    case 2 => pc.Racing? && !pc.add
    case 3 => pc.RacingStore? && !pc.add
    case _ => false
  }

  /** ... and of the second. */
  predicate IsLockPart(pc: PC, part: nat) {
    match part
    case 0 => pc.Try? && pc.add
    case 1 => pc.Load? && pc.add
    case 2 => pc.Store? && pc.add
    case 3 => pc.Unlock? && pc.add
    case 4 => pc.Try? && !pc.add
    case 5 => pc.Load? && !pc.add
    case 6 => pc.Store? && !pc.add
    case 7 => pc.Unlock? && !pc.add
    case _ => false
  }

  /** All iterations of the first loop come first, and then those of the second. */
  predicate EntryOk(c: Config, w: seq<PC>, j: nat)
    requires j < |w|
  {
    if j < 4 * c.niters then IsRacePart(w[j], j % 4) && w[j].i == j / 4
    else var k := j - 4 * c.niters; IsLockPart(w[j], k % 8) && w[j].i == k / 8
  }

  /** How many steps of its loops a thread has taken when it stands at `pc`. */
  function Done(c: Config, pc: PC): int {
    match pc
    case Wait(k) => if k == 0 then 0 else if k <= 2 then 4 * c.niters else 12 * c.niters
    case Racing(i, add) => 4 * i + if add then 0 else 2
    case RacingStore(i, add, _) => 4 * i + if add then 1 else 3
    case Try(i, add) => 4 * c.niters + 8 * i + if add then 0 else 4
    case Load(i, add) => 4 * c.niters + 8 * i + if add then 1 else 5
    case Store(i, add, _) => 4 * c.niters + 8 * i + if add then 2 else 6
    case Unlock(i, add) => 4 * c.niters + 8 * i + if add then 3 else 7
    case _ => 12 * c.niters
  }

  ghost predicate Tally(c: Config, s: State, p: nat, w: seq<PC>)
    requires p < |s.pc|
  {
    |w| == Done(c, s.pc[p]) && forall j :: 0 <= j < |w| ==> EntryOk(c, w, j)
  }

  /** Each step of the two loops is the next one due. */
  lemma OwnPart(c: Config, s: State, p: nat)
    requires Enabled(c, s, p) && p < c.nt && Works(s, s.pc[p]) && PartyOk(c, s, p)
    ensures var t, pc, done := Next(c, s, p), s.pc[p], Done(c, s.pc[p]);
      && Shaped(c, t) && Done(c, t.pc[p]) == done + 1
      && if Races(pc) then 0 <= done - 4 * pc.i < 4 && done < 4 * c.niters && IsRacePart(pc, done - 4 * pc.i)
         else var k := done - 4 * c.niters; 0 <= k - 8 * pc.i < 8 && IsLockPart(pc, k - 8 * pc.i)
  {
  }

  lemma OtherPart(c: Config, s: State, q: nat, p: nat)
    requires Enabled(c, s, q) && p < c.nt && PartyOk(c, s, p) && (q != p || !Works(s, s.pc[p]))
    ensures Shaped(c, Next(c, s, q)) && Done(c, Next(c, s, q).pc[p]) == Done(c, s.pc[p])
  {
  }

  lemma OneMorePart(c: Config, w: seq<PC>, pc: PC)
    requires forall j :: 0 <= j < |w| ==> EntryOk(c, w, j)
    requires if Races(pc) then 0 <= |w| - 4 * pc.i < 4 && |w| < 4 * c.niters && IsRacePart(pc, |w| - 4 * pc.i)
             else Locks(pc) && var k := |w| - 4 * c.niters; 0 <= k - 8 * pc.i < 8 && IsLockPart(pc, k - 8 * pc.i)
    ensures forall j :: 0 <= j < |w| + 1 ==> EntryOk(c, w + [pc], j)
  {
    forall j | 0 <= j < |w| + 1 ensures EntryOk(c, w + [pc], j) { if j < |w| { assert EntryOk(c, w, j); } }
  }

  lemma TallyStep(c: Config, s: State, q: nat, p: nat, w: seq<PC>)
    requires Inv(c, s) && Enabled(c, s, q) && p < c.nt && Tally(c, s, p, w)
    ensures Shaped(c, Next(c, s, q)) && Tally(c, Next(c, s, q), p, w + Part(s, q, p))
  {
    assert PartyOk(c, s, p);
    if q == p && Works(s, s.pc[p]) {
      OwnPart(c, s, p);
      OneMorePart(c, w, s.pc[p]);
    } else {
      NothingMore(w);
      OtherPart(c, s, q, p);
    }
  }

  lemma {:induction false} TallyRun(c: Config, s: State, ps: seq<nat>, p: nat, w: seq<PC>)
    requires Inv(c, s) && Legal(c, s, ps) && p < c.nt && Tally(c, s, p, w)
    ensures Shaped(c, Run(c, s, ps)) && Tally(c, Run(c, s, ps), p, w + Work(c, s, ps, p))
    decreases |ps|
  {
    if ps == [] {
      NothingMore(w);
    } else {
      StepInv(c, s, ps[0]);
      TallyStep(c, s, ps[0], p, w);
      TallyRun(c, Next(c, s, ps[0]), ps[1..], p, w + Part(s, ps[0], p));
      Associates(w, Part(s, ps[0], p), Work(c, Next(c, s, ps[0]), ps[1..], p));
    }
  }

  /** In every run each thread takes the steps of its loops in the order in which they stand in the
      program; and when it is done, or main has come to its last check, it has taken all of them. */
  lemma EveryThreadWorks(c: Config, s: State, ps: seq<nat>, p: nat)
    requires Initial(c, s) && Legal(c, s, ps) && p < c.nt
    ensures forall j :: 0 <= j < |Work(c, s, ps, p)| ==> EntryOk(c, Work(c, s, ps, p), j)
    ensures var t := Run(c, s, ps);
      && Shaped(c, t)
      && (t.pc[p].Done? || t.pc[c.nt].Join? || t.pc[c.nt].Done? ==> |Work(c, s, ps, p)| == 12 * c.niters)
      && (t.pc[p].Done? ==> t.bar.calls[p] == c.nt + 4)
  {
    InitialInv(c, s);
    TallyRun(c, s, ps, p, []);
    RunInv(c, s, ps);
    NothingMore(Work(c, s, ps, p));
    var t := Run(c, s, ps);
    assert PartyOk(c, t, p) && PartyOk(c, t, c.nt);
    if t.pc[c.nt].Join? || t.pc[c.nt].Done? { Together(c, t, c.nt, p); }
  }

  /** Main gets past its joins only when all threads are done. */
  ghost predicate MainIsLast(c: Config, s: State) {
    Shaped(c, s) && (s.pc[c.nt].Done? || s.pc[c.nt].Failed? ==> forall q :: 0 <= q < c.nt ==> s.pc[q].Done?)
  }

  lemma {:induction false} MainStaysLast(c: Config, s: State, ps: seq<nat>)
    requires MainIsLast(c, s) && Legal(c, s, ps)
    ensures MainIsLast(c, Run(c, s, ps))
    decreases |ps|
  {
    if ps == [] {
    } else {
      MainStaysLast(c, Next(c, s, ps[0]), ps[1..]);
    }
  }

  lemma MainJoinsAll(c: Config, s: State, ps: seq<nat>)
    requires Initial(c, s) && Legal(c, s, ps)
    ensures var t := Run(c, s, ps); Shaped(c, t) && (t.pc[c.nt].Done? ==> forall q :: 0 <= q < c.nt ==> t.pc[q].Done?)
  {
    MainStaysLast(c, s, ps);
  }

  /** What one race step pair of thread id adds or takes away: id + 10, if nobody else stores between
      its load and its store. */
  lemma RaceAdds(c: Config, s: State, id: nat)
    requires Enabled(c, s, id) && s.pc[id].Racing?
    ensures var t := Next(c, s, id);
      Enabled(c, t, id) && Next(c, t, id).count == s.count + if s.pc[id].add then id + 10 else -(id + 10)
  {
  }

  // ----- main's last check -----

  predicate ThreadsDoNotRead(c: Config, s: State) {
    Shaped(c, s) && forall p :: 0 <= p < c.nt ==> !s.pc[p].ReadCount?
  }

  /** Main has read the counter and found it to be `v`. */
  predicate HasRead(c: Config, s: State, v: int)
    requires Shaped(c, s)
  {
    match s.pc[c.nt]
    case Wait(k) => k >= 4 && s.seen == v
    case Join => s.seen == v
    case Done => v == 0
    case Failed => v != 0
    case _ => false
  }

  lemma {:induction false} ReadStays(c: Config, s: State, ps: seq<nat>, v: int)
    requires ThreadsDoNotRead(c, s) && HasRead(c, s, v) && Legal(c, s, ps)
    ensures Shaped(c, Run(c, s, ps)) && HasRead(c, Run(c, s, ps), v)
    decreases |ps|
  {
    if ps == [] {
    } else {
      ReadStaysOneStep(c, s, ps[0], v);
      ReadStays(c, Next(c, s, ps[0]), ps[1..], v);
    }
  }

  lemma ReadStaysOneStep(c: Config, s: State, p: nat, v: int)
    requires ThreadsDoNotRead(c, s) && HasRead(c, s, v) && Enabled(c, s, p)
    ensures var t := Next(c, s, p); ThreadsDoNotRead(c, t) && HasRead(c, t, v)
  {
  }

  /** A counter that is not 0 would be noticed, whatever state the program was in: if main reads it
      and gets to its end, it ends with a failed CHECK exactly if the counter was not 0. */
  lemma NonzeroIsNoticed(c: Config, s: State, ps: seq<nat>)
    requires ThreadsDoNotRead(c, s) && s.pc[c.nt].ReadCount? && Legal(c, s, [c.nt] + ps)
    ensures var t := Run(c, s, [c.nt] + ps);
      Shaped(c, t) && (t.pc[c.nt].Failed? ==> s.count != 0) && (t.pc[c.nt].Done? ==> s.count == 0)
  {
    assert ([c.nt] + ps)[0] == c.nt && ([c.nt] + ps)[1..] == ps;
    ReadStays(c, Next(c, s, c.nt), ps, s.count);
  }
}
