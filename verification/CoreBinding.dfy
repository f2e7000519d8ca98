/**
 basics/corebind.c: root binds task i to the nth core of the set of all usable ones, taking the
 number modulo the size of the set, and each task works out for itself where it should be.
 */
module CoreBinding {
  import opened Division

  /** A cpu_set_t: entry i says whether core i is in it. */
  type CpuSet = seq<bool>

  /** CPU_COUNT of the cores below i. */
  function Below(cpus: CpuSet, i: nat): (n: nat)
    requires i <= |cpus|
    ensures n <= i
  {
    if i == 0 then 0 else Below(cpus, i - 1) + if cpus[i - 1] then 1 else 0
  }

  function Count(cpus: CpuSet): nat { Below(cpus, |cpus|) }

  predicate IsNth(cpus: CpuSet, n: nat, core: int) {
    0 <= core < |cpus| && cpus[core] && Below(cpus, core) == n
  }

  lemma {:induction false} BelowGrows(cpus: CpuSet, i: nat, j: nat)
    requires i < j <= |cpus|
    ensures Below(cpus, i) + (if cpus[i] then 1 else 0) <= Below(cpus, j)
  {
    if i < j - 1 { BelowGrows(cpus, i, j - 1); }
  }

  /** A number and a member determine one another. */
  lemma NthIsUnique(cpus: CpuSet, n: nat, m: nat, a: int, b: int)
    requires IsNth(cpus, n, a) && IsNth(cpus, m, b)
    ensures n == m <==> a == b
  {
    if a < b { BelowGrows(cpus, a, b); }
    if b < a { BelowGrows(cpus, b, a); }
  }

  lemma NthIsInRange(cpus: CpuSet, core: nat)
    requires core < |cpus| && cpus[core]
    ensures Below(cpus, core) < Count(cpus)
  {
    BelowGrows(cpus, core, |cpus|);
  }

  /** `nth` is a pipid, so C's % is the remainder here. */
  method NthCore(nth: nat, cpus: CpuSet) returns (core: int)
    requires Count(cpus) > 0
    ensures IsNth(cpus, nth % Count(cpus), core)
  {
    var ncores := Count(cpus);
    var n := nth % ncores;
    var i, j := 0, 0;
    while i < |cpus|
      invariant 0 <= i <= |cpus| && j == Below(cpus, i) <= n
    {
      if cpus[i] {
        j := j + 1;
        if j - 1 == n { return i; }
      }
      i := i + 1;
    }
    assert false;
    core := -1;
  }

  /** Among ncores tasks in a row, no two get the same core, and every core gets one. */
  lemma Spread(cpus: CpuSet, first: nat)
    requires Count(cpus) > 0
    ensures forall i, j, a, b ::
      first <= i < j < first + Count(cpus) && IsNth(cpus, i % Count(cpus), a) && IsNth(cpus, j % Count(cpus), b)
      ==> a != b
    ensures forall core :: 0 <= core < |cpus| && cpus[core] ==>
              exists i :: first <= i < first + Count(cpus) && IsNth(cpus, i % Count(cpus), core)
  {
    var n := Count(cpus);
    forall i, j, a, b | first <= i < j < first + n && IsNth(cpus, i % n, a) && IsNth(cpus, j % n, b)
      ensures a != b
    {
      Remainders(i, j, n);
      NthIsUnique(cpus, i % n, j % n, a, b);
    }
    forall core | 0 <= core < |cpus| && cpus[core]
      ensures exists i :: first <= i < first + n && IsNth(cpus, i % n, core)
    {
      NthIsInRange(cpus, core);
      var i := Reach(first, n, Below(cpus, core));
      assert IsNth(cpus, i % n, core);
    }
  }

  /** The affinity a process has, and those of the tasks it has spawned. */
  class Root {
    var own: CpuSet
    var tasks: seq<CpuSet>

    constructor (inherited: CpuSet)
      ensures own == inherited && tasks == []
    {
      own, tasks := inherited, [];
    }

    /** Tries every core in turn; `may` says which of them the system lets a process bind to. */
    method FillCpuset(may: CpuSet, fullset: array<bool>)
      requires fullset.Length == |may|
      modifies this`own, fullset
      ensures fullset[..] == may && own == old(own)
    {
      var save := own;
      for i := 0 to fullset.Length
        invariant forall k :: 0 <= k < i ==> !fullset[k]
      {
        fullset[i] := false;
      }
      var i := 0;
      while i < |may|
        invariant 0 <= i <= |may|
        invariant forall k :: 0 <= k < |may| ==> fullset[k] == (k < i && may[k])
        modifies this`own, fullset
      {
        if may[i] {
          own := Only(|may|, i);
          fullset[i] := true;
        }
        i := i + 1;
      }
      own := save;
    }

    /** Half of the tasks are bound when they are spawned; the others inherit what root has
        bound itself to. Both ways task i ends up on core number i modulo the number of cores. */
    method SpawnAll(ntasks: nat, cpufull: CpuSet)
      requires Count(cpufull) > 0 && ntasks > 0 && tasks == []
      modifies this
      ensures |tasks| == ntasks
      ensures forall i :: 0 <= i < ntasks ==> Bound(cpufull, i, tasks[i])
      ensures own == if ntasks >= 2 then tasks[ntasks - 1] else old(own)
    {
      var hntasks := if ntasks / 2 < 1 then 1 else ntasks / 2;
      var i := 0;
      while i < hntasks
        invariant 0 <= i <= hntasks && |tasks| == i && own == old(own)
        invariant forall k :: 0 <= k < i ==> Bound(cpufull, k, tasks[k])
      {
        var core := NthCore(i, cpufull);
        tasks := tasks + [Only(|cpufull|, core)];
        i := i + 1;
      }
      while i < ntasks
        invariant hntasks <= i <= ntasks && |tasks| == i
        invariant own == if i > hntasks then tasks[i - 1] else old(own)
        invariant forall k :: 0 <= k < i ==> Bound(cpufull, k, tasks[k])
      {
        var core := NthCore(i, cpufull);
        own := Only(|cpufull|, core);
        tasks := tasks + [own];
        i := i + 1;
      }
    }
  }

  function Only(size: nat, core: int): CpuSet { seq(size, i => i == core) }

  ghost predicate Bound(cpus: CpuSet, i: nat, affinity: CpuSet)
    requires Count(cpus) > 0
  {
    exists core :: IsNth(cpus, i % Count(cpus), core) && affinity == Only(|cpus|, core)
  }

  /** What a task checks: the core it works out is in the affinity it has. The check would
      pass for no other task that is less than ncores away. */
  method CheckTask(pipid: nat, cpufull: CpuSet, affinity: CpuSet) returns (ok: bool)
    requires Count(cpufull) > 0 && |affinity| == |cpufull|
    ensures Bound(cpufull, pipid, affinity) ==> ok
    ensures forall other: nat :: pipid < other < pipid + Count(cpufull) && Bound(cpufull, other, affinity) ==> !ok
  {
    var core := NthCore(pipid, cpufull);
    ok := affinity[core];
    var n := Count(cpufull);
    if core0 :| IsNth(cpufull, pipid % n, core0) && affinity == Only(|cpufull|, core0) {
      NthIsUnique(cpufull, pipid % n, pipid % n, core, core0);
    }
    forall other: nat | pipid < other < pipid + n && Bound(cpufull, other, affinity) ensures !ok {
      var core1 :| IsNth(cpufull, other % n, core1) && affinity == Only(|cpufull|, core1);
      Remainders(pipid, other, n);
      NthIsUnique(cpufull, pipid % n, other % n, core, core1);
    }
  }
}
