/**
 test.sh: a list of commands is run under every mode and the results are counted; an included
 list is run by the script calling itself, and the counters travel through a summary file.
 */
module TestRunner {

  /** A list whose includes have been looked up. A command has an exit status for each mode. */
  datatype Line = Blank | Comment | MissingInclude | Include(list: seq<Line>) | Command(exits: seq<int>)

  datatype Status = PASS | FAIL | XPASS | XFAIL | UNRESOLVED | UNTESTED | UNSUPPORTED | KILLED

  const EXIT_PASS := 0
  const EXIT_FAIL := 1
  const EXIT_KILLED := 7

  function StatusOf(exit: int): Status {
    match exit
    case 0 => PASS
    case 1 => FAIL
    case 2 => XPASS
    case 3 => XFAIL
    case 4 => UNRESOLVED
    case 5 => UNTESTED
    case 6 => UNSUPPORTED
    case 7 => KILLED
    case _ => UNRESOLVED
  }

  datatype Counters = Counters(
    n_PASS: nat, n_FAIL: nat, n_XPASS: nat, n_XFAIL: nat,
    n_UNRESOLVED: nat, n_UNTESTED: nat, n_UNSUPPORTED: nat, n_KILLED: nat)
  {
    function Get(st: Status): nat {
      match st
      case PASS => n_PASS
      case FAIL => n_FAIL
      case XPASS => n_XPASS
      case XFAIL => n_XFAIL
      case UNRESOLVED => n_UNRESOLVED
      case UNTESTED => n_UNTESTED
      case UNSUPPORTED => n_UNSUPPORTED
      case KILLED => n_KILLED
    }

    function Bump(st: Status): Counters {
      match st
      case PASS => this.(n_PASS := n_PASS + 1)
      case FAIL => this.(n_FAIL := n_FAIL + 1)
      case XPASS => this.(n_XPASS := n_XPASS + 1)
      case XFAIL => this.(n_XFAIL := n_XFAIL + 1)
      case UNRESOLVED => this.(n_UNRESOLVED := n_UNRESOLVED + 1)
      case UNTESTED => this.(n_UNTESTED := n_UNTESTED + 1)
      case UNSUPPORTED => this.(n_UNSUPPORTED := n_UNSUPPORTED + 1)
      case KILLED => this.(n_KILLED := n_KILLED + 1)
    }

    function Total(): nat {
      n_PASS + n_FAIL + n_XPASS + n_XFAIL + n_UNRESOLVED + n_UNTESTED + n_UNSUPPORTED + n_KILLED
    }
  }

  const ZERO := Counters(0, 0, 0, 0, 0, 0, 0, 0)

  // ----- what running a list means -----

  /** Control-C stops the modes of a command. */
  function UntilKilled(exits: seq<int>): seq<int> {
    if exits == [] then [] else [exits[0]] + if exits[0] == EXIT_KILLED then [] else UntilKilled(exits[1..])
  }

  /** The exit statuses of the (command, mode) pairs that are run, in order. */
  function Executed(lines: seq<Line>): seq<int> {
    if lines == [] then []
    else match lines[0]
      case Command(exits) => UntilKilled(exits) + if EXIT_KILLED in exits then [] else Executed(lines[1..])
      case Include(list) => Executed(list) + Executed(lines[1..])
      case _ => Executed(lines[1..])
  }

  function Occurrences(exits: seq<int>, st: Status): nat {
    if exits == [] then 0 else (if StatusOf(exits[0]) == st then 1 else 0) + Occurrences(exits[1..], st)
  }

  /** Counters after `exits` on top of `n`. */
  ghost predicate CountsUp(n: Counters, exits: seq<int>, m: Counters) {
    forall st :: m.Get(st) == n.Get(st) + Occurrences(exits, st)
  }

  /** A list is cut short by a command of its own, not by one it includes. */
  predicate CutShort(lines: seq<Line>) {
    exists k :: 0 <= k < |lines| && lines[k].Command? && EXIT_KILLED in lines[k].exits
  }

  lemma {:induction false} OccurrencesConcat(a: seq<int>, b: seq<int>, st: Status)
    ensures Occurrences(a + b, st) == Occurrences(a, st) + Occurrences(b, st)
  {
    if a == [] {
      assert a + b == b;
    } else {
      assert (a + b)[1..] == a[1..] + b;
      OccurrencesConcat(a[1..], b, st);
    }
  }

  lemma ConcatCounts(a: seq<int>, b: seq<int>)
    ensures forall st :: Occurrences(a + b, st) == Occurrences(a, st) + Occurrences(b, st)
  {
    forall st { OccurrencesConcat(a, b, st); }
  }

  lemma {:induction false} OccursIffCounted(exits: seq<int>, st: Status)
    ensures Occurrences(exits, st) > 0 <==> exists k :: 0 <= k < |exits| && StatusOf(exits[k]) == st
  {
    if exits == [] {
    } else {
      OccursIffCounted(exits[1..], st);
      if Occurrences(exits[1..], st) > 0 {
        var k :| 0 <= k < |exits[1..]| && StatusOf(exits[1..][k]) == st;
        assert StatusOf(exits[k + 1]) == st;
      }
      if k :| 0 <= k < |exits| && StatusOf(exits[k]) == st {
        if k > 0 { assert StatusOf(exits[1..][k - 1]) == st; }
      }
    }
  }

  /** The printed total is the number of runs. */
  lemma {:induction false} TotalIsRuns(exits: seq<int>, m: Counters)
    requires CountsUp(ZERO, exits, m)
    ensures m.Total() == |exits|
  {
    Each(exits);
    assert m.Get(PASS) == m.n_PASS && m.Get(FAIL) == m.n_FAIL && m.Get(XPASS) == m.n_XPASS
        && m.Get(XFAIL) == m.n_XFAIL && m.Get(UNRESOLVED) == m.n_UNRESOLVED && m.Get(UNTESTED) == m.n_UNTESTED
        && m.Get(UNSUPPORTED) == m.n_UNSUPPORTED && m.Get(KILLED) == m.n_KILLED;
  }

  lemma {:induction false} Each(e: seq<int>)
    ensures Occurrences(e, PASS) + Occurrences(e, FAIL) + Occurrences(e, XPASS) + Occurrences(e, XFAIL)
            + Occurrences(e, UNRESOLVED) + Occurrences(e, UNTESTED) + Occurrences(e, UNSUPPORTED)
            + Occurrences(e, KILLED) == |e|
  {
    if e == [] {
    } else {
      Each(e[1..]);
    }
  }

  /** Up to a list's own KILLED command everything is run in order; the rest is not. */
  lemma {:induction false} RunInOrder(a: seq<Line>, b: seq<Line>)
    ensures Executed(a + b) == if CutShort(a) then Executed(a) else Executed(a) + Executed(b)
  {
    if a == [] {
      assert a + b == b;
    } else {
      var rest := a[1..];
      assert (a + b)[0] == a[0] && (a + b)[1..] == rest + b;
      RunInOrder(rest, b);
    }
  }

  /** A KILLED inside an included list does not stop the list that includes it. */
  lemma IncludeGoesOn(a: seq<Line>, list: seq<Line>, b: seq<Line>)
    requires !CutShort(a)
    ensures Executed(a + ([Include(list)] + b)) == Executed(a) + (Executed(list) + Executed(b))
  {
    RunInOrder(a, [Include(list)] + b);
  }

  /** Including a list is pasting its lines, provided none of its own commands is KILLED. */
  lemma IncludeIsPaste(a: seq<Line>, list: seq<Line>, b: seq<Line>)
    requires !CutShort(list)
    ensures Executed(a + ([Include(list)] + b)) == Executed(a + (list + b))
  {
    RunInOrder(a, [Include(list)] + b);
    RunInOrder(a, list + b);
    RunInOrder(list, b);
  }

  /** Blank lines, comments, includes that are missing and empty includes run nothing. */
  lemma RunsNothing(a: seq<Line>, line: Line, b: seq<Line>)
    requires line.Blank? || line.Comment? || line.MissingInclude? || line == Include([])
    ensures Executed(a + ([line] + b)) == Executed(a + b)
  {
    RunInOrder(a, [line] + b);
    RunInOrder(a, b);
  }

  /** `run` is `exits` up to and including the first 7. */
  ghost predicate UpTo7(exits: seq<int>, run: seq<int>) {
    && |run| <= |exits| && (forall i :: 0 <= i < |run| ==> run[i] == exits[i])
    && (forall i :: 0 <= i < |run| - 1 ==> run[i] != 7)
    && (|run| < |exits| ==> run != [] && run[|run| - 1] == 7)
  }

  /** A command is run under one mode after the other until one run has been killed. */
  lemma CommandRuns(exits: seq<int>)
    ensures UpTo7(exits, Executed([Command(exits)]))
  {
    ModesRun(exits);
    assert Executed([Command(exits)]) == UntilKilled(exits);
  }

  lemma {:induction false} ModesRun(exits: seq<int>)
    ensures UpTo7(exits, UntilKilled(exits))
  {
    if exits == [] || exits[0] == 7 {
    } else {
      ModesRun(exits[1..]);
      var rest, run := UntilKilled(exits[1..]), UntilKilled(exits);
      assert run == [exits[0]] + rest;
      assert forall i :: 0 < i < |run| ==> run[i] == rest[i - 1] && exits[i] == exits[1..][i - 1];
    }
  }

  /** Counters `n` on top of `start`, with `rest` of all runs still to come. */
  ghost predicate Remains(start: Counters, all: seq<int>, n: Counters, rest: seq<int>) {
    forall st :: start.Get(st) + Occurrences(all, st) == n.Get(st) + Occurrences(rest, st)
  }

  lemma OneMore(start: Counters, all: seq<int>, n: Counters, part: seq<int>, m: Counters, rest: seq<int>)
    requires Remains(start, all, n, part + rest) && CountsUp(n, part, m)
    ensures Remains(start, all, m, rest)
  {
    ConcatCounts(part, rest);
  }

  lemma OneRun(n: Counters, rest: seq<int>)
    requires rest != []
    ensures forall st :: n.Get(st) + Occurrences(UntilKilled(rest), st)
              == n.Bump(StatusOf(rest[0])).Get(st)
                 + if rest[0] == EXIT_KILLED then 0 else Occurrences(UntilKilled(rest[1..]), st)
  {
    ConcatCounts([rest[0]], if rest[0] == EXIT_KILLED then [] else UntilKilled(rest[1..]));
  }

  // ----- the exit code -----

  datatype Option<T> = None | Some(value: T)

  function ExitCode(n: Counters, top: bool, threshold: Option<int>): int {
    if n.n_KILLED != 0 then EXIT_KILLED
    else if n.n_PASS == 0 then EXIT_FAIL
    else if n.n_FAIL == 0 && n.n_UNRESOLVED == 0 && n.n_PASS > 0 then EXIT_PASS
    else if top && threshold.Some? && n.n_FAIL + n.n_UNRESOLVED < threshold.value then EXIT_PASS
    else EXIT_FAIL
  }

  ghost predicate Saw(exits: seq<int>, st: Status) {
    exists k :: 0 <= k < |exits| && StatusOf(exits[k]) == st
  }

  /** PASS without a threshold means that nothing anywhere in the tree was FAIL, UNRESOLVED or
      KILLED and something passed; KILLED means that something was. */
  lemma ExitMeans(exits: seq<int>, n: Counters)
    requires CountsUp(ZERO, exits, n)
    ensures ExitCode(n, true, None) == EXIT_PASS
            <==> Saw(exits, PASS) && !Saw(exits, FAIL) && !Saw(exits, UNRESOLVED) && !Saw(exits, KILLED)
    ensures forall t :: ExitCode(n, true, t) == EXIT_KILLED <==> Saw(exits, KILLED)
  {
    forall st ensures n.Get(st) > 0 <==> Saw(exits, st) { OccursIffCounted(exits, st); }
    assert n.Get(PASS) == n.n_PASS && n.Get(FAIL) == n.n_FAIL && n.Get(UNRESOLVED) == n.n_UNRESOLVED
        && n.Get(KILLED) == n.n_KILLED;
  }

  /** With a threshold, a few failures are let pass, but neither a KILLED nor no PASS at all. */
  lemma ThresholdMeans(exits: seq<int>, n: Counters, limit: int)
    requires CountsUp(ZERO, exits, n)
    ensures ExitCode(n, true, Some(limit)) == EXIT_PASS
            <==> && Saw(exits, PASS) && !Saw(exits, KILLED)
                 && (Occurrences(exits, FAIL) + Occurrences(exits, UNRESOLVED) < limit
                     || (!Saw(exits, FAIL) && !Saw(exits, UNRESOLVED)))
  {
    forall st ensures n.Get(st) > 0 <==> Saw(exits, st) { OccursIffCounted(exits, st); }
    assert n.Get(PASS) == n.n_PASS && n.Get(FAIL) == n.n_FAIL && n.Get(UNRESOLVED) == n.n_UNRESOLVED
        && n.Get(KILLED) == n.n_KILLED;
  }

  // ----- the same by the numbers that commands exit with -----

  /** How many runs have exited with `e`. */
  function Exited(exits: seq<int>, e: int): nat {
    if exits == [] then 0 else (if exits[0] == e then 1 else 0) + Exited(exits[1..], e)
  }

  /** 4, or something that is no test result at all. */
  predicate NoResult(e: int) { e == 4 || e < 0 || e > 7 }

  function Unresolved(exits: seq<int>): nat {
    if exits == [] then 0 else (if NoResult(exits[0]) then 1 else 0) + Unresolved(exits[1..])
  }

  /** Each counter counts its own exit status. */
  lemma CountersMean(exits: seq<int>, n: Counters)
    requires CountsUp(ZERO, exits, n)
    ensures n.n_PASS == Exited(exits, 0) && n.n_FAIL == Exited(exits, 1) && n.n_XPASS == Exited(exits, 2)
    ensures n.n_XFAIL == Exited(exits, 3) && n.n_UNRESOLVED == Unresolved(exits) && n.n_UNTESTED == Exited(exits, 5)
    ensures n.n_UNSUPPORTED == Exited(exits, 6) && n.n_KILLED == Exited(exits, 7)
  {
    OccurrencesAre(exits);
    assert n.n_PASS == n.Get(PASS) && n.n_FAIL == n.Get(FAIL) && n.n_XPASS == n.Get(XPASS)
        && n.n_XFAIL == n.Get(XFAIL) && n.n_UNRESOLVED == n.Get(UNRESOLVED) && n.n_UNTESTED == n.Get(UNTESTED)
        && n.n_UNSUPPORTED == n.Get(UNSUPPORTED) && n.n_KILLED == n.Get(KILLED);
  }

  lemma {:induction false} OccurrencesAre(e: seq<int>)
    ensures Occurrences(e, PASS) == Exited(e, 0) && Occurrences(e, FAIL) == Exited(e, 1)
    ensures Occurrences(e, XPASS) == Exited(e, 2) && Occurrences(e, XFAIL) == Exited(e, 3)
    ensures Occurrences(e, UNRESOLVED) == Unresolved(e) && Occurrences(e, UNTESTED) == Exited(e, 5)
    ensures Occurrences(e, UNSUPPORTED) == Exited(e, 6) && Occurrences(e, KILLED) == Exited(e, 7)
  {
    if e == [] {
    } else {
      OccurrencesAre(e[1..]);
    }
  }

  lemma {:induction false} ExitedIfThere(exits: seq<int>, e: int)
    ensures Exited(exits, e) > 0 <==> e in exits
  {
    if exits == [] {
    } else {
      ExitedIfThere(exits[1..], e);
      assert e in exits <==> exits[0] == e || e in exits[1..];
    }
  }

  lemma {:induction false} UnresolvedIfThere(exits: seq<int>)
    ensures Unresolved(exits) > 0 <==> exists k :: 0 <= k < |exits| && NoResult(exits[k])
  {
    if exits == [] {
    } else {
      var rest := exits[1..];
      UnresolvedIfThere(rest);
      if k :| 0 <= k < |rest| && NoResult(rest[k]) { assert NoResult(exits[k + 1]); }
      if k :| 0 <= k < |exits| && NoResult(exits[k]) { assert k > 0 ==> NoResult(rest[k - 1]); }
    }
  }

  /** The script exits with 7 if anything was killed; with 0 if something exited with 0, nothing was
      killed and there were no failures, or fewer than the threshold if there is one; and with 1
      otherwise. A failure is an exit status other than 0, 2, 3, 5, 6 and 7. As an include it knows
      of no threshold. */
  lemma ExitStatusMeans(exits: seq<int>, n: Counters, threshold: Option<int>)
    requires CountsUp(ZERO, exits, n)
    ensures ExitCode(n, true, threshold) == 7 <==> 7 in exits
    ensures ExitCode(n, true, threshold) == 0
            <==> && 0 in exits && 7 !in exits
                 && ((forall e :: e in exits ==> e in {0, 2, 3, 5, 6})
                     || (threshold.Some? && Exited(exits, 1) + Unresolved(exits) < threshold.value))
    ensures ExitCode(n, true, threshold) in {0, 1, 7} && ExitCode(n, false, threshold) == ExitCode(n, true, None)
  {
    CountersMean(exits, n);
    ExitedIfThere(exits, 0);
    ExitedIfThere(exits, 7);
    if 7 !in exits { NoFailure(exits); }
  }

  lemma NoFailure(exits: seq<int>)
    requires 7 !in exits
    ensures (forall e :: e in exits ==> e in {0, 2, 3, 5, 6}) <==> Exited(exits, 1) == 0 == Unresolved(exits)
  {
    ExitedIfThere(exits, 1);
    UnresolvedIfThere(exits);
    if Exited(exits, 1) == 0 == Unresolved(exits) {
      forall e | e in exits ensures e in {0, 2, 3, 5, 6} {
        var k :| 0 <= k < |exits| && exits[k] == e;
        assert !NoResult(exits[k]);
      }
    } else if Unresolved(exits) > 0 {
      var k :| 0 <= k < |exits| && NoResult(exits[k]);
      assert exits[k] in exits;
    }
  }

  // ----- the script -----

  /** Nested calls of the script share one summary file; each has variables of its own. */
  class Script {
    var file: Option<Counters>

    constructor ()
      ensures file == None
    {
      file := None;
    }

    /** The main result: one run of the script on a list, from the top or as an include. Going
        through the file gives exactly the counters of a direct fold over the whole tree. */
    method RunList(list: seq<Line>, top: bool, threshold: Option<int>) returns (n: Counters, exit: int)
      requires !top ==> file.Some?
      modifies this
      decreases list
      ensures CountsUp(if top then ZERO else old(file).value, Executed(list), n)
      ensures file == if top then None else Some(n)
      ensures exit == ExitCode(n, top, threshold)
    {
      if top {
        n := ZERO;
        file := Some(n);
      } else {
        n := file.value;
      }
      ghost var start := n;
      var k, broken := 0, false;
      while k < |list| && !broken
        invariant 0 <= k <= |list| && file.Some?
        invariant Remains(start, Executed(list), n, if broken then [] else Executed(list[k..]))
      {
        ghost var rest := list[k..];
        assert rest[0] == list[k] && rest[1..] == list[k + 1..];
        match list[k] {
          case Blank =>
          case Comment =>
          case MissingInclude =>
          case Include(inner) =>
            file := Some(n);
            var _, _ := RunList(inner, false, threshold);
            OneMore(start, Executed(list), n, Executed(inner), file.value, Executed(rest[1..]));
            n := file.value;
          case Command(exits) =>
            ghost var before := n;
            n, broken := RunModes(n, exits);
            OneMore(start, Executed(list), before, UntilKilled(exits), n, if broken then [] else Executed(rest[1..]));
        }
        k := k + 1;
      }
      file := if top then None else Some(n);
      exit := ExitCode(n, top, threshold);
    }

    /** One command under each of the modes. */
    method RunModes(before: Counters, exits: seq<int>) returns (n: Counters, broken: bool)
      ensures CountsUp(before, UntilKilled(exits), n)
      ensures broken <==> EXIT_KILLED in exits
    {
      n, broken := before, false;
      var m := 0;
      while m < |exits| && !broken
        invariant 0 <= m <= |exits|
        invariant forall st :: before.Get(st) + Occurrences(UntilKilled(exits), st)
                    == n.Get(st) + if broken then 0 else Occurrences(UntilKilled(exits[m..]), st)
        invariant broken ==> EXIT_KILLED in exits
        invariant !broken ==> EXIT_KILLED !in exits[..m]
      {
        ghost var rest := exits[m..];
        assert rest[0] == exits[m] && rest[1..] == exits[m + 1..];
        OneRun(n, rest);
        n := n.Bump(StatusOf(exits[m]));
        broken := exits[m] == EXIT_KILLED;
        m := m + 1;
      }
    }
  }
}
