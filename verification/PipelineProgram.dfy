/** basics/hook_and_coe.c after its setup, with the pipes, the descriptor tables and the
    tasks' buffers updated in place. */
module PipelineProgram {
  import opened FdTables
  import opened P = Pipeline
  import R = PipelineResults

  class Program {
    const c: Config
    const pipes: array<string>
    const relay: array<Relay>
    const tables: array<Table>
    var root: Root
    var rootTable: Table
    var fpos: nat
    ghost var sent: string
    ghost var got: string
    ghost var taken: seq<nat>
    ghost var given: seq<nat>

    ghost function View(): State
      reads this, pipes, relay, tables
    {
      State(root, rootTable, fpos, pipes[..], relay[..], tables[..], sent, got, taken, given)
    }

    ghost predicate Valid()
      reads this, pipes, relay, tables
    {
      Flowing(c, View())
    }

    /** Takes over from the launcher once it has set everything up. */
    constructor (c: Config, rootTable: Table, tasks: seq<Table>)
      requires P.Valid(c) && |tasks| == c.n && IsRootTable(c.n, c.n, rootTable)
      requires forall k :: 0 <= k < c.n ==> IsTaskTable(c.n, k, tasks[k])
      ensures Valid() && this.c == c && Initial(c, View())
      ensures fresh(pipes) && fresh(relay) && fresh(tables)
    {
      this.c := c;
      pipes := new string[c.n + 1](_ => "");
      relay := new Relay[c.n](_ => Reading);
      tables := new Table[c.n](i requires 0 <= i < |tasks| => tasks[i]);
      root, this.rootTable, fpos := ReadFile, rootTable, 0;
      sent, got, taken, given := "", "", seq(c.n, i => 0), seq(c.n, i => 0);
      new;
      assert tables[..] == tasks;
      InitialFlows(c, View());
    }

    method Execute(st: Step)
      requires Valid() && Enabled(c, View(), st)
      modifies this, pipes, relay, tables
      ensures Valid() && View() == Next(c, old(View()), st)
    {
      ghost var before := View();
      if IsRelayStep(st) {
        ExecuteRelay(st);
      } else {
        ExecuteRoot(st);
      }
      StepFlows(c, before, st);
    }

    method CanExecute(st: Step) returns (r: bool)
      requires Valid()
      ensures r == Enabled(c, View(), st)
    {
      r := Enabled(c, State(root, rootTable, fpos, pipes[..], relay[..], tables[..], "", "",
                            seq(c.n, j => 0), seq(c.n, j => 0)), st);
    }

    method ExecuteRoot(st: Step)
      requires Valid() && Enabled(c, View(), st) && !IsRelayStep(st)
      modifies this, pipes
      ensures View() == Next(c, old(View()), st)
    {
      match st {
        case RootReadFile(count) =>
          root, fpos := Feed(c.file[fpos..fpos + count], 0), fpos + count;
        case RootWrite(count) =>
          var bytes := root.block[root.pw..root.pw + count];
          pipes[0] := pipes[0] + bytes;
          root, sent := Feed(root.block, root.pw + count), sent + bytes;
        case RootFed =>
          root := Collect(root.block, "", |root.block|);
        case RootRead(count) =>
          var bytes := pipes[c.n][..count];
          pipes[c.n] := pipes[c.n][count..];
          root := Collect(root.block, root.check + bytes, if c.intended then root.ccc - count else 0 - count);
          got := got + bytes;
        case RootCompare =>
          root := if SameFrom(root.block, root.check, |root.block|, 0) then ReadFile else Mismatch;
        case RootEof =>
          root := CloseFile;
        case RootClose =>
          CloseRoot();
        case RootWait =>
          root := if root.i + 1 < c.n then Wait(root.i + 1) else Finished;
        case RootNoMore =>
          root := Compare(root.block, root.check);
        case RootCollected =>
          root := Compare(root.block, root.check);
      }
    }

    method CloseRoot()
      requires Enabled(c, View(), RootClose)
      modifies this`root, this`rootTable
      ensures View() == Next(c, old(View()), RootClose)
    {
      if root.CloseFile? {
        root := CloseOut;
      } else if root.CloseOut? {
        root, rootTable := CloseIn, Close(rootTable, W(0));
      } else {
        root, rootTable := Wait(0), Close(rootTable, R(c.n));
      }
    }

    method ExecuteRelay(st: Step)
      requires Valid() && Enabled(c, View(), st) && IsRelayStep(st)
      modifies this`taken, this`given, pipes, relay, tables
      ensures View() == Next(c, old(View()), st)
    {
      var k := st.k;
      match st {
        case RelayRead(_, count) =>
          relay[k] := Writing(pipes[k][..count], 0);
          pipes[k] := pipes[k][count..];
          taken := taken[k := taken[k] + count];
        case RelayEof(_) =>
          relay[k] := Leaving;
        case RelayWrite(_, count) =>
          WriteOut(k, count);
        case RelayClose(_) =>
          if relay[k].Leaving? {
            relay[k], tables[k] := Closed0, Close(tables[k], Std(0));
          } else {
            relay[k], tables[k] := Closed1, Close(tables[k], Std(1));
          }
        case RelayExit(_) =>
          relay[k], tables[k] := Exited, map[];
        case RelayBroken(_) =>
          relay[k], tables[k] := Killed(relay[k].buf, relay[k].pos), map[];
      }
    }

    /** One write() of task k. */
    method WriteOut(k: nat, count: nat)
      requires Enabled(c, View(), RelayWrite(k, count))
      modifies this`given, pipes, relay
      ensures View() == Next(c, old(View()), RelayWrite(k, count))
    {
      var r := relay[k];
      pipes[k + 1] := pipes[k + 1] + r.buf[r.pos..r.pos + count];
      relay[k] := if r.pos + count < |r.buf| then Writing(r.buf, r.pos + count) else Reading;
      given := given[k := given[k] + count];
    }
  }

  /** The whole program with the subtraction that is meant: setup, then the steps of any
      schedule that are possible when they come up. No comparison fails, no byte is lost or
      changes places, and when root is done the file has come back and all tasks have exited. */
  method RunPipeline(n: nat, cap: nat, file: string, schedule: seq<Step>) returns (p: Program)
    requires n > 0 && cap > 0
    ensures p.Valid() && p.c == Config(n, cap, file, true) && !p.root.Mismatch?
    ensures p.got + Flow(p.pipes[..], p.relay[..], n) == p.sent && p.sent <= file
    ensures p.root.Finished? ==> p.got == file && forall k :: 0 <= k < n ==> p.relay[k].Exited?
  {
    var l := new Launcher();
    l.Setup(n);
    p := new Program(Config(n, cap, file, true), l.table, l.tasks);
    InitialInv(p.c, p.View());
    for i := 0 to |schedule|
      invariant p.Valid() && p.c == Config(n, cap, file, true) && Inv(p.c, p.View())
      invariant fresh(p) && fresh(p.pipes) && fresh(p.relay) && fresh(p.tables)
    {
      var possible := p.CanExecute(schedule[i]);
      if possible {
        StepInv(p.c, p.View(), schedule[i]);
        p.Execute(schedule[i]);
      }
    }
    Outcome(p.c, p.View());
  }

  lemma Outcome(c: Config, s: State)
    requires Inv(c, s)
    ensures !s.root.Mismatch? && s.got + Flow(s.pipes, s.relay, c.n) == s.sent && s.sent <= c.file
    ensures s.root.Finished? ==> s.got == c.file && forall k :: 0 <= k < c.n ==> s.relay[k].Exited?
  {
    R.Conservation(c, s);
    R.SentIsPrefix(c, s);
  }
}
