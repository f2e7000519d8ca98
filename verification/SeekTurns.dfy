/**
 What basics/seek.c promises, without saying how the turns are kept: the participants
 (0 is the root, k+1 is task k) use the shared file offset one at a time, round after
 round, in the order 0, 1, ..., ntasks. The two synchronisation variants of the program
 (SeekBarrier, SeekSync) are shown to allow exactly the traces of this machine.
 */
module SeekTurns {
  import opened Division

  datatype Mode = FileMode | StdoutMode | StdinMode

  datatype Config = Config(mode: Mode, ntasks: nat, niters: nat, records: seq<string>) {
    function Parties(): (n: nat) ensures n > 0 { ntasks + 1 }
    /** Iterations of the participants' loops: file mode writes niters times, then reads niters times. */
    function Rounds(): nat { if mode.FileMode? then 2 * niters else niters }
    /** The turn that opens iteration i. */
    function FirstTurn(i: nat): nat { if i == 0 then 0 else FirstTurn(i - 1) + Parties() }
    function Half(): nat { FirstTurn(niters) }
    function Total(): nat { FirstTurn(Rounds()) }
  }

  // ----- records -----

  function Digit(d: nat): char
    requires d < 10
  {
    ['0', '1', '2', '3', '4', '5', '6', '7', '8', '9'][d]
  }

  function Decimal(n: nat): (s: string)
    ensures |s| > 0
  {
    if n < 10 then [Digit(n)] else Decimal(n / 10) + [Digit(n % 10)]
  }

  /** printf's "%8s" and "%8d". */
  function Pad8(s: string): string {
    if |s| < 8 then seq(8 - |s|, i => ' ') + s else s
  }

  /** The record that the program gives participant q: "    ROOT", or the right-aligned task number. */
  function Record(q: nat): string {
    if q == 0 then Pad8("ROOT") else Pad8(Decimal(q - 1))
  }

  /** The configuration the program runs with. */
  function ProgramConfig(mode: Mode, ntasks: nat, niters: nat): Config {
    Config(mode, ntasks, niters, seq(ntasks + 1, q requires 0 <= q => Record(q)))
  }

  /** Nothing below depends on the records, except that each is a non-empty C string. */
  ghost predicate Valid(c: Config) {
    && |c.records| == c.Parties()
    && forall q :: 0 <= q < |c.records| ==> |c.records[q]| > 0 && '\0' !in c.records[q]
  }

  function Rec(c: Config, q: nat): string {
    if q < |c.records| then c.records[q] else ""
  }

  // ----- operations and turns -----

  datatype Kind = Nothing | Write | Read

  /** What participant q does with the file in its i-th iteration. In the stream modes the
      root has used the file once, before any task exists, and only synchronises afterwards. */
  function KindOf(c: Config, q: nat, i: nat): Kind {
    match c.mode
    case FileMode => if i < c.niters then Write else Read
    case StdoutMode => if q == 0 then Nothing else Write
    case StdinMode => if q == 0 then Nothing else Read
  }

  function Who(c: Config, t: nat): nat { t % c.Parties() }
  function Iter(c: Config, t: nat): nat { t / c.Parties() }
  function KindAt(c: Config, t: nat): Kind { KindOf(c, Who(c, t), Iter(c, t)) }

  function Bytes(c: Config, t: nat): string {
    if KindAt(c, t).Nothing? then "" else Rec(c, Who(c, t))
  }

  /** The bytes that the first t turns write or read. */
  function Stream(c: Config, t: nat): string {
    if t == 0 then "" else Stream(c, t - 1) + Bytes(c, t - 1)
  }

  // ----- the file and the comparison buffers -----

  datatype World = World(contents: string, offset: nat, check: seq<string>)

  predicate WorldOk(c: Config, w: World) {
    && w.offset <= |w.contents|
    && |w.check| == c.Parties()
    && forall q :: 0 <= q < |w.check| ==> |w.check[q]| == |Rec(c, q)|
  }

  function Splice(s: string, at: nat, bytes: string): (r: string)
    requires at + |bytes| <= |s|
    ensures |r| == |s|
  {
    s[..at] + bytes + s[at + |bytes|..]
  }

  function Overwrite(s: string, at: nat, bytes: string): (r: string)
    requires at <= |s|
    ensures at + |bytes| <= |r|
  {
    if at + |bytes| <= |s| then Splice(s, at, bytes) else s[..at] + bytes
  }

  /** One successful write() or read() of `count` bytes by q, `moved` bytes into its record. */
  predicate CanMove(c: Config, w: World, q: nat, k: Kind, moved: nat, ended: bool, count: nat) {
    && WorldOk(c, w) && q < c.Parties()
    && !k.Nothing? && !ended
    && 1 <= count && moved + count <= |Rec(c, q)|
    && (k.Read? ==> w.offset + count <= |w.contents|)
  }

  function Move(c: Config, w: World, q: nat, k: Kind, moved: nat, ended: bool, count: nat): (r: World)
    requires CanMove(c, w, q, k, moved, ended, count)
    ensures WorldOk(c, r)
  {
    if k.Write? then
      World(Overwrite(w.contents, w.offset, Rec(c, q)[moved..moved + count]), w.offset + count, w.check)
    else
      World(w.contents, w.offset + count,
            w.check[q := Splice(w.check[q], moved, w.contents[w.offset..w.offset + count])])
  }

  /** read() returns 0, which ends my_read's loop early. */
  predicate CanEnd(c: Config, w: World, q: nat, k: Kind, moved: nat, ended: bool) {
    WorldOk(c, w) && q < c.Parties() && k.Read? && !ended && moved < |Rec(c, q)| && w.offset >= |w.contents|
  }

  predicate Over(c: Config, q: nat, k: Kind, moved: nat, ended: bool) {
    k.Nothing? || ended || moved == |Rec(c, q)|
  }

  /** The CHECKs after a transfer: a task needs a positive count, the root only a non-negative
      one, and after a read strcmp must find the whole record in the comparison buffer. */
  predicate Passes(c: Config, w: World, q: nat, k: Kind, moved: nat)
    requires WorldOk(c, w) && q < c.Parties()
  {
    k.Read? ==> (q == 0 || moved > 0) && w.check[q] == Rec(c, q)
  }

  // ----- the turn machine -----

  /** `turn` counts finished operations; the other fields describe the one under way. */
  datatype Turn = Turn(turn: nat, moved: nat, ended: bool, rewound: bool, failed: bool, world: World)

  /** File system calls on the shared descriptor, as an observer of the file sees them. */
  datatype Event = Rewind | Moved(who: nat, count: nat) | EndOfFile(who: nat)

  datatype Choice = Do(event: Event) | Complete

  predicate NeedsRewind(c: Config, s: Turn) {
    c.mode.FileMode? && s.turn == c.Half() && !s.rewound
  }

  predicate Enabled(c: Config, s: Turn, ch: Choice) {
    && WorldOk(c, s.world) && !s.failed && s.turn < c.Total()
    && var q, k := Who(c, s.turn), KindAt(c, s.turn);
       match ch
       case Do(Rewind) => NeedsRewind(c, s)
       case Do(Moved(who, count)) =>
         who == q && !NeedsRewind(c, s) && CanMove(c, s.world, q, k, s.moved, s.ended, count)
       case Do(EndOfFile(who)) =>
         who == q && !NeedsRewind(c, s) && CanEnd(c, s.world, q, k, s.moved, s.ended)
       case Complete => !NeedsRewind(c, s) && Over(c, q, k, s.moved, s.ended)
  }

  function Next(c: Config, s: Turn, ch: Choice): Turn
    requires Enabled(c, s, ch)
  {
    var q, k := Who(c, s.turn), KindAt(c, s.turn);
    match ch
    case Do(Rewind) => s.(rewound := true, world := s.world.(offset := 0))
    case Do(Moved(_, count)) =>
      s.(moved := s.moved + count, world := Move(c, s.world, q, k, s.moved, s.ended, count))
    case Do(EndOfFile(_)) => s.(ended := true)
    case Complete =>
      if Passes(c, s.world, q, k, s.moved) then s.(turn := s.turn + 1, moved := 0, ended := false)
      else s.(failed := true)
  }

  predicate Legal(c: Config, s: Turn, chs: seq<Choice>)
    decreases |chs|
  {
    chs == [] || (Enabled(c, s, chs[0]) && Legal(c, Next(c, s, chs[0]), chs[1..]))
  }

  function Run(c: Config, s: Turn, chs: seq<Choice>): Turn
    requires Legal(c, s, chs)
    decreases |chs|
  {
    if chs == [] then s else Run(c, Next(c, s, chs[0]), chs[1..])
  }

  function Trace(chs: seq<Choice>): seq<Event> {
    if chs == [] then [] else (if chs[0].Do? then [chs[0].event] else []) + Trace(chs[1..])
  }

  function Blank(c: Config): seq<string> {
    seq(c.Parties(), q requires 0 <= q => seq(|Rec(c, q)|, i => '\0'))
  }

  function Start(w: World): Turn { Turn(0, 0, false, false, false, w) }

  /** The file as the tasks find it. In the stream modes the root has already written, or
      read and compared, its own record. */
  predicate InitialWorld(c: Config, w: World) {
    match c.mode
    case FileMode => w == World("", 0, Blank(c))
    case StdoutMode => w == World(Rec(c, 0), |Rec(c, 0)|, Blank(c))
    case StdinMode => Rec(c, 0) <= w.contents && w.offset == |Rec(c, 0)| && w.check == Blank(c)[0 := Rec(c, 0)]
  }

  // ----- index arithmetic shared by the variants -----

  lemma {:induction false} FirstTurnIs(c: Config, i: nat)
    ensures c.FirstTurn(i) == i * c.Parties()
  {
    if i == 0 {
    } else {
      FirstTurnIs(c, i - 1);
      assert i * c.Parties() == (i - 1) * c.Parties() + c.Parties();
    }
  }

  lemma {:induction false} FirstTurnGrows(c: Config, i: nat, j: nat)
    requires i < j
    ensures c.FirstTurn(i) + c.Parties() <= c.FirstTurn(j)
  {
    if i < j - 1 { FirstTurnGrows(c, i, j - 1); }
  }

  /** Turn number FirstTurn(i) + q is the i-th turn of participant q. */
  lemma TurnOf(c: Config, i: nat, q: nat)
    requires q < c.Parties()
    ensures Who(c, c.FirstTurn(i) + q) == q && Iter(c, c.FirstTurn(i) + q) == i
    ensures i < c.Rounds() ==> c.FirstTurn(i) + q < c.Total()
  {
    FirstTurnIs(c, i);
    SplitIndex(i, q, c.Parties());
    if i < c.Rounds() { FirstTurnGrows(c, i, c.Rounds()); }
  }

  lemma RoundsLeft(c: Config, i: nat, perRound: nat)
    requires i < c.Rounds()
    ensures (c.Rounds() - i) * perRound == (c.Rounds() - (i + 1)) * perRound + perRound
    ensures (c.Rounds() - i) * perRound >= perRound
  {
    assert (c.Rounds() - (i + 1)) * perRound >= 0;
  }

  /** Two turns less than one iteration apart that belong to the same participant are equal. */
  lemma SameOwner(c: Config, x: nat, y: nat)
    requires x <= y < x + c.Parties() && Who(c, x) == Who(c, y)
    ensures x == y
  {
    var n := c.Parties();
    assert x == n * (x / n) + x % n && y == n * (y / n) + y % n;
    var d := y / n - x / n;
    assert d * n == n * (y / n) - n * (x / n);
    Unique(d, y - x, n);
  }

  /** The turn machine is never stuck before its last turn, except by a failed CHECK. */
  lemma CanGoOn(c: Config, s: Turn) returns (ch: Choice)
    requires WorldOk(c, s.world) && !s.failed && s.turn < c.Total() && s.moved <= |Rec(c, Who(c, s.turn))|
    ensures Enabled(c, s, ch)
  {
    var q, k := Who(c, s.turn), KindAt(c, s.turn);
    if NeedsRewind(c, s) {
      ch := Do(Rewind);
    } else if Over(c, q, k, s.moved, s.ended) {
      ch := Complete;
    } else if k.Read? && s.world.offset == |s.world.contents| {
      ch := Do(EndOfFile(q));
    } else {
      ch := Do(Moved(q, 1));
    }
  }
}
