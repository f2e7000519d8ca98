/**
 Line 225 of basics/hook_and_coe.c as it is written: `ccc =- ccr` makes root's reading loop end
 after its first read(). On which files a comparison can fail because of that, for all files.
 */
module PipelineAsWritten {
  import opened Pipeline
  import opened PipelineRuns

  /** Everything behind the first byte is zero, or a zero byte and one more are all there is. */
  predicate Harmless(file: string) {
    || (forall i :: 1 <= i < |file| ==> file[i] == '\0')
    || (|file| == 2 && file[0] == '\0')
  }

  // ----- harmless files -----

  /** `part` is what stands in the file from position `from` on. */
  predicate IsAt(file: string, from: int, part: string) {
    0 <= from <= from + |part| <= |file| && forall i :: 0 <= i < |part| ==> part[i] == file[from + i]
  }

  /** Root holds a block of the file that ends at fpos, and for it, in `check`, the bytes it has
      got last: for the first block these begin at the file's start, and for the others behind
      its first byte. */
  predicate BlockOk(file: string, fpos: nat, got: nat, block: string, check: string) {
    && block != "" && IsAt(file, fpos - |block|, block)
    && |check| <= |block| && got <= fpos - |block| + |check| && IsAt(file, got - |check|, check)
    && (fpos > |block| ==> got > |check|)
  }

  predicate Calm(file: string, root: Root, fpos: nat, sent: nat, got: nat) {
    && got <= sent <= fpos <= |file|
    && match root
       case ReadFile => sent == fpos && (fpos > 0 ==> got > 0)
       case Feed(block, pw) => pw <= |block| && BlockOk(file, fpos, got, block, "") && sent == fpos - |block| + pw
       case Collect(block, check, ccc) =>
         BlockOk(file, fpos, got, block, check) && sent == fpos && if check == "" then ccc == |block| else ccc < 0
       case Compare(block, check) => BlockOk(file, fpos, got, block, check) && sent == fpos && check != ""
       case Mismatch => false
       case _ => sent == fpos && (fpos > 0 ==> got > 0)
  }

  predicate RootCalm(c: Config, s: State) {
    Calm(c.file, s.root, s.fpos, |s.sent|, |s.got|) && IsAt(c.file, 0, s.sent)
  }

  lemma CalmCompares(file: string, fpos: nat, got: nat, b: string, x: string)
    requires Harmless(file) && BlockOk(file, fpos, got, b, x) && x != ""
    ensures SameFrom(b, x, |b|, 0)
  {
    assert x[0] == file[got - |x| + 0] && b[0] == file[fpos - |b| + 0];
    if fpos == |b| {
      FirstBlock(file, b, x);
    } else if |file| == 2 {
      assert b == x;
      ComparesEqual(b, 0);
    } else {
      assert b[0] == x[0] == '\0';
    }
  }

  lemma FirstBlock(file: string, b: string, x: string)
    requires Harmless(file) && 0 < |x| <= |b| && IsAt(file, 0, b) && IsAt(file, 0, x)
    ensures SameFrom(b, x, |b|, 0)
  {
    assert x <= b;
    ComparesExactly(b, x, 0);
    if |x| < |b| {
      var j := if |file| == 2 && file[0] == '\0' then 0 else |x|;
      assert b[j] == file[0 + j] == '\0';
    }
  }

  lemma CalmStep(c: Config, s: State, st: Step)
    requires Harmless(c.file) && !c.intended && Flowing(c, s) && RootCalm(c, s) && Enabled(c, s, st)
    ensures RootCalm(c, Next(c, s, st))
  {
    CalmNoMore(c, s);
    if st.RootReadFile? || st.RootWrite? || st.RootRead? {
      CalmMove(c, s, st);
    } else if st.RootCompare? {
      CalmCompare(c, s);
    } else {
      CalmOther(c, s, st);
    }
  }

  lemma CalmMove(c: Config, s: State, st: Step)
    requires !c.intended && Flowing(c, s) && RootCalm(c, s) && Enabled(c, s, st)
    requires st.RootReadFile? || st.RootWrite? || st.RootRead?
    ensures RootCalm(c, Next(c, s, st))
  {
    match st
    case RootReadFile(count) => CalmReadFile(c, s, count);
    case RootWrite(count) => CalmWrite(c, s, count);
    case RootRead(count) => CalmRead(c, s, count);
  }

  lemma CalmNoMore(c: Config, s: State)
    requires Flowing(c, s) && RootCalm(c, s)
    ensures !Enabled(c, s, RootNoMore)
  {
    if Enabled(c, s, RootNoMore) {
      NoEarlyEnd(c, s, c.n);
      assert false;
    }
  }

  lemma CalmCompare(c: Config, s: State)
    requires Harmless(c.file) && RootCalm(c, s) && Enabled(c, s, RootCompare)
    ensures RootCalm(c, Next(c, s, RootCompare))
  {
    CalmCompares(c.file, s.fpos, |s.got|, s.root.block, s.root.check);
  }

  lemma CalmOther(c: Config, s: State, st: Step)
    requires RootCalm(c, s) && Enabled(c, s, st)
    requires IsRelayStep(st) || st.RootEof? || st.RootCollected? || st.RootClose? || st.RootWait? || st.RootFed?
    ensures RootCalm(c, Next(c, s, st))
  {
    var t := Next(c, s, st);
    assert t.fpos == s.fpos && t.sent == s.sent && t.got == s.got;
    if IsRelayStep(st) { assert t.root == s.root; }
  }

  lemma CalmReadFile(c: Config, s: State, count: nat)
    requires RootCalm(c, s) && Enabled(c, s, RootReadFile(count))
    ensures RootCalm(c, Next(c, s, RootReadFile(count)))
  {
  }

  lemma CalmWrite(c: Config, s: State, count: nat)
    requires RootCalm(c, s) && Enabled(c, s, RootWrite(count))
    ensures RootCalm(c, Next(c, s, RootWrite(count)))
  {
    MoreSent(c.file, s.sent, s.fpos - |s.root.block|, s.root.block, s.root.pw, count);
  }

  lemma MoreSent(file: string, sent: string, from: nat, block: string, pw: nat, count: nat)
    requires IsAt(file, 0, sent) && IsAt(file, from, block) && |sent| == from + pw && pw + count <= |block|
    ensures IsAt(file, 0, sent + block[pw..pw + count])
  {
    var t := sent + block[pw..pw + count];
    forall i | 0 <= i < |t| ensures t[i] == file[0 + i] {
      if i < |sent| { assert sent[i] == file[0 + i]; } else { assert block[i - from] == file[from + (i - from)]; }
    }
  }

  lemma CalmRead(c: Config, s: State, count: nat)
    requires !c.intended && Flowing(c, s) && RootCalm(c, s) && Enabled(c, s, RootRead(count))
    ensures RootCalm(c, Next(c, s, RootRead(count)))
  {
    RootGets(c, s, count);
    var bytes := s.pipes[c.n][..count];
    Got(c.file, s.sent, |s.got|, bytes);
    assert s.root.check == "" && "" + bytes == bytes;
  }

  lemma Got(file: string, sent: string, got: nat, bytes: string)
    requires IsAt(file, 0, sent) && got + |bytes| <= |sent| && bytes == sent[got..got + |bytes|]
    ensures IsAt(file, got, bytes)
  {
    forall i | 0 <= i < |bytes| ensures bytes[i] == file[got + i] { assert sent[got + i] == file[0 + (got + i)]; }
  }

  lemma {:induction false} CalmRun(c: Config, s: State, sts: seq<Step>)
    requires Harmless(c.file) && !c.intended && Flowing(c, s) && RootCalm(c, s) && Legal(c, s, sts)
    ensures RootCalm(c, Run(c, s, sts))
    decreases |sts|
  {
    if sts == [] {
    } else {
      CalmStep(c, s, sts[0]);
      StepFlows(c, s, sts[0]);
      CalmRun(c, Next(c, s, sts[0]), sts[1..]);
    }
  }

  // ----- all others -----

  /** A place where a short read shows, at once or with the block that follows. */
  predicate Shows(file: string, p: nat) {
    p + 1 < |file| && ((file[p] != '\0' && file[p + 1] != '\0') || (p + 2 < |file| && file[p + 1] != file[p + 2]))
  }

  lemma SomePlaceShows(file: string) returns (p: nat)
    requires !Harmless(file)
    ensures Shows(file, p)
  {
    var i :| 1 <= i < |file| && file[i] != '\0';
    if file[i - 1] != '\0' {
      p := i - 1;
    } else if i >= 2 {
      p := i - 2;
    } else {
      p := if file[2] != file[1] then 0 else 1;
    }
  }

  /** Root and the tasks hold the same descriptors as before. */
  predicate SameTables(s: State, t: State) { t.rootTable == s.rootTable && t.tables == s.tables }

  /** Root reads a block from the file, and its first byte goes down to the last pipe. */
  lemma FeedFirst(c: Config, s: State, size: nat) returns (sts: seq<Step>)
    requires AtRest(c, s) && Valid(c) && 1 <= size <= BUFSZ && s.fpos + size <= |c.file|
    ensures Legal(c, s, sts) && sts != [] && sts[0] == RootReadFile(size)
    ensures var t, b := Run(c, s, sts), c.file[s.fpos..s.fpos + size];
      && Shaped(c, t) && t.fpos == s.fpos + size && t.root == Feed(b, 1)
      && t.relay == s.relay && SameTables(s, t) && t.pipes == s.pipes[c.n := b[..1]]
  {
    var s1 := Next(c, s, RootReadFile(size));
    var a := Push(c, s1, c.n, 1);
    Cons(c, s, RootReadFile(size), a);
    sts := [RootReadFile(size)] + a;
  }

  /** A block of which root reads back one byte: the others stay behind. */
  lemma ShortRead(c: Config, s: State, size: nat) returns (sts: seq<Step>)
    requires AtRest(c, s) && Valid(c) && !c.intended && s.fpos + size <= |c.file|
    requires 2 <= size <= BUFSZ && size <= c.cap + 1
    ensures Legal(c, s, sts) && sts != [] && sts[0] == RootReadFile(size)
    ensures var t, b := Run(c, s, sts), c.file[s.fpos..s.fpos + size];
      && Shaped(c, t) && t.fpos == s.fpos + size
      && t.root == (if SameFrom(b, b[..1], size, 0) then ReadFile else Mismatch)
      && t.relay == s.relay && SameTables(s, t) && t.pipes == s.pipes[0 := b[1..]]
  {
    var b := c.file[s.fpos..s.fpos + size];
    var a := FeedFirst(c, s, size);
    var d := ReadBack(c, Run(c, s, a), 1);
    Append(c, s, a, d);
    sts := a + d;
    assert b[..1][..1] == b[..1] && b[..1][1..] == "";
    assert s.pipes[c.n := b[..1]][0 := b[1..]][c.n := ""] == s.pipes[0 := b[1..]];
  }

  /** Root writes the rest of its block at once and reads back `count` bytes of the last pipe. */
  lemma ReadBack(c: Config, s: State, count: nat) returns (sts: seq<Step>)
    requires Shaped(c, s) && !c.intended && s.root.Feed? && s.root.pw < |s.root.block| <= s.root.pw + c.cap
    requires 1 <= count <= |s.pipes[c.n]| && count <= |s.root.block| && s.pipes[0] == ""
    ensures Legal(c, s, sts)
    ensures var t, b := Run(c, s, sts), s.root.block;
      && Shaped(c, t) && t.fpos == s.fpos
      && t.root == (if SameFrom(b, s.pipes[c.n][..count], |b|, 0) then ReadFile else Mismatch)
      && t.relay == s.relay && SameTables(s, t)
      && t.pipes == s.pipes[0 := b[s.root.pw..]][c.n := s.pipes[c.n][count..]]
  {
    var b, x, rest := s.root.block, s.pipes[c.n][..count], |s.root.block| - s.root.pw;
    assert b[s.root.pw..s.root.pw + rest] == b[s.root.pw..] && s.pipes[0] + b[s.root.pw..] == b[s.root.pw..];
    var s1 := Next(c, s, RootWrite(rest));
    assert s1.pipes == s.pipes[0 := b[s.root.pw..]] && s1.pipes[c.n] == s.pipes[c.n];
    var s2 := Next(c, s1, RootFed);
    var s3 := Next(c, s2, RootRead(count));
    assert "" + x == x && s3.root == Collect(b, x, 0 - count);
    var s4 := Next(c, s3, RootCollected);
    One(c, s4, RootCompare);
    Cons(c, s3, RootCollected, [RootCompare]);
    Cons(c, s2, RootRead(count), [RootCollected] + [RootCompare]);
    Cons(c, s1, RootFed, [RootRead(count)] + ([RootCollected] + [RootCompare]));
    Cons(c, s, RootWrite(rest), [RootFed] + ([RootRead(count)] + ([RootCollected] + [RootCompare])));
    sts := [RootWrite(rest)] + ([RootFed] + ([RootRead(count)] + ([RootCollected] + [RootCompare])));
  }

  /** Root reads a block, writes it at once, and reads back `count` bytes of the last pipe. */
  lemma NextBlock(c: Config, s: State, size: nat, count: nat) returns (sts: seq<Step>)
    requires Shaped(c, s) && !c.intended && s.root.ReadFile? && s.fpos + size <= |c.file| && s.pipes[0] == ""
    requires 1 <= count <= size <= BUFSZ && count <= |s.pipes[c.n]| && size <= c.cap
    ensures Legal(c, s, sts) && sts != [] && sts[0] == RootReadFile(size)
    ensures var t, block := Run(c, s, sts), c.file[s.fpos..s.fpos + size];
      && Shaped(c, t) && t.fpos == s.fpos + size
      && t.root == (if SameFrom(block, s.pipes[c.n][..count], size, 0) then ReadFile else Mismatch)
      && t.relay == s.relay && SameTables(s, t)
      && t.pipes == s.pipes[0 := block][c.n := s.pipes[c.n][count..]]
  {
    var block := c.file[s.fpos..s.fpos + size];
    var t := Next(c, s, RootReadFile(size));
    assert block[0..] == block;
    var b := ReadBack(c, t, count);
    Cons(c, s, RootReadFile(size), b);
    sts := [RootReadFile(size)] + b;
  }

  /** The byte left behind is taken for the next block, which is another one. */
  lemma NextBlockShows(c: Config, s: State) returns (sts: seq<Step>)
    requires Quiet(c, s, c.n) && Valid(c) && !c.intended && s.root.ReadFile? && s.fpos < |c.file|
    requires |s.pipes[0]| == 1 && s.pipes[0][0] != c.file[s.fpos]
    ensures Legal(c, s, sts) && Run(c, s, sts).root.Mismatch?
  {
    var a := Carry(c, s, c.n);
    var t := Run(c, s, a);
    var b := NextBlock(c, t, 1, 1);
    Append(c, s, a, b);
    sts := a + b;
    assert t.pipes[c.n][..1] == s.pipes[0] && c.file[s.fpos..s.fpos + 1][0] == c.file[s.fpos];
  }

  lemma Fails(c: Config, s: State) returns (sts: seq<Step>)
    requires Valid(c) && !c.intended && Initial(c, s) && !Harmless(c.file)
    ensures Legal(c, s, sts) && Run(c, s, sts).root.Mismatch?
  {
    var p := SomePlaceShows(c.file);
    InitialRest(c, s);
    var a := Deliver(c, s, p);
    var s1 := Run(c, s, a);
    var d := ShortRead(c, s1, 2);
    Append(c, s, a, d);
    sts := a + d;
    var s2, b := Run(c, s1, d), c.file[p..p + 2];
    ComparesExactly(b, b[..1], 0);
    if !s2.root.Mismatch? {
      assert b[0] == '\0' || b[1] == '\0';
      var e := NextBlockShows(c, s2);
      Append(c, s, sts, e);
      sts := sts + e;
    }
  }

  /** The exact condition: with the line as written, no run on a file ever fails a comparison
      if and only if the file is harmless. */
  lemma PassesExactlyIfHarmless(c: Config, s: State)
    requires Valid(c) && !c.intended && Initial(c, s)
    ensures Harmless(c.file) <==> forall sts :: Legal(c, s, sts) ==> !Run(c, s, sts).root.Mismatch?
  {
    if Harmless(c.file) {
      InitialFlows(c, s);
      forall sts | Legal(c, s, sts) ensures !Run(c, s, sts).root.Mismatch? { CalmRun(c, s, sts); }
    } else {
      var sts := Fails(c, s);
      assert Run(c, s, sts).root.Mismatch?;
    }
  }

  /** For a text, that is one of at most one byte. */
  lemma HarmlessText(file: string)
    requires '\0' !in file
    ensures Harmless(file) <==> |file| <= 1
  {
    if |file| > 1 { assert file[1] in file && file[0] in file; }
  }
}
