/**
 my_read and my_write of basics/seek.c: loops around read() and write(), which may move
 fewer bytes than asked for, report the end of the file, or fail.
 */
module SeekTransfer {
  import opened T = SeekTurns

  /** The kernel's answer to a request for `want` bytes when `left` are available: `grant`
      limits it, and a grant below 1 is an error or an end of file. A loop never needs more answers than
      bytes, since each one it goes on after moved at least one byte. */
  function Answer(left: nat, want: nat, grant: int): (cc: int)
    ensures cc <= left && cc <= want
  {
    if grant <= 0 then grant
    else if grant <= left && grant <= want then grant
    else if left <= want then left else want
  }

  /** The bytes moved by the k-th and later calls of a transfer loop that still wants `want`. */
  function Total(left: nat, want: nat, grants: seq<int>, k: nat): (n: nat)
    requires k + want <= |grants|
    ensures n <= left && n <= want
    decreases want
  {
    if want == 0 then 0
    else
      var cc := Answer(left, want, grants[k]);
      if cc <= 0 then 0 else cc + Total(left - cc, want - cc, grants, k + 1)
  }

  /** What the loop returns: the count moved, or the first call's answer if it moved nothing. */
  function Result(left: nat, want: nat, grants: seq<int>): int
    requires want <= |grants|
  {
    var n := Total(left, want, grants, 0);
    if want > 0 && n == 0 then Answer(left, want, grants[0]) else n
  }

  /** How the first call ends: an error or an end of file is returned as it is; any other first call
      has moved something, and so has the loop. */
  predicate Reports(r: int, left: nat, want: nat, grants: seq<int>) {
    && (want == 0 ==> r == 0)
    && (want > 0 && want <= |grants| ==>
          if grants[0] <= 0 then r == grants[0] else if left == 0 then r == 0 else r > 0)
  }

  lemma ResultReports(left: nat, want: nat, grants: seq<int>)
    requires want <= |grants|
    ensures Reports(Result(left, want, grants), left, want, grants)
  {
  }

  /** As long as no call fails, the number of pieces does not matter: everything that is
      available and wanted is moved. */
  lemma {:induction false} NoCallFails(left: nat, want: nat, grants: seq<int>, k: nat)
    requires k + want <= |grants| && forall j :: 0 <= j < |grants| ==> grants[j] > 0
    ensures Total(left, want, grants, k) == if left <= want then left else want
    decreases want
  {
    if want == 0 {
    } else {
      var cc := Answer(left, want, grants[k]);
      if cc > 0 { NoCallFails(left - cc, want - cc, grants, k + 1); }
    }
  }

  /** A positive but short count means that a later call returned 0 or failed. */
  lemma {:induction false} ShortMeansStopped(left: nat, want: nat, grants: seq<int>, k: nat) returns (j: nat)
    requires k + want <= |grants| && Total(left, want, grants, k) < want
    ensures k <= j < |grants|
    ensures grants[j] <= 0 || Total(left, want, grants, k) == left
    decreases want
  {
    var cc := Answer(left, want, grants[k]);
    if cc <= 0 {
      j := k;
    } else {
      j := ShortMeansStopped(left - cc, want - cc, grants, k + 1);
    }
  }

  /** An open file: what dup'ed and inherited descriptors share. */
  class OpenFile {
    var contents: string
    var offset: nat

    ghost predicate Valid() reads this { offset <= |contents| }

    constructor (contents: string)
      ensures Valid() && this.contents == contents && offset == 0
    {
      this.contents, offset := contents, 0;
    }

    method Read(buff: array<char>, p: nat, l: nat, grant: int) returns (cc: int)
      requires Valid() && p + l <= buff.Length
      modifies this`offset, buff
      ensures Valid() && cc == Answer(|contents| - old(offset), l, grant)
      ensures cc <= 0 ==> offset == old(offset) && buff[..] == old(buff[..])
      ensures cc > 0 ==> offset == old(offset) + cc
                         && buff[..] == Splice(old(buff[..]), p, contents[old(offset)..old(offset) + cc])
    {
      cc := Answer(|contents| - offset, l, grant);
      if cc > 0 {
        ghost var before := buff[..];
        forall i | 0 <= i < cc { buff[p + i] := contents[offset + i]; }
        assert buff[..] == Splice(before, p, contents[offset..offset + cc]);
        offset := offset + cc;
      }
    }

    method Write(buff: string, p: nat, l: nat, grant: int) returns (cc: int)
      requires Valid() && p + l <= |buff|
      modifies this
      ensures Valid() && cc == Answer(l, l, grant)
      ensures cc <= 0 ==> offset == old(offset) && contents == old(contents)
      ensures cc > 0 ==> offset == old(offset) + cc
                         && contents == Overwrite(old(contents), old(offset), buff[p..p + cc])
    {
      cc := Answer(l, l, grant);
      if cc > 0 {
        contents := Overwrite(contents, offset, buff[p..p + cc]);
        offset := offset + cc;
      }
    }
  }

  method MyRead(fd: OpenFile, buff: array<char>, len: nat, grants: seq<int>) returns (r: int)
    requires fd.Valid() && len <= buff.Length && len <= |grants|
    modifies fd`offset, buff
    ensures fd.Valid() && r == Result(|fd.contents| - old(fd.offset), len, grants)
    ensures r <= len && r <= |fd.contents| - old(fd.offset)
    ensures Reports(r, |fd.contents| - old(fd.offset), len, grants)
    ensures HasRead(fd.contents, fd.offset, buff[..],
                    old(buff[..]), old(fd.contents), old(fd.offset), if r <= 0 then 0 else r)
  {
    var p: nat, l: nat, k: nat := 0, len, 0;
    ghost var at, was, s := fd.offset, buff[..], fd.contents;
    ghost var n: nat := Total(|s| - at, len, grants, 0);
    ghost var goal := n;
    ResultReports(|s| - at, len, grants);
    while l > 0
      invariant p + l == len && (p > 0 || k == 0) && k + l <= |grants|
      invariant HasRead(fd.contents, fd.offset, buff[..], was, s, at, p)
      invariant goal == p + n && Left(s, at, p, l, grants, k, n)
      decreases l
    {
      var cc := ReadMore(fd, buff, p, l, grants, k, was, s, at, n);
      if cc <= 0 {
        if l == len { return cc; }
        break;
      }
      p, l, k, n := p + cc, l - cc, k + 1, n - cc;
    }
    r := p;
  }

  /** What a read of n bytes makes of the file, its offset and the buffer. */
  ghost predicate HasRead(contents: string, offset: nat, buff: string, was: string, s: string, at: nat, n: nat) {
    && contents == s && offset == at + n && n <= |was| && at + n <= |s|
    && |buff| == |was| && forall i :: 0 <= i < |buff| ==> buff[i] == if i < n then s[at + i] else was[i]
  }

  /** What my_read has yet to move after p bytes. */
  ghost predicate Left(s: string, at: nat, p: nat, l: nat, grants: seq<int>, k: nat, n: nat) {
    at + p <= |s| && k + l <= |grants| && n == Total(|s| - at - p, l, grants, k)
  }

  /** The read() call of the loop. */
  method ReadMore(fd: OpenFile, buff: array<char>, p: nat, l: nat, grants: seq<int>, k: nat,
                  ghost was: string, ghost s: string, ghost at: nat, ghost n: nat)
    returns (cc: int)
    requires l > 0 && k + l <= |grants| && Left(s, at, p, l, grants, k, n)
    requires p + l <= buff.Length == |was| && HasRead(fd.contents, fd.offset, buff[..], was, s, at, p)
    modifies fd`offset, buff
    ensures cc == Answer(|s| - at - p, l, grants[k])
    ensures HasRead(fd.contents, fd.offset, buff[..], was, s, at, if cc <= 0 then p else p + cc)
    ensures if cc <= 0 then n == 0 else n >= cc && Left(s, at, p + cc, l - cc, grants, k + 1, n - cc)
  {
    cc := fd.Read(buff, p, l, grants[k]);
  }

  method MyWrite(fd: OpenFile, buff: string, len: nat, grants: seq<int>) returns (r: int)
    requires fd.Valid() && len <= |buff| && len <= |grants|
    modifies fd
    ensures fd.Valid() && r == Result(len, len, grants)
    ensures r <= len && Reports(r, len, len, grants)
    ensures r <= 0 ==> fd.offset == old(fd.offset) && fd.contents == old(fd.contents)
    ensures r > 0 ==> fd.offset == old(fd.offset) + r
                      && fd.contents == Overwrite(old(fd.contents), old(fd.offset), buff[..r])
  {
    var p: nat, l: nat, k: nat := 0, len, 0;
    ghost var at, was, goal := fd.offset, fd.contents, Total(len, len, grants, 0);
    ResultReports(len, len, grants);
    while l > 0
      invariant p + l == len && fd.Valid() && fd.offset == at + p
      invariant fd.contents == Overwrite(was, at, buff[..p])
      invariant (p > 0 || k == 0) && k + l <= |grants|
      invariant goal == p + Total(l, l, grants, k)
      decreases l
    {
      var cc := WriteMore(fd, buff, p, l, grants[k], was, at);
      if cc <= 0 {
        if l == len { return cc; }
        break;
      }
      p, l, k := p + cc, l - cc, k + 1;
    }
    r := p;
  }

  method WriteMore(fd: OpenFile, buff: string, p: nat, l: nat, grant: int, ghost was: string, ghost at: nat)
    returns (cc: int)
    requires fd.Valid() && p + l <= |buff| && fd.offset == at + p && at <= |was|
    requires fd.contents == Overwrite(was, at, buff[..p])
    modifies fd
    ensures fd.Valid() && cc == Answer(l, l, grant)
    ensures var n := if cc <= 0 then p else p + cc;
      fd.offset == at + n && fd.contents == Overwrite(was, at, buff[..n])
  {
    cc := fd.Write(buff, p, l, grant);
    if cc > 0 { WritesJoin(was, buff, at, p, cc); }
  }

  lemma WritesJoin(was: string, buff: string, at: nat, p: nat, cc: nat)
    requires at <= |was| && p + cc <= |buff|
    ensures at + p <= |Overwrite(was, at, buff[..p])|
    ensures Overwrite(Overwrite(was, at, buff[..p]), at + p, buff[p..p + cc]) == Overwrite(was, at, buff[..p + cc])
  {
    var x := Overwrite(was, at, buff[..p]);
    var y, z := Overwrite(x, at + p, buff[p..p + cc]), Overwrite(was, at, buff[..p + cc]);
    OverwriteAt(was, at, buff[..p]);
    OverwriteAt(x, at + p, buff[p..p + cc]);
    OverwriteAt(was, at, buff[..p + cc]);
    assert |y| == |z| && forall i :: 0 <= i < |y| ==> y[i] == z[i];
  }

  lemma OverwriteAt(s: string, at: nat, bytes: string)
    requires at <= |s|
    ensures var t := Overwrite(s, at, bytes);
      && |t| == (if at + |bytes| <= |s| then |s| else at + |bytes|)
      && forall i :: 0 <= i < |t| ==> t[i] == if at <= i < at + |bytes| then bytes[i - at] else s[i]
  {
  }

  /** What my_write put down, my_read gets back after an lseek to the same place, however
      either was cut into pieces. */
  method WriteThenRead(fd: OpenFile, buff: string, check: array<char>, len: nat, w: seq<int>, g: seq<int>)
    returns (n: int, m: int)
    requires fd.Valid() && 0 < len <= |buff| && len <= check.Length
    requires len <= |w| && len <= |g|
    requires (forall k :: 0 <= k < |w| ==> w[k] > 0) && (forall k :: 0 <= k < |g| ==> g[k] > 0)
    modifies fd, check
    ensures n == m == len && check[..len] == buff[..len]
  {
    var at := fd.offset;
    ghost var was := fd.contents;
    n := MyWrite(fd, buff, len, w);
    NoCallFails(len, len, w, 0);
    OverwriteAt(was, at, buff[..len]);
    fd.offset := at;
    m := MyRead(fd, check, len, g);
    NoCallFails(|fd.contents| - at, len, g, 0);
  }
}
