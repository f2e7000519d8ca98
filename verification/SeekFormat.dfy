/** The records of basics/seek.c are C strings, and no two participants share one, so a turn
    taken by the wrong participant would be noticed by the comparisons. */
module SeekFormat {
  import opened SeekTurns

  lemma {:induction false} DecimalDigits(n: nat)
    ensures forall i :: 0 <= i < |Decimal(n)| ==> '0' <= Decimal(n)[i] <= '9'
  {
    if n >= 10 { DecimalDigits(n / 10); }
  }

  lemma {:induction false} DecimalInjective(a: nat, b: nat)
    requires Decimal(a) == Decimal(b)
    ensures a == b
  {
    var da, db := Decimal(a), Decimal(b);
    if a >= 10 && b >= 10 {
      assert da[..|da| - 1] == Decimal(a / 10) && db[..|db| - 1] == Decimal(b / 10);
      DecimalInjective(a / 10, b / 10);
    } else if a < 10 && b < 10 {
    }
  }

  lemma PadSeparates(s: string, t: string)
    requires |s| < |t| && t[0] != ' '
    ensures Pad8(s) != Pad8(t)
  {
    if |t| <= 8 {
      assert Pad8(s)[8 - |t|] == ' ' && Pad8(t)[8 - |t|] == t[0];
    }
  }

  lemma PadInjective(s: string, t: string)
    requires |s| > 0 && |t| > 0 && s[0] != ' ' && t[0] != ' ' && s != t
    ensures Pad8(s) != Pad8(t)
  {
    if |s| < |t| {
      PadSeparates(s, t);
    } else if |t| < |s| {
      PadSeparates(t, s);
    } else {
      assert Pad8(s)[|Pad8(s)| - |s|..] == s && Pad8(t)[|Pad8(t)| - |t|..] == t;
    }
  }

  /** What is printed for a participant, before padding. */
  function Label(q: nat): string { if q == 0 then "ROOT" else Decimal(q - 1) }

  lemma LabelsDiffer(p: nat, q: nat)
    requires p < q
    ensures Label(p) != Label(q)
    ensures Label(p)[0] != ' ' && Label(q)[0] != ' '
  {
    DecimalDigits(q - 1);
    if p == 0 {
      assert "ROOT"[0] == 'R' && Decimal(q - 1)[0] != 'R';
    } else {
      DecimalDigits(p - 1);
      if Decimal(p - 1) == Decimal(q - 1) { DecimalInjective(p - 1, q - 1); }
    }
  }

  lemma RecordsDiffer(p: nat, q: nat)
    requires p != q
    ensures Record(p) != Record(q)
  {
    var a, b := if p < q then p else q, if p < q then q else p;
    LabelsDiffer(a, b);
    PadInjective(Label(a), Label(b));
  }

  lemma ProgramConfigValid(mode: Mode, ntasks: nat, niters: nat)
    ensures Valid(ProgramConfig(mode, ntasks, niters))
  {
    forall q: nat ensures |Record(q)| > 0 && '\0' !in Record(q) {
      if q > 0 { DecimalDigits(q - 1); }
    }
  }

  // ----- what a record says -----

  /** The number that a decimal text stands for. */
  function Value(s: string): int {
    if s == "" then 0 else 10 * Value(s[..|s| - 1]) + (s[|s| - 1] as int - '0' as int)
  }

  /** `s` is number k in decimal, without leading zeros. */
  ghost predicate IsNumeral(s: string, k: nat) {
    && s != "" && (forall i :: 0 <= i < |s| ==> '0' <= s[i] <= '9')
    && (s[0] == '0' ==> |s| == 1) && Value(s) == k
  }

  lemma {:induction false} DecimalIsNumeral(k: nat)
    ensures IsNumeral(Decimal(k), k)
    ensures k > 0 ==> Decimal(k)[0] != '0'
  {
    var d := Decimal(k);
    DecimalDigits(k);
    if k >= 10 {
      DecimalIsNumeral(k / 10);
      assert d[..|d| - 1] == Decimal(k / 10) && d[0] == Decimal(k / 10)[0];
      assert Value(d) == 10 * Value(Decimal(k / 10)) + k % 10;
    } else {
      assert d[..0] == "" && Value(d) == 10 * Value("") + k;
    }
  }

  lemma {:induction false} ValueGrows(s: string)
    requires s != "" && forall i :: 0 <= i < |s| ==> '0' <= s[i] <= '9'
    ensures Value(s) >= 0 && (s[0] != '0' ==> Value(s) > 0)
  {
    if |s| > 1 { ValueGrows(s[..|s| - 1]); }
  }

  /** There is only one way to write a number. */
  lemma {:induction false} NumeralIsUnique(s: string, t: string, k: nat)
    requires IsNumeral(s, k) && IsNumeral(t, k)
    ensures s == t
    decreases |s|
  {
    var a, b := s[..|s| - 1], t[..|t| - 1];
    assert s == a + [s[|s| - 1]] && t == b + [t[|t| - 1]];
    if a != "" { ValueGrows(a); }
    if b != "" { ValueGrows(b); }
    assert Value(a) == k / 10 == Value(b) && s[|s| - 1] == t[|t| - 1];
    if a != "" && b != "" { NumeralIsUnique(a, b, k / 10); }
  }

  /** The record of task k is k in decimal, right-aligned in eight places or more if it needs them;
      root's is its name. */
  lemma RecordMeans(k: nat)
    ensures Record(0) == "    ROOT"
    ensures var r := Record(k + 1); |r| >= 8 && exists j ::
      && 0 <= j < |r| && (forall i :: 0 <= i < j ==> r[i] == ' ') && IsNumeral(r[j..], k) && (j > 0 ==> |r| == 8)
  {
    var d, r := Decimal(k), Record(k + 1);
    DecimalIsNumeral(k);
    assert r[|r| - |d|..] == d;
  }

  /** The program gives its participants these records. */
  lemma ProgramRecords(mode: Mode, ntasks: nat, niters: nat, q: nat)
    requires q <= ntasks
    ensures var c := ProgramConfig(mode, ntasks, niters);
      c.mode == mode && c.niters == niters && c.Parties() == ntasks + 1 && Rec(c, q) == Record(q)
  {
  }
}
