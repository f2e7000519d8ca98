/** Sums over sequences: the counting argument behind barriers, countdowns and ranks. */
module Sums {

  function Sum(s: seq<int>): int {
    if s == [] then 0 else s[0] + Sum(s[1..])
  }

  /** Replacing one entry changes the sum by the difference. */
  lemma {:induction false} SumUpdate(s: seq<int>, i: nat, x: int)
    requires i < |s|
    ensures Sum(s[i := x]) == Sum(s) - s[i] + x
  {
    if i == 0 {
      assert s[0 := x][1..] == s[1..];
    } else {
      assert s[i := x][1..] == s[1..][i - 1 := x];
      SumUpdate(s[1..], i - 1, x);
    }
  }

  /** A sum of entries at most `c` reaches its bound only when every entry is `c`. */
  lemma {:induction false} SumAtMost(s: seq<int>, c: int)
    requires forall i :: 0 <= i < |s| ==> s[i] <= c
    ensures Sum(s) <= |s| * c
    ensures Sum(s) == |s| * c ==> forall i :: 0 <= i < |s| ==> s[i] == c
  {
    if s == [] {
    } else {
      SumAtMost(s[1..], c);
      assert |s| * c == |s[1..]| * c + c;
      if Sum(s) == |s| * c {
        assert s[0] == c;
        forall i | 0 <= i < |s| ensures s[i] == c {
          if i > 0 { assert s[i] == s[1..][i - 1]; }
        }
      }
    }
  }

  /** A sum of non-negative entries is non-negative and bounds each of them. */
  lemma {:induction false} SumBoundsEntry(s: seq<int>, i: nat)
    requires i < |s|
    requires forall j :: 0 <= j < |s| ==> s[j] >= 0
    ensures Sum(s) >= s[i]
  {
    SumNonNegative(s[1..]);
    if i == 0 {
    } else {
      SumBoundsEntry(s[1..], i - 1);
    }
  }

  lemma {:induction false} SumNonNegative(s: seq<int>)
    requires forall j :: 0 <= j < |s| ==> s[j] >= 0
    ensures Sum(s) >= 0
  {
    if s == [] {
    } else {
      SumNonNegative(s[1..]);
    }
  }

  lemma {:induction false} SumSame(s: seq<int>, c: int)
    requires forall i :: 0 <= i < |s| ==> s[i] == c
    ensures Sum(s) == |s| * c
  {
    if s == [] {
    } else {
      SumSame(s[1..], c);
      assert |s| * c == |s[1..]| * c + c;
    }
  }

  /** A rank made of one entry for each participant drops when one entry does. */
  lemma SumDrops(a: seq<int>, b: seq<int>, p: nat)
    requires p < |a| == |b| && b == a[p := b[p]] && b[p] < a[p]
    ensures Sum(b) < Sum(a)
  {
    SumUpdate(a, p, b[p]);
  }
}
