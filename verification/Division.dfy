/** Quotients and remainders: indices that are laid out row by row, or taken modulo a size. */
module Division {

  /** Index t = i*n + q splits back into iteration i and participant q. */
  lemma SplitIndex(i: nat, q: nat, n: nat)
    requires q < n
    ensures (i * n + q) / n == i && (i * n + q) % n == q
  {
    var t := i * n + q;
    var a, b := t / n, t % n;
    assert t == n * a + b;
    assert n * a == a * n;
    Unique(a - i, q - b, n);
  }

  lemma Unique(d: int, r: int, n: int)
    requires n > 0 && d * n == r && -n < r < n
    ensures d == 0 && r == 0
  {
  }

  /** Different numbers less than n apart have different remainders. */
  lemma Remainders(i: nat, j: nat, n: nat)
    requires i < j < i + n
    ensures i % n != j % n
  {
    var a, b := i / n, j / n;
    assert i == n * a + i % n && j == n * b + j % n;
    assert (b - a) * n == n * b - n * a;
    if i % n == j % n { Unique(b - a, j - i, n); }
  }

  /** One number among n in a row has remainder r. */
  lemma Reach(first: nat, n: nat, r: nat) returns (i: nat)
    requires r < n
    ensures first <= i < first + n && i % n == r
  {
    var q := if first % n <= r then first / n else first / n + 1;
    assert first == n * (first / n) + first % n;
    i := q * n + r;
    SplitIndex(q, r, n);
  }
}
