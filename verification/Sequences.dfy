/** Gluing sequences: what a run has done so far, and what it does next. */
module Sequences {

  lemma Associates<T>(a: seq<T>, b: seq<T>, d: seq<T>)
    ensures a + b + d == a + (b + d)
  {
  }

  lemma NothingMore<T>(a: seq<T>)
    ensures a + [] == a && [] + a == a
  {
  }
}
