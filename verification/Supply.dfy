/** The system never runs out of numbers for pids and pages. */
module Supply {

  lemma {:induction false} NotInUse(used: set<nat>) returns (n: nat)
    ensures n > 0 && n !in used && forall x :: x in used ==> x < n
  {
    n := 1;
    if used == {} {
    } else {
      var x :| x in used;
      n := NotInUse(used - {x});
      if n <= x { n := x + 1; }
      forall y | y in used ensures y < n { assert y == x || y in used - {x}; }
    }
  }
}
