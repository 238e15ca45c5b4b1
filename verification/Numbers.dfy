/** A number that is not in use yet. */
module Numbers {

  lemma Unused(used: set<nat>) returns (d: nat)
    ensures d !in used
  {
    d := Above(used);
  }

  lemma {:induction false} Above(used: set<nat>) returns (d: nat)
    ensures forall x :: x in used ==> x < d
    decreases |used|
  {
    if used == {} {
      d := 0;
    } else {
      var x :| x in used;
      var e := Above(used - {x});
      d := if x < e then e else x + 1;
      assert forall y :: y in used ==> y == x || y in used - {x};
    }
  }
}
