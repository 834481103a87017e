/** Small facts about numbers that several models need. */
module Numbers {

  function Min(a: int, b: int): int { if a < b then a else b }

  function Max(a: int, b: int): int { if a < b then b else a }

  lemma FreshNat(used: set<nat>) returns (n: nat)
    ensures n !in used
  {
    n := 0;
    if used != {} {
      var most := Greatest(used);
      n := most + 1;
    }
  }

  lemma {:induction false} Greatest(used: set<nat>) returns (most: nat)
    requires used != {}
    ensures forall n <- used :: n <= most
    decreases used
  {
    most :| most in used;
    if used != {most} {
      var other := Greatest(used - {most});
      assert forall n <- used :: n == most || n in used - {most};
      most := if other > most then other else most;
    }
  }
}
