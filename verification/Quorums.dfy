/** Majorities of the servers 0 to n - 1. */
module Quorums {

  function Majority(n: nat): nat { n / 2 + 1 }

  function Everyone(n: nat): (all: set<nat>)
    ensures forall p: nat :: p in all <==> p < n
    ensures |all| == n
  {
    if n == 0 then {} else Everyone(n - 1) + {n - 1}
  }

  lemma {:induction false} SubsetSize<T>(a: set<T>, b: set<T>)
    requires a <= b
    ensures |a| <= |b|
  {
    if a != {} {
      var x :| x in a;
      SubsetSize(a - {x}, b - {x});
    }
  }

  /** Two majorities share a server. */
  lemma Overlap(a: set<nat>, b: set<nat>, n: nat) returns (p: nat)
    requires a <= Everyone(n) && b <= Everyone(n)
    requires |a| >= Majority(n) && |b| >= Majority(n)
    ensures p in a && p in b
  {
    if a * b == {} {
      assert |a + b| == |a| + |b|;
      SubsetSize(a + b, Everyone(n));
      assert false;
    }
    p :| p in a * b;
  }
}
