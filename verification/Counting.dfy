/** Finite counting: distinct numbers below n are at most n, and masked ring positions. */
module Counting {

  predicate NoDup<T(==)>(q: seq<T>) {
    forall i, j :: 0 <= i < j < |q| ==> q[i] != q[j]
  }

  function Below(n: nat): (s: set<nat>)
    ensures |s| == n && forall i: nat :: i in s <==> i < n
  {
    if n == 0 then {} else Below(n - 1) + {n - 1}
  }

  ghost function Members(q: seq<nat>): (s: set<nat>)
    requires NoDup(q)
    ensures |s| == |q| && forall x :: x in s <==> x in q
  {
    if q == [] then {}
    else
      assert forall x :: x in q <==> x == q[0] || x in q[1..];
      Members(q[1..]) + {q[0]}
  }

  lemma SubsetSize(a: set<nat>, b: set<nat>)
    requires a <= b
    ensures |a| <= |b|
  {
    assert b == a + (b - a);
  }

  /** Distinct numbers below n that miss k are fewer than n. */
  lemma Pigeonhole(q: seq<nat>, n: nat, k: nat)
    requires NoDup(q) && k < n && k !in q && forall x :: x in q ==> x < n
    ensures |q| < n
  {
    SubsetSize(Members(q) + {k}, Below(n));
  }

  /** Indices less than n apart fall on different places of a ring of size n. */
  lemma ModApart(a: nat, d: nat, n: nat)
    requires 0 < d < n
    ensures (a + d) % n != a % n
  {
    var x, y := a / n, (a + d) / n;
    assert a == n * x + a % n && a + d == n * y + (a + d) % n;
    if y == x {
    } else if y > x {
      assert n * y >= n * (x + 1);
    } else {
      assert n * x >= n * (y + 1);
    }
  }
}
