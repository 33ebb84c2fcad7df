/** The chain of a hash bucket as the source keeps it: a head pointer, and next and previous pointers in the probes. */
module ProbeLinks {
  import opened Options
  import opened ProbeHash

  function Nth(q: seq<nat>, i: int): Option<nat> {
    if 0 <= i < |q| then Some(q[i]) else None
  }

  /** The pointers link the probes of q in order, each once. */
  predicate Linked(head: Option<nat>, next: map<nat, nat>, prev: map<nat, nat>, q: seq<nat>) {
    && head == Nth(q, 0)
    && (forall i, j :: 0 <= i < j < |q| ==> q[i] != q[j])
    && (forall i :: 0 <= i < |q| ==> Get(next, q[i]) == Nth(q, i + 1) && Get(prev, q[i]) == Nth(q, i - 1))
  }

  /** A pointer field; NULL if it is not in the map. */
  function Get(field: map<nat, nat>, p: nat): Option<nat> {
    if p in field then Some(field[p]) else None
  }

  /** Storing to a pointer field. */
  function Put(field: map<nat, nat>, p: nat, o: Option<nat>): (r: map<nat, nat>)
    ensures Get(r, p) == o && forall x :: x != p ==> Get(r, x) == Get(field, x)
  {
    match o
    case Some(v) => field[p := v]
    case None => map x | x in field && x != p :: field[x]
  }

  /** Two pointer fields agree outside the probes of q. */
  ghost predicate SameOutside(field: map<nat, nat>, field': map<nat, nat>, q: seq<nat>) {
    forall x :: x !in q ==> Get(field', x) == Get(field, x)
  }

  /** One hash: its probes' pointers, and one bucket at a time. */
  class Links {
    var next: map<nat, nat>
    var prev: map<nat, nat>

    constructor ()
      ensures next == map[] && prev == map[]
    {
      next, prev := map[], map[];
    }

    /** The end of dtrace_hash_add: a new probe goes to the front of the chain, and no other chain is touched. */
    method Push(head: Option<nat>, p: nat, ghost q: seq<nat>) returns (head': Option<nat>)
      requires Linked(head, next, prev, q) && p !in q && Get(next, p) == None && Get(prev, p) == None
      modifies this
      ensures Linked(head', next, prev, [p] + q)
      ensures SameOutside(old(next), next, [p] + q) && SameOutside(old(prev), prev, [p] + q)
    {
      next := Put(next, p, head);
      if head.Some? {
        assert q[0] == head.v && Get(old(prev), q[0]) == None;
        prev := Put(prev, head.v, Some(p));
      }
      head' := Some(p);
      Pushed(head, old(next), old(prev), next, prev, q, p);
    }

    /** dtrace_hash_remove once the bucket is found: the probe is unlinked where it stands, and no other chain is
        touched.  The bucket goes when the chain is empty. */
    method Unlink(head: Option<nat>, p: nat, ghost q: seq<nat>, ghost i: nat) returns (head': Option<nat>)
      requires Linked(head, next, prev, q) && i < |q| && q[i] == p
      modifies this
      ensures Linked(head', next, prev, q[..i] + q[i + 1..]) && (head'.None? <==> q == [p])
      ensures SameOutside(old(next), next, q) && SameOutside(old(prev), prev, q)
    {
      head' := head;
      var pp, pn := Get(prev, p), Get(next, p);
      assert pp == Nth(q, i - 1) && pn == Nth(q, i + 1);
      if pp.None? {
        if pn.None? {
          assert q[..i] + q[i + 1..] == [];
          head' := None;
          return;
        }
        head' := pn;
      } else {
        next := Put(next, pp.v, pn);
      }
      if pn.Some? {
        prev := Put(prev, pn.v, pp);
      }
      Unlinked(head, old(next), old(prev), head', next, prev, q, i);
    }

    /** The same on the chain of a bucket: the pointers come to link the chain that Hash.Add leaves. */
    method PushProbe(head: Option<nat>, p: Probe, ghost chain: seq<Probe>) returns (head': Option<nat>)
      requires Linked(head, next, prev, Ids(chain)) && p.id !in Ids(chain) && Get(next, p.id) == None &&
          Get(prev, p.id) == None
      modifies this
      ensures Linked(head', next, prev, Ids([p] + chain))
      ensures SameOutside(old(next), next, Ids([p] + chain)) && SameOutside(old(prev), prev, Ids([p] + chain))
    {
      head' := Push(head, p.id, Ids(chain));
      assert Ids([p] + chain) == [p.id] + Ids(chain);
    }

    /** The same on the chain of a bucket: the pointers come to link the chain that Hash.Remove leaves. */
    method UnlinkProbe(head: Option<nat>, p: Probe, ghost chain: seq<Probe>) returns (head': Option<nat>)
      requires Linked(head, next, prev, Ids(chain)) && p in chain
      modifies this
      ensures Linked(head', next, prev, Ids(Minus(chain, p))) && (head'.None? <==> Minus(chain, p) == [])
      ensures SameOutside(old(next), next, Ids(chain)) && SameOutside(old(prev), prev, Ids(chain))
    {
      ghost var i :| 0 <= i < |chain| && chain[i] == p;
      head' := Unlink(head, p.id, Ids(chain), i);
      IdsMinus(chain, i);
    }
  }

  function Ids(chain: seq<Probe>): (q: seq<nat>)
    ensures |q| == |chain| && forall i :: 0 <= i < |q| ==> q[i] == chain[i].id
  {
    seq(|chain|, i requires 0 <= i < |chain| => chain[i].id)
  }

  lemma IdsMinus(chain: seq<Probe>, i: nat)
    requires i < |chain| && forall a, b :: 0 <= a < b < |chain| ==> Ids(chain)[a] != Ids(chain)[b]
    ensures Ids(Minus(chain, chain[i])) == Ids(chain)[..i] + Ids(chain)[i + 1..]
    ensures Minus(chain, chain[i]) == [] <==> Ids(chain) == [chain[i].id]
  {
    hide Minus;
    MinusAt(chain, i);
  }

  /** Where no two probes have the same identifier, taking one out by value is taking it out where it stands. */
  lemma {:induction false} MinusAt(chain: seq<Probe>, i: nat)
    requires i < |chain| && forall a, b :: 0 <= a < b < |chain| ==> Ids(chain)[a] != Ids(chain)[b]
    ensures Minus(chain, chain[i]) == chain[..i] + chain[i + 1..]
    decreases i
  {
    if i > 0 {
      assert Ids(chain)[0] != Ids(chain)[i];
      forall a, b | 0 <= a < b < |chain| - 1
        ensures Ids(chain[1..])[a] != Ids(chain[1..])[b]
      {
        assert Ids(chain)[a + 1] != Ids(chain)[b + 1];
      }
      MinusAt(chain[1..], i - 1);
      assert chain[..i] + chain[i + 1..] == [chain[0]] + (chain[1..][..i - 1] + chain[1..][i..]);
    }
  }

  lemma Pushed(head: Option<nat>, next: map<nat, nat>, prev: map<nat, nat>, next': map<nat, nat>, prev': map<nat, nat>,
               q: seq<nat>, p: nat)
    requires Linked(head, next, prev, q) && p !in q && Get(prev, p) == None
    requires next' == Put(next, p, head) && prev' == if head.Some? then Put(prev, head.v, Some(p)) else prev
    ensures Linked(Some(p), next', prev', [p] + q)
  {
    var q' := [p] + q;
    forall j | 0 <= j < |q'|
      ensures Get(next', q'[j]) == Nth(q', j + 1) && Get(prev', q'[j]) == Nth(q', j - 1)
    {
      if j > 0 {
        assert q'[j] == q[j - 1] && q[j - 1] in q;
      }
    }
  }

  lemma Unlinked(head: Option<nat>, next: map<nat, nat>, prev: map<nat, nat>,
                 head': Option<nat>, next': map<nat, nat>, prev': map<nat, nat>, q: seq<nat>, i: nat)
    requires Linked(head, next, prev, q) && i < |q|
    requires head' == if i == 0 then Nth(q, 1) else head
    requires next' == if i == 0 then next else Put(next, q[i - 1], Nth(q, i + 1))
    requires prev' == if i + 1 == |q| then prev else Put(prev, q[i + 1], Nth(q, i - 1))
    ensures Linked(head', next', prev', q[..i] + q[i + 1..])
  {
    hide Put, Get, Nth;
    var q' := q[..i] + q[i + 1..];
    Shifted(q, i);
    StillOnce(q, q', i);
    forall j | 0 <= j < |q'|
      ensures Get(next', q'[j]) == Nth(q', j + 1) && Get(prev', q'[j]) == Nth(q', j - 1)
    {
      NextTo(q, q', i, j);
      Apart(q, if j < i then j else j + 1, i);
    }
    FrontIs(q, q', i);
  }

  /** q' is q without entry i. */
  predicate Without(q: seq<nat>, q': seq<nat>, i: nat) {
    i < |q| && |q'| == |q| - 1 && forall j :: 0 <= j < |q'| ==> q'[j] == q[if j < i then j else j + 1]
  }

  lemma Shifted(q: seq<nat>, i: nat)
    requires i < |q|
    ensures Without(q, q[..i] + q[i + 1..], i)
  {
  }

  lemma StillOnce(q: seq<nat>, q': seq<nat>, i: nat)
    requires Without(q, q', i) && forall a, b :: 0 <= a < b < |q| ==> q[a] != q[b]
    ensures forall a, b :: 0 <= a < b < |q'| ==> q'[a] != q'[b]
  {
  }

  /** The neighbours of an entry skip entry i. */
  lemma NextTo(q: seq<nat>, q': seq<nat>, i: nat, j: nat)
    requires Without(q, q', i) && j < |q'|
    ensures var k := if j < i then j else j + 1;
            && q'[j] == q[k]
            && Nth(q', j + 1) == Nth(q, if k + 1 == i then i + 1 else k + 1)
            && Nth(q', j - 1) == Nth(q, if k - 1 == i then i - 1 else k - 1)
  {
  }

  lemma FrontIs(q: seq<nat>, q': seq<nat>, i: nat)
    requires Without(q, q', i)
    ensures Nth(q', 0) == if i == 0 then Nth(q, 1) else Nth(q, 0)
  {
  }

  lemma Apart(q: seq<nat>, k: nat, i: nat)
    requires k < |q| && i < |q| && forall a, b :: 0 <= a < b < |q| ==> q[a] != q[b]
    ensures i > 0 && k != i - 1 ==> q[k] != q[i - 1]
    ensures i + 1 < |q| && k != i + 1 ==> q[k] != q[i + 1]
  {
  }
}
