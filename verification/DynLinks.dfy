/** The stores and compare-and-swaps of dtrace_dynvar that link and unlink chunks. */
module DynLinks {
  import opened Options
  import opened Counting
  import opened DynSystem
  import opened DynInvariant
  import opened DynStable
  import opened DynReads

  /** A list none of whose chunks is touched stays as it is. */
  lemma ListFrame(m: Mem, m': Mem, p: Place)
    requires ListOk(m, p) && |m'.nodes| == |m.nodes| && L(m', p) == L(m, p) &&
        (IsList(p) ==> HeadOf(m', p) == HeadOf(m, p))
    requires forall v :: 0 <= v < |m.nodes| && IsList(p) && m.nodes[v].place == p ==>
               m'.nodes[v].place == p && m'.nodes[v].next == m.nodes[v].next && m'.nodes[v].stamp == m.nodes[v].stamp
    ensures ListOk(m', p)
  {
  }

  // ---------------------------------------------------------------- bucket locks

  predicate Locks(m: Mem, c: nat, k: Cpu)
    requires Sized(m, |m.hand|)
  {
    k.pc.Miss? || k.pc.Unlock? || (k.pc.LockCas? && m.lock[Bucket(m, k.key)] == k.lk)
  }

  lemma LockBucket(m: Mem, n: nat, c: nat, k: Cpu, a: nat)
    requires MemOk(m, n) && CpuOk(m, n, c, k) && Ready(m, n, c, k) && Locks(m, c, k) && a < |m.lock|
    ensures BucketOk(GoMem(m, n, c, k), a)
  {
    hide ListOk, NodeOk, Unique, WalkOk, AllocOk, SafeOk, ListsOk, ClOk, HandOk;
    assert BucketOk(m, Bucket(m, k.key)) && BucketOk(m, a);
  }

  lemma LockMem(m: Mem, n: nat, c: nat, k: Cpu)
    requires MemOk(m, n) && CpuOk(m, n, c, k) && Ready(m, n, c, k) && Locks(m, c, k)
    ensures MemOk(GoMem(m, n, c, k), n)
  {
    hide ListOk, NodeOk, Unique, CpuOk, ListsOk, BucketOk;
    var m' := GoMem(m, n, c, k);
    forall p
      ensures ListOk(m', p)
    {
      assert ListOk(m, p);
      ListFrame(m, m', p);
    }
    forall v | 0 <= v < |m.nodes|
      ensures NodeOk(m', v)
    {
      NodeFrame(m, m', v);
    }
    forall d | 0 <= d < n
      ensures ListsOk(m', d)
    {
      ListsFrame(m, m', n, d);
    }
    forall a | 0 <= a < |m.lock|
      ensures BucketOk(m', a)
    {
      LockBucket(m, n, c, k, a);
    }
  }

  lemma NodeFrame(m: Mem, m': Mem, v: nat)
    requires v < |m.nodes| && NodeOk(m, v) && m'.nodes == m.nodes && m'.lists == m.lists && m'.gone == m.gone &&
        m'.hand == m.hand && m'.clock == m.clock && |m'.chain| == |m.chain|
    ensures NodeOk(m', v)
  {
  }

  lemma ListsFrame(m: Mem, m': Mem, n: nat, d: nat)
    requires Sized(m, n) && Sized(m', n) && d < n && ListsOk(m, d) && m'.nodes == m.nodes && m'.lists == m.lists &&
        m'.cl == m.cl
    requires m'.mover == m.mover && m'.moving == m.moving && m'.clean == m.clean && m'.free == m.free &&
        m'.hand == m.hand && m'.rinsing == m.rinsing
    ensures ListsOk(m', d)
  {
  }

  lemma LockChange(m: Mem, n: nat, c: nat, k: Cpu, e: nat)
    requires MemOk(m, n) && CpuOk(m, n, c, k) && Ready(m, n, c, k) && Locks(m, c, k) && e < n && e != c
    ensures Change(m, GoMem(m, n, c, k), n, e)
  {
    hide ListOk, Unique, WalkOk, AllocOk, SafeOk, ListsOk, ClOk, Follows, MarkOk, Sweeping, HandOk;
    var m', b := GoMem(m, n, c, k), Bucket(m, k.key);
    assert BucketOk(m, b);
    StampBound(m, n);
    assert forall d :: Pending(m', d) <==> Pending(m, d);
  }

  lemma StampBound(m: Mem, n: nat)
    requires MemOk(m, n)
    ensures forall v :: 0 <= v < |m.nodes| ==> m.nodes[v].stamp <= m.clock
  {
    hide ListOk, Unique, ListsOk, ClOk, Follows, MarkOk, Sweeping;
    forall v | 0 <= v < |m.nodes|
      ensures m.nodes[v].stamp <= m.clock
    {
      assert NodeOk(m, v);
    }
  }

  lemma LockOwn(m: Mem, n: nat, c: nat, k: Cpu, yes: bool)
    requires MemOk(m, n) && CpuOk(m, n, c, k) && Ready(m, n, c, k) && Locks(m, c, k)
    ensures CpuOk(GoMem(m, n, c, k), n, c, GoCpu(m, n, c, k, yes))
  {
    hide ListOk, NodeOk, Unique, ListsOk, ClOk, Ahead;
    assert BucketOk(m, Bucket(m, k.key));
  }

  // ---------------------------------------------------------------- unlinking a chunk

  lemma {:induction false} WithoutAt(q: seq<nat>, i: nat)
    requires NoDup(q) && i < |q|
    ensures Without(q, q[i]) == q[..i] + q[i + 1..]
  {
    if i > 0 {
      assert q[1..][i - 1] == q[i] && NoDup(q[1..]);
      WithoutAt(q[1..], i - 1);
      assert q[0] != q[i];
      assert q[..i] + q[i + 1..] == [q[0]] + (q[1..][..i - 1] + q[1..][i..]);
    }
  }

  /** The deallocator is about to swing the pointer that leads to its chunk. */
  ghost predicate Unlinks(m: Mem, n: nat, c: nat, k: Cpu) {
    && MemOk(m, n) && CpuOk(m, n, c, k) && Ready(m, n, c, k) && k.pc.UnlinkStore?
    && (k.prev.At? || m.chain[Bucket(m, k.key)] == k.start)
  }

  /** v is the i-th chunk of chain b, prev leads to it and nx is what it leads to. */
  predicate CutOk(m: Mem, b: nat, v: nat, prev: Ref, nx: Ref, i: nat) {
    var q := L(m, Chain(b));
    && b < |m.chain| == |m.gone| && v < |m.nodes| && m.nodes[v].place == Chain(b) && i < |q| && q[i] == v &&
        nx == Nth(q, i + 1, Sink)
    && (i == 0 ==> !prev.At?) && (i > 0 ==> prev == At(q[i - 1]))
    && Linked(m.nodes, Chain(b), q) && Newest(m.nodes, q) && m.chain[b] == At(q[0])
    && Without(q, v) == q[..i] + q[i + 1..]
  }

  lemma UnlinkFacts(m: Mem, n: nat, c: nat, k: Cpu) returns (i: nat)
    requires Unlinks(m, n, c, k)
    ensures var b := Bucket(m, k.key);
            Points(m, k.dvar) && CutOk(m, b, k.dvar.n, k.prev, k.nx, i) && m.holder[b] == Some(c) && m.gone[b].None?
  {
    hide MemOk, WalkOk, HandOk, AllocOk, SafeOk, Without;
    var b := Bucket(m, k.key);
    var q, v := L(m, Chain(b)), k.dvar.n;
    i := Position(m, n, v);
    WithoutAt(q, i);
    if k.prev.At? {
      var j := Position(m, n, k.prev.n);
      assert At(v) == Nth(q, j + 1, Sink);
      assert q[j + 1] == v;
      assert j + 1 == i;
    }
  }

  lemma CutNodes(m: Mem, b: nat, v: nat, prev: Ref, nx: Ref, i: nat)
    requires CutOk(m, b, v, prev, nx, i)
    ensures prev.At? ==> prev.n < |m.nodes| && prev.n != v && m.nodes[prev.n].place == Chain(b)
    ensures var m' := Unlinked(m, b, v, prev, nx);
            && |m'.nodes| == |m.nodes|
            && forall w :: 0 <= w < |m.nodes| ==>
                 m'.nodes[w] == if w == v then m.nodes[w].(place := Gone(b), pend := Null)
                                else if At(w) == prev then m.nodes[w].(next := nx) else m.nodes[w]
  {
    hide Newest, Without;
  }

  lemma CutAt(q: seq<nat>, i: nat, j: nat, end: Ref)
    requires i < |q| && j <= |q| - 1
    ensures var q' := q[..i] + q[i + 1..]; |q'| == |q| - 1 && Nth(q', j, end) == Nth(q, if j < i then j else j + 1, end)
  {
  }

  lemma CutNoDup(q: seq<nat>, i: nat)
    requires NoDup(q) && i < |q|
    ensures NoDup(q[..i] + q[i + 1..])
  {
    var q' := q[..i] + q[i + 1..];
    assert forall j :: 0 <= j < |q'| ==> q'[j] == q[if j < i then j else j + 1];
  }

  lemma LinkOf(nodes: seq<Node>, p: Place, q: seq<nat>, j: nat)
    requires Linked(nodes, p, q) && j < |q|
    ensures q[j] < |nodes| && nodes[q[j]].place == p && nodes[q[j]].next == Nth(q, j + 1, EndOf(p))
  {
    hide NoDup;
  }

  lemma CutLinkedAt(nodes: seq<Node>, nodes': seq<Node>, p: Place, q: seq<nat>, i: nat, j: nat)
    requires |nodes'| == |nodes| && Linked(nodes, p, q) && i < |q| && j < |q| - 1
    requires forall j :: 0 <= j < |q| && j != i && j != i - 1 ==> q[j] < |nodes| && nodes'[q[j]] == nodes[q[j]]
    requires i > 0 ==> q[i - 1] < |nodes| && nodes'[q[i - 1]] == nodes[q[i - 1]].(next := Nth(q, i + 1, EndOf(p)))
    ensures var q' := q[..i] + q[i + 1..];
            q'[j] < |nodes| && nodes'[q'[j]].next == Nth(q', j + 1, EndOf(p)) &&
            nodes'[q'[j]].place == p
  {
    hide Linked, Nth;
    var o := if j < i then j else j + 1;
    CutElem(q, i, j);
    CutAt(q, i, j + 1, EndOf(p));
    LinkOf(nodes, p, q, o);
  }

  lemma CutElem(q: seq<nat>, i: nat, j: nat)
    requires i < |q| && j < |q| - 1
    ensures (q[..i] + q[i + 1..])[j] == q[if j < i then j else j + 1]
  {
  }

  lemma CutLinked(nodes: seq<Node>, nodes': seq<Node>, p: Place, q: seq<nat>, i: nat)
    requires |nodes'| == |nodes| && Linked(nodes, p, q) && i < |q|
    requires forall j :: 0 <= j < |q| && j != i && j != i - 1 ==> q[j] < |nodes| && nodes'[q[j]] == nodes[q[j]]
    requires i > 0 ==> q[i - 1] < |nodes| && nodes'[q[i - 1]] == nodes[q[i - 1]].(next := Nth(q, i + 1, EndOf(p)))
    ensures Linked(nodes', p, q[..i] + q[i + 1..])
  {
    hide NoDup, Nth;
    CutNoDup(q, i);
    var q' := q[..i] + q[i + 1..];
    forall j | 0 <= j < |q'|
      ensures q'[j] < |nodes| && nodes'[q'[j]].next == Nth(q', j + 1, EndOf(p)) && nodes'[q'[j]].place == p
    {
      CutLinkedAt(nodes, nodes', p, q, i, j);
    }
  }

  lemma CutNewest(nodes: seq<Node>, nodes': seq<Node>, q: seq<nat>, i: nat)
    requires |nodes'| == |nodes| && Newest(nodes, q) && i < |q|
    requires forall j :: 0 <= j < |q| ==> q[j] < |nodes| && nodes'[q[j]].stamp == nodes[q[j]].stamp
    ensures Newest(nodes', q[..i] + q[i + 1..])
  {
    var q' := q[..i] + q[i + 1..];
    assert forall j :: 0 <= j < |q'| ==> q'[j] == q[if j < i then j else j + 1];
  }

  lemma CutList(m: Mem, b: nat, v: nat, prev: Ref, nx: Ref, i: nat)
    requires CutOk(m, b, v, prev, nx, i)
    ensures prev.At? ==> prev.n < |m.nodes|
    ensures ListOk(Unlinked(m, b, v, prev, nx), Chain(b))
  {
    hide Without, Newest, Linked;
    CutNodes(m, b, v, prev, nx, i);
    var m', q := Unlinked(m, b, v, prev, nx), L(m, Chain(b));
    LinkedFacts(m.nodes, Chain(b), q);
    CutLinked(m.nodes, m'.nodes, Chain(b), q, i);
    CutNewest(m.nodes, m'.nodes, q, i);
    assert L(m', Chain(b)) == q[..i] + q[i + 1..];
  }

  lemma LinkedFacts(nodes: seq<Node>, p: Place, q: seq<nat>)
    requires Linked(nodes, p, q)
    ensures NoDup(q) && forall j :: 0 <= j < |q| ==> q[j] < |nodes| && nodes[q[j]].place == p
  {
  }

  lemma CutLists(m: Mem, b: nat, v: nat, prev: Ref, nx: Ref, i: nat, p: Place)
    requires CutOk(m, b, v, prev, nx, i) && ListOk(m, p)
    ensures prev.At? ==> prev.n < |m.nodes|
    ensures ListOk(Unlinked(m, b, v, prev, nx), p)
  {
    hide Linked, Newest, Without;
    CutNodes(m, b, v, prev, nx, i);
    if p == Chain(b) {
      CutList(m, b, v, prev, nx, i);
    } else {
      ListFrame(m, Unlinked(m, b, v, prev, nx), p);
    }
  }

  lemma CutFollows(m: Mem, n: nat, b: nat, v: nat, prev: Ref, nx: Ref, i: nat, a: nat, w: nat)
    requires CutOk(m, b, v, prev, nx, i) && w < |m.nodes| && Follows(m.nodes, a, w) && (w == v || a != b) &&
        (a != b ==> !m.nodes[w].place.Chain?)
    ensures prev.At? ==> prev.n < |m.nodes|
    ensures Follows(Unlinked(m, b, v, prev, nx).nodes, a, w)
  {
    hide Linked, Newest, Without;
    CutNodes(m, b, v, prev, nx, i);
  }

  lemma CutMember(m: Mem, b: nat, v: nat, prev: Ref, nx: Ref, i: nat, w: nat)
    requires CutOk(m, b, v, prev, nx, i) && w != v && w in L(m, Chain(b))
    ensures w in Without(L(m, Chain(b)), v)
  {
    hide Linked, Newest, Without;
    var q := L(m, Chain(b));
    var j :| 0 <= j < |q| && q[j] == w;
    assert q == q[..i] + [v] + q[i + 1..];
  }

  lemma UnlinkNode(m: Mem, n: nat, c: nat, b: nat, v: nat, prev: Ref, nx: Ref, i: nat, w: nat)
    requires MemOk(m, n) && CutOk(m, b, v, prev, nx, i) && m.gone[b].None? && w < |m.nodes|
    ensures prev.At? ==> prev.n < |m.nodes|
    ensures |Unlinked(m, b, v, prev, nx).nodes| == |m.nodes| && NodeOk(Unlinked(m, b, v, prev, nx), w)
  {
    hide ListOk, Unique, BucketOk, ListsOk, ClOk, Linked, Newest, Without, Follows;
    CutNodes(m, b, v, prev, nx, i);
    assert NodeOk(m, w);
    var p := m.nodes[w].place;
    if w == v {
      NextFacts(m, n, v);
      CutFollows(m, n, b, v, prev, nx, i, b, v);
    } else if p.Gone? {
      CutFollows(m, n, b, v, prev, nx, i, p.b, w);
    } else if p == Chain(b) {
      CutMember(m, b, v, prev, nx, i, w);
    }
  }

  lemma UnlinkRest(m: Mem, n: nat, c: nat, b: nat, v: nat, prev: Ref, nx: Ref, i: nat)
    requires MemOk(m, n) && CutOk(m, b, v, prev, nx, i) && m.gone[b].None? && m.holder[b] == Some(c)
    ensures prev.At? ==> prev.n < |m.nodes|
    ensures var m' := Unlinked(m, b, v, prev, nx);
            Sized(m', n) && Unique(m'.nodes) && (forall a :: 0 <= a < |m'.lock| ==> BucketOk(m', a)) &&
                (forall d :: 0 <= d < n ==> ListsOk(m', d))
  {
    hide ListOk, NodeOk, Linked, Newest, Without;
    CutNodes(m, b, v, prev, nx, i);
    var m' := Unlinked(m, b, v, prev, nx);
    forall a | 0 <= a < |m'.lock|
      ensures BucketOk(m', a)
    {
      assert BucketOk(m, a);
    }
    forall d | 0 <= d < n
      ensures ListsOk(m', d)
    {
      assert ListsOk(m, d);
      assert Pending(m', d) == Pending(m, d);
    }
  }

  lemma UnlinkMem(m: Mem, n: nat, c: nat, b: nat, v: nat, prev: Ref, nx: Ref, i: nat)
    requires MemOk(m, n) && CutOk(m, b, v, prev, nx, i) && m.gone[b].None? && m.holder[b] == Some(c)
    ensures prev.At? ==> prev.n < |m.nodes|
    ensures MemOk(Unlinked(m, b, v, prev, nx), n)
  {
    hide ListOk, NodeOk, Unique, BucketOk, ListsOk, Linked, Newest, Without;
    UnlinkRest(m, n, c, b, v, prev, nx, i);
    var m' := Unlinked(m, b, v, prev, nx);
    CutNodes(m, b, v, prev, nx, i);
    forall p
      ensures ListOk(m', p)
    {
      assert ListOk(m, p);
      CutLists(m, b, v, prev, nx, i, p);
    }
    forall w | 0 <= w < |m'.nodes|
      ensures NodeOk(m', w)
    {
      UnlinkNode(m, n, c, b, v, prev, nx, i, w);
    }
  }

  lemma UnlinkChange(m: Mem, n: nat, c: nat, b: nat, v: nat, prev: Ref, nx: Ref, i: nat, e: nat)
    requires MemOk(m, n) && CutOk(m, b, v, prev, nx, i) && m.holder[b] == Some(c) && e < n && e != c
    ensures prev.At? ==> prev.n < |m.nodes|
    ensures Change(m, Unlinked(m, b, v, prev, nx), n, e)
  {
    hide ListOk, NodeOk, Unique, BucketOk, ListsOk, Linked, Newest, Without;
    CutNodes(m, b, v, prev, nx, i);
    StampBound(m, n);
    var m' := Unlinked(m, b, v, prev, nx);
    assert forall d :: Pending(m', d) <==> Pending(m, d);
  }
}
