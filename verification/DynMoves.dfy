/** The steps that move a whole list: an allocator taking over a clean list, and the cleaner. */
module DynMoves {
  import opened Options
  import opened DynSystem
  import opened DynInvariant
  import opened DynStable
  import opened DynLinks

  /** The lists a chunk passes through on its way back. */
  predicate Hop(p: Place, p': Place) {
    match p
    case Dirty(d) => p' == Rinse(d)
    case Rinse(d) => p' == Clean(d)
    case Clean(d) => p' == Moving(d)
    case Moving(d) => p' == Free(d) || p'.Nowhere?
    case _ => false
  }

  /** Memory m' is m with list p moved to the empty list p', head pointers included (or lost). */
  ghost predicate Hops(m: Mem, m': Mem, p: Place, p': Place) {
    && Hop(p, p') && L(m, p') == [] && m'.nodes == Rehomed(m.nodes, p, p')
    && m'.lists == (if IsList(p') then m.lists[p' := L(m, p)][p := []] else m.lists[p := []])
    && (IsList(p') ==> HeadOf(m', p') == HeadOf(m, p)) && HeadOf(m', p) == Null
    && (forall r :: IsList(r) && r != p && r != p' ==> HeadOf(m', r) == HeadOf(m, r))
    && m'.chain == m.chain && m'.lock == m.lock && m'.clock == m.clock && m'.holder == m.holder && m'.gone == m.gone &&
        m'.hand == m.hand
  }

  lemma HopList(m: Mem, m': Mem, p: Place, p': Place, r: Place)
    requires Hops(m, m', p, p') && ListOk(m, p) && ListOk(m, r) && ListOk(m, p')
    ensures ListOk(m', r)
  {
    if r == p' {
      assert L(m', r) == if IsList(p') then L(m, p) else [];
    } else if r == p {
      assert L(m', r) == [];
    } else {
      assert L(m', r) == L(m, r);
    }
  }

  lemma HopNode(m: Mem, m': Mem, p: Place, p': Place, w: nat)
    requires Hops(m, m', p, p') && w < |m.nodes| && NodeOk(m, w)
    requires p.Rinse? && (m.nodes[w].place.Gone? || m.nodes[w].place.Going?) ==> NotRinsed(m.nodes, m.nodes[w].pend)
    requires p.Rinse? && m.nodes[w].place.Going? ==> NotRinsed(m.nodes, m.nodes[w].next)
    ensures NodeOk(m', w)
  {
    var nd := m.nodes[w];
    if nd.place.Gone? {
      assert nd.next.At? ==> m'.nodes[nd.next.n] == m.nodes[nd.next.n];
      forall y | 0 <= y < |m.nodes| && m'.nodes[y].place == Chain(nd.place.b)
        ensures m'.nodes[y] == m.nodes[y]
      {
      }
    }
  }

  lemma HopUnique(nodes: seq<Node>, p: Place, p': Place)
    requires Unique(nodes) && Hop(p, p')
    ensures Unique(Rehomed(nodes, p, p'))
  {
  }

  lemma HopBucket(m: Mem, m': Mem, p: Place, p': Place, a: nat)
    requires Hops(m, m', p, p') && a < |m.lock| && a < |m.holder| && a < |m.gone| && BucketOk(m, a)
    ensures BucketOk(m', a)
  {
  }

  /** No chunk on its way to a dirty list leads to a rinsing one. */
  ghost predicate RinseFree(nodes: seq<Node>) {
    forall w :: 0 <= w < |nodes| ==>
      && (nodes[w].place.Gone? || nodes[w].place.Going? ==> NotRinsed(nodes, nodes[w].pend))
      && (nodes[w].place.Going? ==> NotRinsed(nodes, nodes[w].next))
  }

  lemma HopMem(m: Mem, m': Mem, n: nat, p: Place, p': Place)
    requires MemOk(m, n) && Hops(m, m', p, p') && (p.Rinse? ==> RinseFree(m.nodes))
    requires Sized(m', n) && ClOk(m', n) && forall d :: 0 <= d < n ==> ListsOk(m', d)
    ensures MemOk(m', n)
  {
    hide ListOk, NodeOk, Unique, BucketOk, ListsOk, ClOk, NotRinsed;
    HopUnique(m.nodes, p, p');
    forall r
      ensures ListOk(m', r)
    {
      assert ListOk(m, p) && ListOk(m, r) && ListOk(m, p');
      HopList(m, m', p, p', r);
    }
    forall w | 0 <= w < |m'.nodes|
      ensures NodeOk(m', w)
    {
      HopNode(m, m', p, p', w);
    }
    forall a | 0 <= a < |m'.lock|
      ensures BucketOk(m', a)
    {
      assert BucketOk(m, a);
      HopBucket(m, m', p, p', a);
    }
  }

  lemma HopNodes(m: Mem, m': Mem, n: nat, p: Place, p': Place)
    requires MemOk(m, n) && Hops(m, m', p, p')
    ensures NodesStep(m.nodes, m'.nodes, m.clock)
  {
    hide MemOk, HeadOf;
    StampBound(m, n);
  }

  // ---------------------------------------------------------------- an allocator takes over a clean list

  ghost predicate Takes(m: Mem, n: nat, c: nat, k: Cpu) {
    && MemOk(m, n) && CpuOk(m, n, c, k) && Ready(m, n, c, k)
    && ((k.pc.CleanCas? && m.clean[k.d] == k.cl) || k.pc.FreeSet?)
  }

  function From(k: Cpu): Place { if k.pc.CleanCas? then Clean(k.d) else Moving(k.d) }

  function To(m: Mem, k: Cpu): Place
    requires k.d < |m.free|
  {
    if k.pc.CleanCas? then Moving(k.d) else if m.free[k.d] == Null then Free(k.d) else Nowhere
  }

  lemma TakeFacts(m: Mem, n: nat, c: nat, k: Cpu)
    requires Takes(m, n, c, k)
    ensures Hops(m, GoMem(m, n, c, k), From(k), To(m, k))
  {
    hide NodeOk, Unique, BucketOk, WalkOk, LockedOk, HandOk, SafeOk, Ahead, Linked, Newest;
    assert ListsOk(m, k.d);
    assert ListOk(m, To(m, k));
  }

  lemma TakeCleanLists(m: Mem, n: nat, c: nat, k: Cpu, d: nat)
    requires Takes(m, n, c, k) && d < n && k.pc.CleanCas?
    ensures Sized(GoMem(m, n, c, k), n) && ClOk(GoMem(m, n, c, k), n)
    ensures ListsOk(GoMem(m, n, c, k), d)
  {
    hide NodeOk, Unique, BucketOk, WalkOk, LockedOk, HandOk, SafeOk, Ahead, Linked, Newest, Rehomed;
    assert ListsOk(m, k.d) && ListsOk(m, d);
    assert ListOk(m, Clean(k.d));
    var m' := GoMem(m, n, c, k);
    assert L(m', Rinse(d)) == L(m, Rinse(d));
    RehomedSame(m.nodes, From(k), To(m, k), m.hand[d]);
  }

  lemma TakeFreeLists(m: Mem, n: nat, c: nat, k: Cpu, d: nat)
    requires Takes(m, n, c, k) && d < n && k.pc.FreeSet?
    ensures Sized(GoMem(m, n, c, k), n) && ClOk(GoMem(m, n, c, k), n)
    ensures ListsOk(GoMem(m, n, c, k), d)
  {
    hide ListOk, NodeOk, Unique, BucketOk, WalkOk, LockedOk, HandOk, SafeOk, Ahead, Linked, Newest, Rehomed;
    assert ListsOk(m, k.d) && ListsOk(m, d);
    var m' := GoMem(m, n, c, k);
    assert L(m', Rinse(d)) == L(m, Rinse(d));
    RehomedSame(m.nodes, From(k), To(m, k), m.hand[d]);
  }

  lemma TakeLists(m: Mem, n: nat, c: nat, k: Cpu, d: nat)
    requires Takes(m, n, c, k) && d < n
    ensures Sized(GoMem(m, n, c, k), n) && ClOk(GoMem(m, n, c, k), n)
    ensures ListsOk(GoMem(m, n, c, k), d)
  {
    hide MemOk, CpuOk, GoMem, ListsOk;
    if k.pc.CleanCas? {
      TakeCleanLists(m, n, c, k, d);
    } else {
      TakeFreeLists(m, n, c, k, d);
    }
  }

  lemma RehomedSame(nodes: seq<Node>, p: Place, p': Place, h: Option<nat>)
    requires h.Some? ==> h.v < |nodes| && nodes[h.v].place != p
    ensures |Rehomed(nodes, p, p')| == |nodes|
    ensures h.Some? ==> Rehomed(nodes, p, p')[h.v] == nodes[h.v]
  {
  }

  lemma TakeMem(m: Mem, n: nat, c: nat, k: Cpu)
    requires Takes(m, n, c, k)
    ensures MemOk(GoMem(m, n, c, k), n)
  {
    hide MemOk, CpuOk, GoMem, Hops, ListsOk;
    TakeFacts(m, n, c, k);
    forall d | 0 <= d < n
      ensures Sized(GoMem(m, n, c, k), n) && ListsOk(GoMem(m, n, c, k), d)
    {
      TakeLists(m, n, c, k, d);
    }
    TakeLists(m, n, c, k, c);
    HopMem(m, GoMem(m, n, c, k), n, From(k), To(m, k));
  }

  lemma TakeCleanChange(m: Mem, n: nat, c: nat, k: Cpu, e: nat)
    requires Takes(m, n, c, k) && e < n && e != c && k.pc.CleanCas?
    ensures Change(m, GoMem(m, n, c, k), n, e)
  {
    hide ListOk, NodeOk, Unique, BucketOk, WalkOk, LockedOk, HandOk, SafeOk, Ahead, NodesStep;
    assert ListsOk(m, k.d);
    TakeFacts(m, n, c, k);
    var m' := GoMem(m, n, c, k);
    HopNodes(m, m', n, From(k), To(m, k));
    assert forall d :: Pending(m', d) <==> Pending(m, d);
  }

  lemma TakeFreeChange(m: Mem, n: nat, c: nat, k: Cpu, e: nat)
    requires Takes(m, n, c, k) && e < n && e != c && k.pc.FreeSet?
    ensures Change(m, GoMem(m, n, c, k), n, e)
  {
    hide ListOk, NodeOk, Unique, BucketOk, WalkOk, LockedOk, HandOk, SafeOk, Ahead, NodesStep;
    assert ListsOk(m, k.d);
    TakeFacts(m, n, c, k);
    var m' := GoMem(m, n, c, k);
    HopNodes(m, m', n, From(k), To(m, k));
    assert forall d :: Pending(m', d) <==> Pending(m, d);
  }

  lemma TakeCleanOwned(m: Mem, n: nat, c: nat, k: Cpu, yes: bool)
    requires Takes(m, n, c, k) && k.pc.CleanCas?
    ensures CpuOk(GoMem(m, n, c, k), n, c, GoCpu(m, n, c, k, yes))
  {
    hide ListOk, NodeOk, Unique, BucketOk, Ahead;
    assert ListsOk(m, k.d);
    var m', k' := GoMem(m, n, c, k), GoCpu(m, n, c, k, yes);
    TakeAhead(m.nodes, From(k), To(m, k), Bucket(m, k.key), k, k');
    assert Pending(m', k.d) == Pending(m, k.d);
  }

  lemma TakeFreeOwned(m: Mem, n: nat, c: nat, k: Cpu, yes: bool)
    requires Takes(m, n, c, k) && k.pc.FreeSet?
    ensures CpuOk(GoMem(m, n, c, k), n, c, GoCpu(m, n, c, k, yes))
  {
    hide ListOk, NodeOk, Unique, BucketOk, Ahead;
    assert ListsOk(m, k.d);
    var m', k' := GoMem(m, n, c, k), GoCpu(m, n, c, k, yes);
    TakeAhead(m.nodes, From(k), To(m, k), Bucket(m, k.key), k, k');
    assert Pending(m', k.d) == Pending(m, k.d);
  }

  lemma TakeAhead(nodes: seq<Node>, p: Place, p': Place, b: nat, k: Cpu, k': Cpu)
    requires Hop(p, p') && (Ahead(nodes, b, k, Sink)) && k'.start == k.start && k'.key == k.key
    ensures Ahead(Rehomed(nodes, p, p'), b, k', Sink)
  {
  }
}
