/** The steps of dtrace_dynvar that write shared memory. */
module DynWrites {
  import opened Options
  import opened DynSystem
  import opened DynInvariant
  import opened DynStable
  import opened DynReads

  // ---------------------------------------------------------------- a chunk in hand

  /** What may be written to a chunk that is on no list. */
  predicate Private(m: Mem, v: nat, nd': Node)
    requires v < |m.nodes|
  {
    var nd := m.nodes[v];
    && !IsList(nd.place) && !nd.place.Nowhere? && nd'.stamp == nd.stamp && MarkOk(nd', |m.chain|)
    && (nd.place.Fresh? ==> nd'.place == nd.place)
    && (nd.place.Gone? ==> nd'.key == nd.key && (nd'.place == nd.place || nd'.place == Going(nd.place.b)))
    && (nd.place.Going? ==> nd'.key == nd.key && nd'.place == nd.place)
    && (nd'.place.Gone? ==> nd'.next == nd.next)
    && (nd'.place.Going? ==>
        Sweeping(m.nodes, nd'.next) && (nd'.next == nd.pend || (nd.place.Going? && nd'.next == nd.next)))
    && (!nd.place.Fresh? ==> Sweeping(m.nodes, nd'.pend))
  }

  lemma PrivateLists(m: Mem, n: nat, v: nat, nd': Node)
    requires MemOk(m, n) && v < |m.nodes| && Private(m, v, nd')
    ensures forall p :: ListOk(SetNode(m, v, nd'), p)
  {
    hide NodeOk, Unique, BucketOk, ListsOk, MarkOk, Sweeping;
    var m' := SetNode(m, v, nd');
    forall p
      ensures ListOk(m', p)
    {
      assert ListOk(m, p) && L(m', p) == L(m, p) && HeadOf(m', p) == HeadOf(m, p);
    }
  }

  lemma PrivateFollows(nodes: seq<Node>, v: nat, nd': Node, b: nat, w: nat)
    requires v < |nodes| && w < |nodes| && Follows(nodes, b, w) && !nodes[v].place.Chain? && !nd'.place.Chain?
    requires nd'.stamp == nodes[v].stamp && (w == v ==> nd'.next == nodes[v].next)
    ensures Follows(nodes[v := nd'], b, w)
  {
  }

  lemma PrivateNodes(m: Mem, n: nat, v: nat, nd': Node, w: nat)
    requires MemOk(m, n) && v < |m.nodes| && Private(m, v, nd') && w < |m.nodes|
    ensures NodeOk(SetNode(m, v, nd'), w)
  {
    hide ListOk, Unique, BucketOk, ListsOk, MarkOk, Follows;
    assert NodeOk(m, w) && NodeOk(m, v);
    if SetNode(m, v, nd').nodes[w].place.Gone? {
      PrivateFollows(m.nodes, v, nd', m.nodes[w].place.b, w);
    }
  }

  lemma PrivateRest(m: Mem, n: nat, v: nat, nd': Node)
    requires MemOk(m, n) && v < |m.nodes| && Private(m, v, nd')
    ensures var m' := SetNode(m, v, nd');
            && Unique(m'.nodes) && (forall b :: 0 <= b < |m'.lock| ==> BucketOk(m', b)) &&
                (forall d :: 0 <= d < n ==> ListsOk(m', d))
  {
    hide ListOk, NodeOk, MarkOk, Sweeping;
    var m' := SetNode(m, v, nd');
    forall b | 0 <= b < |m'.lock|
      ensures BucketOk(m', b)
    {
      assert BucketOk(m, b);
    }
    forall d | 0 <= d < n
      ensures ListsOk(m', d)
    {
      assert ListsOk(m, d);
    }
  }

  lemma PrivateMem(m: Mem, n: nat, v: nat, nd': Node)
    requires MemOk(m, n) && v < |m.nodes| && Private(m, v, nd')
    ensures MemOk(SetNode(m, v, nd'), n)
  {
    hide ListOk, NodeOk, Unique, BucketOk, ListsOk, Private;
    PrivateLists(m, n, v, nd');
    PrivateRest(m, n, v, nd');
    forall w | 0 <= w < |m.nodes|
      ensures NodeOk(SetNode(m, v, nd'), w)
    {
      PrivateNodes(m, n, v, nd', w);
    }
  }

  predicate Owns(m: Mem, c: nat, v: nat)
    requires v < |m.nodes|
  {
    var p := m.nodes[v].place;
    p == Fresh(c) || ((p.Gone? || p.Going?) && p.b < |m.holder| && m.holder[p.b] == Some(c))
  }

  lemma PrivateChange(m: Mem, n: nat, c: nat, v: nat, nd': Node, e: nat)
    requires MemOk(m, n) && v < |m.nodes| && Private(m, v, nd') && Owns(m, c, v) && e != c && e < n
    requires m.nodes[v].place.Fresh? || nd'.pend == m.nodes[v].pend || NotRinsed(m.nodes, nd'.pend)
    ensures Change(m, SetNode(m, v, nd'), n, e)
  {
    hide ListOk, Unique, BucketOk, ListsOk, MarkOk, Sweeping, Follows;
    var m' := SetNode(m, v, nd');
    forall w | 0 <= w < |m.nodes|
      ensures m.nodes[w].stamp <= m.clock
    {
      assert NodeOk(m, w);
    }
    assert forall d :: Pending(m', d) <==> Pending(m, d);
  }

  lemma PrivateAhead(nodes: seq<Node>, v: nat, nd': Node, b: nat, k: Cpu, k': Cpu)
    requires v < |nodes| && !nodes[v].place.Chain? && !nd'.place.Chain? && nd'.stamp == nodes[v].stamp
    requires Ahead(nodes, b, k, Sink) && k'.start == k.start && k'.key == k.key
    ensures Ahead(nodes[v := nd'], b, k', Sink)
  {
  }

  /** A store to the chunk in hand. */
  predicate Writes(pc: Pc) {
    pc.Marking? || pc.DirtyRead? || pc.DirtyLink? || pc.FillKey? || pc.FillMark? || pc.FillNext? || pc.Unmark?
  }

  lemma HeldPlace(m: Mem, n: nat, c: nat, k: Cpu)
    requires MemOk(m, n) && CpuOk(m, n, c, k) && Writes(k.pc)
    ensures Points(m, k.dvar) && Owns(m, c, k.dvar.n)
    ensures k.op.Alloc? ==> m.nodes[k.dvar.n].place == Fresh(c)
    ensures k.op.Dealloc? ==>
        m.nodes[k.dvar.n].place == Gone(Bucket(m, k.key)) || m.nodes[k.dvar.n].place == Going(Bucket(m, k.key))
    ensures k.op.Alloc? || k.op.Dealloc?
    ensures NodeOk(m, k.dvar.n)
    ensures Sweeping(m.nodes, m.dirty[k.d]) && NotRinsed(m.nodes, m.dirty[k.d])
  {
    hide ListOk, NodeOk, Unique, WalkOk, AllocOk, SafeOk;
    assert BucketOk(m, Bucket(m, k.key)) && ListsOk(m, c);
    HeadFacts(m, n, Dirty(k.d));
  }

  function NewNode(m: Mem, n: nat, c: nat, k: Cpu): Node
    requires Ready(m, n, c, k) && Writes(k.pc)
  {
    GoMem(m, n, c, k).nodes[k.dvar.n]
  }

  lemma WritesPrivate(m: Mem, n: nat, c: nat, k: Cpu)
    requires MemOk(m, n) && CpuOk(m, n, c, k) && Writes(k.pc) && Ready(m, n, c, k)
    ensures Points(m, k.dvar) && GoMem(m, n, c, k) == SetNode(m, k.dvar.n, NewNode(m, n, c, k))
    ensures Private(m, k.dvar.n, NewNode(m, n, c, k)) && Owns(m, c, k.dvar.n)
    ensures var nd, nd' := m.nodes[k.dvar.n], NewNode(m, n, c, k);
        nd.place.Fresh? || nd'.pend == nd.pend || NotRinsed(m.nodes, nd'.pend)
  {
    hide MemOk, WalkOk, AllocOk, SafeOk, Follows;
    HeldPlace(m, n, c, k);
  }

  lemma FillOwn(m: Mem, n: nat, c: nat, k: Cpu, yes: bool)
    requires MemOk(m, n) && CpuOk(m, n, c, k) && Writes(k.pc) && Filling(k.pc) && Ready(m, n, c, k)
    ensures CpuOk(GoMem(m, n, c, k), n, c, GoCpu(m, n, c, k, yes))
  {
    hide MemOk, Follows, Ahead;
    HeldPlace(m, n, c, k);
    PrivateAhead(m.nodes, k.dvar.n, NewNode(m, n, c, k), Bucket(m, k.key), k, GoCpu(m, n, c, k, yes));
  }

  lemma SweepOwn(m: Mem, n: nat, c: nat, k: Cpu, yes: bool)
    requires MemOk(m, n) && CpuOk(m, n, c, k) && Writes(k.pc) && !Filling(k.pc) && Ready(m, n, c, k)
    ensures CpuOk(GoMem(m, n, c, k), n, c, GoCpu(m, n, c, k, yes))
  {
    hide MemOk, Follows, Ahead;
    HeldPlace(m, n, c, k);
  }
}
