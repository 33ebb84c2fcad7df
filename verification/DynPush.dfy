/** The compare-and-swaps of dtrace_dynvar that push a chunk onto a list or pop it off. */
module DynPush {
  import opened Options
  import opened DynSystem
  import opened DynInvariant
  import opened DynStable
  import opened DynReads
  import opened DynLinks

  lemma ListPush(m: Mem, m': Mem, p: Place, v: nat)
    requires ListOk(m, p) && IsList(p) && v < |m.nodes| == |m'.nodes| && m.nodes[v].place != p
    requires L(m', p) == [v] + L(m, p) && HeadOf(m', p) == At(v)
    requires forall w :: 0 <= w < |m.nodes| && w != v ==> m'.nodes[w] == m.nodes[w]
    requires m'.nodes[v].place == p && m'.nodes[v].next == HeadOf(m, p)
    requires p.Chain? ==> forall w :: 0 <= w < |m.nodes| && w != v ==> m.nodes[w].stamp < m'.nodes[v].stamp
    ensures ListOk(m', p)
  {
    var q := L(m, p);
    var q' := [v] + q;
    assert v !in q;
    forall j | 0 <= j < |q'|
      ensures q'[j] < |m'.nodes| && m'.nodes[q'[j]].place == p && m'.nodes[q'[j]].next == Nth(q', j + 1, EndOf(p))
    {
      if j > 0 {
        assert q'[j] == q[j - 1];
      }
    }
  }

  lemma ListPop(m: Mem, m': Mem, p: Place, v: nat)
    requires ListOk(m, p) && IsList(p) && v < |m.nodes| == |m'.nodes| && HeadOf(m, p) == At(v)
    requires L(m', p) == L(m, p)[1..] && HeadOf(m', p) == m.nodes[v].next
    requires forall w :: 0 <= w < |m.nodes| && w != v ==> m'.nodes[w] == m.nodes[w]
    ensures ListOk(m', p)
  {
    var q := L(m, p);
    var q' := q[1..];
    assert q[0] == v && m.nodes[q[0]].next == Nth(q, 1, EndOf(p));
    forall j | 0 <= j < |q'|
      ensures q'[j] < |m'.nodes| && m'.nodes[q'[j]].place == p && m'.nodes[q'[j]].next == Nth(q', j + 1, EndOf(p))
    {
      assert q'[j] == q[j + 1] && q[j + 1] != v;
    }
  }

  /** Chunks other than v, when v changes places without leaving or entering a place that matters to them. */
  lemma OtherNode(m: Mem, m': Mem, v: nat, w: nat)
    requires v < |m.nodes| == |m'.nodes| && w < |m.nodes| && w != v && NodeOk(m, w) && NodeOk(m, v)
    requires forall u :: 0 <= u < |m.nodes| && u != v ==> m'.nodes[u] == m.nodes[u]
    requires |m'.chain| == |m.chain| && m'.clock >= m.clock
    requires !m.nodes[v].place.Chain? && !Swept(m.nodes[v].place)
    requires m'.nodes[v].place.Chain? ==> m'.nodes[v].stamp > m.clock
    requires forall p :: IsList(p) ==> forall u :: u in L(m, p) && u != v ==> u in L(m', p)
    requires |m'.gone| == |m.gone| && forall b :: 0 <= b < |m.gone| && m.gone[b] == Some(w) ==> m'.gone[b] == Some(w)
    requires |m'.hand| == |m.hand| && forall c :: 0 <= c < |m.hand| && m.hand[c] == Some(w) ==> m'.hand[c] == Some(w)
    ensures NodeOk(m', w)
  {
    hide MarkOk;
    var nd := m.nodes[w];
    if nd.place.Gone? {
      forall y | 0 <= y < |m.nodes| && m'.nodes[y].place == Chain(nd.place.b)
        ensures y == v || m.nodes[y].place == Chain(nd.place.b)
      {
      }
      assert nd.next.At? ==> nd.next.n != v;
    }
  }

  // ---------------------------------------------------------------- onto a dirty list

  /** CPU c's chunk leads to the head of CPU d's dirty list. */
  predicate SweepOk(m: Mem, n: nat, c: nat, k: Cpu) {
    var b := Bucket(m, k.key);
    && Sized(m, n) && c < n && k.d < n && Points(m, k.dvar) && m.nodes[k.dvar.n].next == m.dirty[k.d] &&
        m.nodes[k.dvar.n].mark.Unused?
    && (k.op.Alloc? ==> m.nodes[k.dvar.n].place == Fresh(c) && m.hand[c] == Some(k.dvar.n))
    && (!k.op.Alloc? ==> m.nodes[k.dvar.n].place == Going(b) && m.gone[b] == Some(k.dvar.n) && m.holder[b] == Some(c))
  }

  lemma SweepFacts(m: Mem, n: nat, c: nat, k: Cpu)
    requires MemOk(m, n) && CpuOk(m, n, c, k) && k.pc.DirtyCas? && m.dirty[k.d] == k.nx
    ensures SweepOk(m, n, c, k)
  {
    hide ListOk, NodeOk, Unique, BucketOk, WalkOk, AllocOk, SafeOk;
    assert ListsOk(m, c);
  }

  lemma SweepList(m: Mem, n: nat, c: nat, k: Cpu, p: Place)
    requires MemOk(m, n) && SweepOk(m, n, c, k)
    ensures ListOk(Dirtied(m, c, k), p)
  {
    hide NodeOk, Unique, BucketOk, ListsOk, ClOk;
    assert ListOk(m, p);
    if p == Dirty(k.d) {
      hide ListOk;
      ListPush(m, Dirtied(m, c, k), p, k.dvar.n);
    } else {
      hide ListOk;
      ListFrame(m, Dirtied(m, c, k), p);
    }
  }

  lemma SweepNode(m: Mem, n: nat, c: nat, k: Cpu, w: nat)
    requires MemOk(m, n) && SweepOk(m, n, c, k) && w < |m.nodes|
    ensures NodeOk(Dirtied(m, c, k), w)
  {
    hide ListOk, Unique, BucketOk, ListsOk, ClOk, Follows;
    var v := k.dvar.n;
    assert NodeOk(m, v) && NodeOk(m, w);
    if w != v {
      hide NodeOk;
      OtherNode(m, Dirtied(m, c, k), v, w);
    }
  }

  lemma SweepRest(m: Mem, n: nat, c: nat, k: Cpu)
    requires MemOk(m, n) && SweepOk(m, n, c, k)
    ensures var m' := Dirtied(m, c, k);
            Sized(m', n) && Unique(m'.nodes) && (forall a :: 0 <= a < |m'.lock| ==> BucketOk(m', a)) &&
                (forall d :: 0 <= d < n ==> ListsOk(m', d))
  {
    hide ListOk, NodeOk;
    var m' := Dirtied(m, c, k);
    forall a | 0 <= a < |m'.lock|
      ensures BucketOk(m', a)
    {
      assert BucketOk(m, a);
    }
    forall d | 0 <= d < n
      ensures ListsOk(m', d)
    {
      assert ListsOk(m, d);
      assert Pending(m', d) == Pending(m, d);
    }
  }

  lemma SweepMem(m: Mem, n: nat, c: nat, k: Cpu)
    requires MemOk(m, n) && SweepOk(m, n, c, k)
    ensures MemOk(Dirtied(m, c, k), n)
  {
    hide ListOk, NodeOk, Unique, BucketOk, ListsOk;
    SweepRest(m, n, c, k);
    var m' := Dirtied(m, c, k);
    forall p
      ensures ListOk(m', p)
    {
      SweepList(m, n, c, k, p);
    }
    forall w | 0 <= w < |m'.nodes|
      ensures NodeOk(m', w)
    {
      SweepNode(m, n, c, k, w);
    }
  }

  lemma SweepChange(m: Mem, n: nat, c: nat, k: Cpu, e: nat)
    requires MemOk(m, n) && SweepOk(m, n, c, k) && e < n && e != c
    ensures Change(m, Dirtied(m, c, k), n, e)
  {
    hide ListOk, NodeOk, Unique, BucketOk, ListsOk;
    StampBound(m, n);
    var m' := Dirtied(m, c, k);
    assert forall d :: Pending(m', d) <==> Pending(m, d);
  }

  lemma SweepOwned(m: Mem, n: nat, c: nat, k: Cpu)
    requires MemOk(m, n) && CpuOk(m, n, c, k) && SweepOk(m, n, c, k) && k.pc.DirtyCas? && m.dirty[k.d] == k.nx
    ensures CpuOk(Dirtied(m, c, k), n, c, if k.op.Alloc? then Cleared(k, Top).(d := c) else Cleared(k, Unlock))
  {
    hide MemOk, Ahead;
  }

  // ---------------------------------------------------------------- off a free list

  predicate PopOk(m: Mem, n: nat, c: nat, k: Cpu) {
    && Sized(m, n) && c < n && k.d < n && Points(m, k.dvar) && m.free[k.d] == k.dvar && m.nodes[k.dvar.n].next == k.nx
    && m.nodes[k.dvar.n].place == Free(k.d) && m.hand[c].None?
  }

  lemma PopFacts(m: Mem, n: nat, c: nat, k: Cpu)
    requires MemOk(m, n) && CpuOk(m, n, c, k) && k.pc.FreePop? && m.free[k.d] == k.dvar
    ensures PopOk(m, n, c, k)
  {
    hide MemOk, WalkOk, SafeOk, Ahead;
    HeadFacts(m, n, Free(k.d));
  }

  lemma PopList(m: Mem, n: nat, c: nat, k: Cpu, p: Place)
    requires MemOk(m, n) && PopOk(m, n, c, k)
    ensures ListOk(Popped(m, c, k), p)
  {
    hide NodeOk, Unique, BucketOk, ListsOk, ClOk, Linked, Newest;
    assert ListOk(m, p) && ListOk(m, Free(k.d));
    if p == Free(k.d) {
      ListPop(m, Popped(m, c, k), p, k.dvar.n);
    } else {
      ListFrame(m, Popped(m, c, k), p);
    }
  }

  lemma PopNode(m: Mem, n: nat, c: nat, k: Cpu, w: nat)
    requires MemOk(m, n) && PopOk(m, n, c, k) && w < |m.nodes|
    ensures NodeOk(Popped(m, c, k), w)
  {
    hide Unique, BucketOk, ListsOk, ClOk, Follows, Linked;
    var m', v := Popped(m, c, k), k.dvar.n;
    assert NodeOk(m, v) && NodeOk(m, w) && ListOk(m, Free(k.d));
    if w != v {
      var q := L(m, Free(k.d));
      forall p | IsList(p)
        ensures forall u :: u in L(m, p) && u != v ==> u in L(m', p)
      {
        assert q == [q[0]] + q[1..] && q[0] == v;
      }
      OtherNode(m, m', v, w);
    }
  }

  lemma PopRest(m: Mem, n: nat, c: nat, k: Cpu)
    requires MemOk(m, n) && PopOk(m, n, c, k)
    ensures var m' := Popped(m, c, k);
            Sized(m', n) && Unique(m'.nodes) && (forall a :: 0 <= a < |m'.lock| ==> BucketOk(m', a)) &&
                (forall d :: 0 <= d < n ==> ListsOk(m', d))
  {
    hide ListOk, NodeOk;
    var m' := Popped(m, c, k);
    forall a | 0 <= a < |m'.lock|
      ensures BucketOk(m', a)
    {
      assert BucketOk(m, a);
    }
    forall d | 0 <= d < n
      ensures ListsOk(m', d)
    {
      assert ListsOk(m, d);
      assert Pending(m', d) == Pending(m, d);
    }
  }

  lemma PopMem(m: Mem, n: nat, c: nat, k: Cpu)
    requires MemOk(m, n) && PopOk(m, n, c, k)
    ensures MemOk(Popped(m, c, k), n)
  {
    hide ListOk, NodeOk, Unique, BucketOk, ListsOk;
    PopRest(m, n, c, k);
    var m' := Popped(m, c, k);
    forall p
      ensures ListOk(m', p)
    {
      PopList(m, n, c, k, p);
    }
    forall w | 0 <= w < |m'.nodes|
      ensures NodeOk(m', w)
    {
      PopNode(m, n, c, k, w);
    }
  }

  lemma PopChange(m: Mem, n: nat, c: nat, k: Cpu, e: nat)
    requires MemOk(m, n) && PopOk(m, n, c, k) && e < n && e != c
    ensures Change(m, Popped(m, c, k), n, e)
  {
    hide ListOk, NodeOk, Unique, BucketOk, ListsOk;
    StampBound(m, n);
    var m' := Popped(m, c, k);
    assert forall d :: Pending(m', d) <==> Pending(m, d);
  }

  lemma PopOwned(m: Mem, n: nat, c: nat, k: Cpu)
    requires MemOk(m, n) && CpuOk(m, n, c, k) && PopOk(m, n, c, k) && k.pc.FreePop?
    ensures CpuOk(Popped(m, c, k), n, c, k.(pc := FillKey, nx := Null))
  {
    hide MemOk, Ahead;
    FreshAhead(m.nodes, k.dvar.n, Fresh(c), Bucket(m, k.key), k);
    AheadSame(Popped(m, c, k).nodes, Bucket(m, k.key), k, k.(pc := FillKey, nx := Null));
    UnusedFacts(m, n, k.dvar.n);
  }

  lemma UnusedFacts(m: Mem, n: nat, v: nat)
    requires MemOk(m, n) && v < |m.nodes| && m.nodes[v].place.Free?
    ensures m.nodes[v].mark.Unused?
  {
    assert NodeOk(m, v);
  }

  lemma FreshAhead(nodes: seq<Node>, v: nat, p: Place, b: nat, k: Cpu)
    requires v < |nodes| && nodes[v].place.Free? && p.Fresh? && Ahead(nodes, b, k, Sink)
    ensures Ahead(nodes[v := nodes[v].(place := p)], b, k, Sink)
  {
  }

  // ---------------------------------------------------------------- onto a hash chain

  predicate PubOk(m: Mem, n: nat, c: nat, k: Cpu) {
    var b := Bucket(m, k.key);
    && Sized(m, n) && c < n && Points(m, k.dvar) && m.nodes[k.dvar.n].place == Fresh(c) && m.hand[c] == Some(k.dvar.n)
    && m.nodes[k.dvar.n].next == m.chain[b] && m.nodes[k.dvar.n].key == k.key && m.nodes[k.dvar.n].mark == Hash(k.key.h)
    && (forall y :: 0 <= y < |m.nodes| && m.nodes[y].place == Chain(b) ==> m.nodes[y].key != k.key)
  }

  /** The chain still starts where the walk did, so the key is nowhere on it. */
  lemma PubFacts(m: Mem, n: nat, c: nat, k: Cpu)
    requires MemOk(m, n) && CpuOk(m, n, c, k) && k.pc.Publish? && m.chain[Bucket(m, k.key)] == k.start
    ensures PubOk(m, n, c, k)
  {
    hide Unique, BucketOk, WalkOk, SafeOk, Follows, MarkOk;
    var b := Bucket(m, k.key);
    assert ListsOk(m, c) && ListOk(m, Chain(b));
    var q := L(m, Chain(b));
    forall y | 0 <= y < |m.nodes| && m.nodes[y].place == Chain(b)
      ensures m.nodes[y].key != k.key
    {
      assert NodeOk(m, y);
      var j :| 0 <= j < |q| && q[j] == y;
      assert m.nodes[y].stamp <= StampOf(m.nodes, k.start);
    }
  }

  lemma PubList(m: Mem, n: nat, c: nat, k: Cpu, p: Place)
    requires MemOk(m, n) && PubOk(m, n, c, k)
    ensures ListOk(Published(m, c, k), p)
  {
    hide NodeOk, Unique, BucketOk, ListsOk, ClOk, ListOk;
    StampBound(m, n);
    assert ListOk(m, p);
    if p == Chain(Bucket(m, k.key)) {
      ListPush(m, Published(m, c, k), p, k.dvar.n);
    } else {
      ListFrame(m, Published(m, c, k), p);
    }
  }

  lemma PubNode(m: Mem, n: nat, c: nat, k: Cpu, w: nat)
    requires MemOk(m, n) && PubOk(m, n, c, k) && w < |m.nodes|
    ensures NodeOk(Published(m, c, k), w)
  {
    hide ListOk, Unique, BucketOk, ListsOk, ClOk, Follows;
    var v := k.dvar.n;
    assert NodeOk(m, v) && NodeOk(m, w);
    if w != v {
      OtherNode(m, Published(m, c, k), v, w);
    }
  }

  lemma PubRest(m: Mem, n: nat, c: nat, k: Cpu)
    requires MemOk(m, n) && PubOk(m, n, c, k)
    ensures var m' := Published(m, c, k);
            Sized(m', n) && Unique(m'.nodes) && (forall a :: 0 <= a < |m'.lock| ==> BucketOk(m', a)) &&
                (forall d :: 0 <= d < n ==> ListsOk(m', d))
  {
    hide ListOk, NodeOk;
    var m' := Published(m, c, k);
    forall a | 0 <= a < |m'.lock|
      ensures BucketOk(m', a)
    {
      assert BucketOk(m, a);
    }
    forall d | 0 <= d < n
      ensures ListsOk(m', d)
    {
      assert ListsOk(m, d);
      assert Pending(m', d) == Pending(m, d);
    }
  }

  lemma PubMem(m: Mem, n: nat, c: nat, k: Cpu)
    requires MemOk(m, n) && PubOk(m, n, c, k)
    ensures MemOk(Published(m, c, k), n)
  {
    hide ListOk, NodeOk, Unique, BucketOk, ListsOk;
    PubRest(m, n, c, k);
    var m' := Published(m, c, k);
    forall p
      ensures ListOk(m', p)
    {
      PubList(m, n, c, k, p);
    }
    forall w | 0 <= w < |m'.nodes|
      ensures NodeOk(m', w)
    {
      PubNode(m, n, c, k, w);
    }
  }

  lemma PubChange(m: Mem, n: nat, c: nat, k: Cpu, e: nat)
    requires MemOk(m, n) && PubOk(m, n, c, k) && e < n && e != c
    ensures Change(m, Published(m, c, k), n, e)
  {
    hide ListOk, NodeOk, Unique, BucketOk, ListsOk;
    StampBound(m, n);
    var m' := Published(m, c, k);
    assert forall d :: Pending(m', d) <==> Pending(m, d);
  }

  lemma PubOwned(m: Mem, n: nat, c: nat, k: Cpu)
    requires MemOk(m, n) && CpuOk(m, n, c, k) && PubOk(m, n, c, k) && k.pc.Publish?
    ensures CpuOk(Published(m, c, k), n, c, Cleared(k, Done(k.dvar)))
  {
    hide MemOk, Ahead;
  }

  lemma UnlinkOwned(m: Mem, n: nat, c: nat, k: Cpu, i: nat)
    requires MemOk(m, n) && CpuOk(m, n, c, k) && k.pc.UnlinkStore? && Points(m, k.dvar)
    requires var b := Bucket(m, k.key); CutOk(m, b, k.dvar.n, k.prev, k.nx, i) && m.holder[b] == Some(c)
    ensures k.prev.At? ==> k.prev.n < |m.nodes|
    ensures CpuOk(Unlinked(m, Bucket(m, k.key), k.dvar.n, k.prev, k.nx), n, c, Cleared(k, Marking).(dvar := k.dvar))
  {
    hide MemOk, Ahead, Linked, Newest, Without;
    CutNodes(m, Bucket(m, k.key), k.dvar.n, k.prev, k.nx, i);
  }
}
