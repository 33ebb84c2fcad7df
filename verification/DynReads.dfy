/** The steps of dtrace_dynvar that only read shared memory keep what the CPU relies on. */
module DynReads {
  import opened Counting
  import opened DynSystem
  import opened DynInvariant

  /** The head of a list is its first chunk. */
  lemma HeadFacts(m: Mem, n: nat, p: Place)
    requires MemOk(m, n) && IsList(p)
    ensures HeadOf(m, p).At? ==> Points(m, HeadOf(m, p)) && m.nodes[HeadOf(m, p).n].place == p
    ensures !HeadOf(m, p).At? ==> HeadOf(m, p) == EndOf(p)
  {
    hide NodeOk, Unique, BucketOk, ListsOk;
    assert ListOk(m, p);
  }

  /** Where a chunk is on its list. */
  lemma Position(m: Mem, n: nat, v: nat) returns (i: nat)
    requires MemOk(m, n) && v < |m.nodes| && IsList(m.nodes[v].place)
    ensures var p := m.nodes[v].place; ListOk(m, p) && i < |L(m, p)| && L(m, p)[i] == v
  {
    hide Unique, BucketOk, ListsOk, ListOk, ClOk, MarkOk, Follows;
    var p := m.nodes[v].place;
    assert NodeOk(m, v) && ListOk(m, p);
    i :| 0 <= i < |L(m, p)| && L(m, p)[i] == v;
  }

  /** A chunk on a list leads to the next one there; on a chain, nothing lies between. */
  lemma NextFacts(m: Mem, n: nat, v: nat)
    requires MemOk(m, n) && v < |m.nodes| && IsList(m.nodes[v].place)
    ensures var nd := m.nodes[v];
            nd.next == EndOf(nd.place) || (Points(m, nd.next) && m.nodes[nd.next.n].place == nd.place)
    ensures m.nodes[v].place.Chain? ==> Follows(m.nodes, m.nodes[v].place.b, v)
  {
    hide MemOk, NoDup;
    var p := m.nodes[v].place;
    var i := Position(m, n, v);
    if p.Chain? {
      forall y | 0 <= y < |m.nodes| && m.nodes[y].place == p
        ensures m.nodes[y].stamp < m.nodes[v].stamp ==> m.nodes[y].stamp <= StampOf(m.nodes, m.nodes[v].next)
        ensures m.nodes[y].stamp == m.nodes[v].stamp ==> y == v
      {
        var j := Position(m, n, y);
      }
    }
  }

  lemma OwnHead(m: Mem, n: nat, c: nat, k: Cpu, yes: bool)
    requires MemOk(m, n) && CpuOk(m, n, c, k) && k.pc.Head?
    ensures CpuOk(m, n, c, GoCpu(m, n, c, k, yes))
  {
    hide MemOk, Ahead;
    var b := Bucket(m, k.key);
    HeadFacts(m, n, Chain(b));
    var k' := GoCpu(m, n, c, k, yes);
    assert Ahead(m.nodes, b, k', k'.start) by {
      StartAhead(m.nodes, b, k');
    }
  }

  lemma StartAhead(nodes: seq<Node>, b: nat, k: Cpu)
    ensures Ahead(nodes, b, k, k.start)
  {
  }

  lemma OwnVisit(m: Mem, n: nat, c: nat, k: Cpu, yes: bool)
    requires MemOk(m, n) && CpuOk(m, n, c, k) && k.pc.Visit? && Ready(m, n, c, k) && k.dvar.At?
    ensures CpuOk(m, n, c, GoCpu(m, n, c, k, yes))
  {
    hide MemOk, Ahead;
    MarkFacts(m, n, k.dvar.n);
    AheadSame(m.nodes, Bucket(m, k.key), k, GoCpu(m, n, c, k, yes));
  }

  lemma OwnVisitEnd(m: Mem, n: nat, c: nat, k: Cpu, yes: bool)
    requires MemOk(m, n) && CpuOk(m, n, c, k) && k.pc.Visit? && Ready(m, n, c, k) && !k.dvar.At?
    ensures CpuOk(m, n, c, GoCpu(m, n, c, k, yes))
  {
    hide MemOk, Ahead;
    AheadSame(m.nodes, Bucket(m, k.key), k, GoCpu(m, n, c, k, yes));
  }

  lemma MarkFacts(m: Mem, n: nat, v: nat)
    requires MemOk(m, n) && v < |m.nodes|
    ensures MarkOk(m.nodes[v], |m.chain|)
  {
    assert NodeOk(m, v);
  }

  /** Only the key and the start of the walk matter. */
  ghost predicate SameAhead(nodes: seq<Node>, b: nat, k: Cpu, k': Cpu) {
    k'.key == k.key && k'.start == k.start ==> forall r :: Ahead(nodes, b, k, r) ==> Ahead(nodes, b, k', r)
  }

  lemma AheadSame(nodes: seq<Node>, b: nat, k: Cpu, k': Cpu)
    ensures SameAhead(nodes, b, k, k')
  {
  }

  lemma AheadNext(nodes: seq<Node>, b: nat, k: Cpu, v: nat)
    requires v < |nodes| && Ahead(nodes, b, k, At(v)) && Follows(nodes, b, v) && nodes[v].key != k.key
    requires nodes[v].place == Chain(b) || nodes[v].place == Gone(b)
    ensures Ahead(nodes, b, k, nodes[v].next)
  {
  }

  lemma OwnFollow(m: Mem, n: nat, c: nat, k: Cpu, yes: bool)
    requires MemOk(m, n) && CpuOk(m, n, c, k) && k.pc.Follow? && Ready(m, n, c, k)
    ensures CpuOk(m, n, c, GoCpu(m, n, c, k, yes))
  {
    hide ListOk, Follows, MarkOk, Unique, BucketOk, ListsOk, Ahead;
    var b, v := Bucket(m, k.key), k.dvar.n;
    var k' := GoCpu(m, n, c, k, yes);
    assert NodeOk(m, v);
    AheadSame(m.nodes, b, k, k');
    if IsList(m.nodes[v].place) {
      NextFacts(m, n, v);
    }
    if m.nodes[v].place == Chain(b) || m.nodes[v].place == Gone(b) {
      FollowsFacts(m.nodes, b, v);
      AheadNext(m.nodes, b, k, v);
    }
  }

  lemma FollowsFacts(nodes: seq<Node>, b: nat, v: nat)
    requires v < |nodes| && Follows(nodes, b, v)
    ensures var z := nodes[v].next; z.Sink? || (z.At? && z.n < |nodes| && nodes[z.n].place == Chain(b))
  {
  }

  /** The remaining loads of a walk, and the compare-and-swaps that fail. */
  lemma OwnWalk(m: Mem, n: nat, c: nat, k: Cpu, yes: bool)
    requires MemOk(m, n) && CpuOk(m, n, c, k) && Ready(m, n, c, k)
    requires k.pc.Compare? || k.pc.UnlinkRead? ||
        (k.pc.UnlinkStore? && !k.prev.At? && m.chain[Bucket(m, k.key)] != k.start)
    ensures CpuOk(m, n, c, GoCpu(m, n, c, k, yes))
  {
    hide MemOk, Ahead, Follows;
    AheadSame(m.nodes, Bucket(m, k.key), k, GoCpu(m, n, c, k, yes));
    if k.pc.UnlinkRead? {
      NextFacts(m, n, k.dvar.n);
    }
  }

  lemma OwnLock(m: Mem, n: nat, c: nat, k: Cpu, yes: bool)
    requires MemOk(m, n) && CpuOk(m, n, c, k) && Ready(m, n, c, k)
    requires k.pc.LockRead? || (k.pc.LockCas? && m.lock[Bucket(m, k.key)] != k.lk) || k.pc.Top? || k.pc.Check?
    ensures CpuOk(m, n, c, GoCpu(m, n, c, k, yes))
  {
    hide MemOk, Ahead;
  }

  lemma OwnDirty(m: Mem, n: nat, c: nat, k: Cpu, yes: bool)
    requires MemOk(m, n) && CpuOk(m, n, c, k) && Ready(m, n, c, k)
    requires (k.pc.DirtyCas? && m.dirty[k.d] != k.nx) || (k.pc.Publish? && m.chain[Bucket(m, k.key)] != k.start)
    ensures CpuOk(m, n, c, GoCpu(m, n, c, k, yes))
  {
    hide MemOk, Ahead;
    AheadSame(m.nodes, Bucket(m, k.key), k, GoCpu(m, n, c, k, yes));
  }

  lemma OwnFree(m: Mem, n: nat, c: nat, k: Cpu, yes: bool)
    requires MemOk(m, n) && CpuOk(m, n, c, k) && Ready(m, n, c, k)
    requires k.pc.FreeRead? || k.pc.FreeNext? || (k.pc.FreePop? && m.free[k.d] != k.dvar)
    ensures CpuOk(m, n, c, GoCpu(m, n, c, k, yes))
  {
    hide MemOk, Ahead;
    AheadSame(m.nodes, Bucket(m, k.key), k, GoCpu(m, n, c, k, yes));
    HeadFacts(m, n, Free(k.d));
    MoverFacts(m, n, k.d);
  }

  lemma MoverFacts(m: Mem, n: nat, d: nat)
    requires MemOk(m, n) && d < n
    ensures m.mover[d].Some? ==> m.clean[d] == Null
    ensures Pending(m, d) ==> m.clean[d] == Null
  {
    assert ListsOk(m, d);
  }

  lemma OwnCleanList(m: Mem, n: nat, c: nat, k: Cpu, yes: bool)
    requires MemOk(m, n) && CpuOk(m, n, c, k) && Ready(m, n, c, k)
    requires k.pc.CleanRead? || (k.pc.CleanCas? && m.clean[k.d] != k.cl)
    ensures CpuOk(m, n, c, GoCpu(m, n, c, k, yes))
  {
    hide MemOk, Ahead;
    AheadSame(m.nodes, Bucket(m, k.key), k, GoCpu(m, n, c, k, yes));
    MoverFacts(m, n, k.d);
  }
}
