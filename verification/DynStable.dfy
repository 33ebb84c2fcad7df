/** What a step of anyone else may do to a CPU in probe context, and that it keeps what the CPU relies on. */
module DynStable {
  import opened Options
  import opened DynSystem
  import opened DynInvariant

  predicate Visible(p: Place) {
    p.Chain? || p.Gone? || p.Going? || p.Dirty? || p.Rinse?
  }

  /** The life of a chunk, one step at a time. */
  predicate Moves(p: Place, p': Place) {
    || p' == p
    || (match p
        case Chain(b) => p' == Gone(b)
        case Gone(b) => p' == Going(b)
        case Going(_) => p'.Dirty?
        case Dirty(d) => p' == Rinse(d)
        case Rinse(d) => p' == Clean(d)
        case Clean(d) => p' == Moving(d)
        case Moving(d) => p' == Free(d) || p'.Nowhere?
        case Free(_) => p'.Fresh?
        case Fresh(_) => p'.Chain? || p'.Dirty?
        case Nowhere => false)
  }

  predicate NodeStep(nd: Node, nd': Node) {
    && Moves(nd.place, nd'.place)
    && (Visible(nd.place) ==> nd'.key == nd.key && nd'.stamp == nd.stamp)
    && (nd.place.Free? && nd'.place.Free? ==> nd' == nd)
  }

  predicate PendStep(nodes: seq<Node>, nodes': seq<Node>, v: nat)
    requires v < |nodes| == |nodes'|
  {
    var nd, nd' := nodes[v], nodes'[v];
    && (nd'.place.Gone? || nd'.place.Going? ==>
        NotRinsed(nodes', nd'.pend) || ((nd.place.Gone? || nd.place.Going?) && nd'.pend == nd.pend))
    && (nd'.place.Going? ==>
        (nd.place.Going? && nd'.next == nd.next) || ((nd.place.Gone? || nd.place.Going?) && nd'.next == nd.pend))
  }

  predicate NodesStep(nodes: seq<Node>, nodes': seq<Node>, clock: nat) {
    && |nodes'| == |nodes|
    && (forall v :: 0 <= v < |nodes| ==> NodeStep(nodes[v], nodes'[v]))
    && (forall v :: 0 <= v < |nodes| && nodes'[v].place.Chain? ==>
        nodes[v].place == nodes'[v].place || nodes'[v].stamp > clock)
    && (forall v :: 0 <= v < |nodes| ==> nodes[v].stamp <= clock)
  }

  /** The cleaner's part: CPU c becomes safe only by being outside probe context, nothing is put aside while it is
      safe, and nothing becomes clean before. */
  ghost predicate SafeStep(m: Mem, m': Mem, c: nat)
    requires |m'.nodes| == |m.nodes|
  {
    && (Safe(m', c) ==> Safe(m, c))
    && (forall v :: 0 <= v < |m.nodes| && m.nodes[v].place.Rinse? && m'.nodes[v].place.Clean? ==> Safe(m, c))
    && (Safe(m', c) ==> forall v :: 0 <= v < |m.nodes| && m'.nodes[v].place.Rinse? ==> m.nodes[v].place.Rinse?)
    && (Safe(m', c) ==> forall v :: 0 <= v < |m.nodes| ==> PendStep(m.nodes, m'.nodes, v))
    && (Safe(m', c) ==> forall d :: Pending(m', d) ==> Pending(m, d))
  }

  /** What belongs to CPU c is left alone. */
  predicate OwnStep(m: Mem, m': Mem, c: nat)
    requires Sized(m, |m.hand|) && Sized(m', |m.hand|) && |m'.chain| == |m.chain| && |m'.nodes| == |m.nodes| &&
        c < |m.hand|
  {
    && (forall b :: 0 <= b < |m.holder| && m.holder[b] == Some(c) ==>
        m'.holder[b] == m.holder[b] && m'.lock[b] == m.lock[b] && m'.gone[b] == m.gone[b])
    && (forall v :: 0 <= v < |m.nodes| && m.nodes[v].place.Chain? && m.nodes[v].place.b < |m.holder| &&
                    m.holder[m.nodes[v].place.b] == Some(c) ==>
                      m'.nodes[v] == m.nodes[v])
    && (forall v :: 0 <= v < |m.nodes| && (m.nodes[v].place.Gone? || m.nodes[v].place.Going?) &&
                    m.nodes[v].place.b < |m.holder| && m.holder[m.nodes[v].place.b] == Some(c) ==>
                      m'.nodes[v] == m.nodes[v])
    && m'.hand[c] == m.hand[c]
    && (forall v :: 0 <= v < |m.nodes| && m.nodes[v].place == Fresh(c) ==> m'.nodes[v] == m.nodes[v])
    && (forall d :: 0 <= d < |m.hand| && m.mover[d] == Some(c) ==>
        m'.mover[d] == m.mover[d] && m'.moving[d] == m.moving[d])
  }

  ghost predicate Change(m: Mem, m': Mem, n: nat, c: nat) {
    && Sized(m, n) && Sized(m', n) && |m'.chain| == |m.chain| && |m'.nodes| == |m.nodes| && c < n
    && NodesStep(m.nodes, m'.nodes, m.clock) && SafeStep(m, m', c) && OwnStep(m, m', c)
  }

  // ---------------------------------------------------------------- stability

  lemma SeenStays(m: Mem, m': Mem, n: nat, c: nat, b: nat, r: Ref)
    requires Change(m, m', n, c) && Seen(m.nodes, b, r) && (Safe(m, c) ==> NotRinsed(m.nodes, r))
    ensures Seen(m'.nodes, b, r) && StampOf(m'.nodes, r) == StampOf(m.nodes, r)
    ensures Safe(m', c) ==> NotRinsed(m'.nodes, r)
  {
    hide OwnStep, PendStep;
  }

  lemma AheadStays(nodes: seq<Node>, nodes': seq<Node>, clock: nat, b: nat, k: Cpu, r: Ref)
    requires NodesStep(nodes, nodes', clock) && Ahead(nodes, b, k, r)
    requires StampOf(nodes', k.start) == StampOf(nodes, k.start) && StampOf(nodes', r) == StampOf(nodes, r)
    ensures Ahead(nodes', b, k, r)
  {
    forall y | 0 <= y < |nodes'| && nodes'[y].place == Chain(b) && nodes'[y].key == k.key &&
        nodes'[y].stamp <= StampOf(nodes', k.start)
      ensures nodes'[y].stamp <= StampOf(nodes', r)
    {
      assert NodeStep(nodes[y], nodes'[y]);
    }
  }

  lemma StableWalk(m: Mem, m': Mem, n: nat, c: nat, k: Cpu)
    requires Change(m, m', n, c) && CpuOk(m, n, c, k)
    ensures WalkOk(m', Bucket(m', k.key), k)
  {
    hide OwnStep, PendStep, LockedOk, HandOk, AllocOk, Ahead, Shape, SafeStep;
    var b := Bucket(m, k.key);
    if Walking(k.pc) {
      SafeRefs(m, n, c, k);
      SeenStays(m, m', n, c, b, k.start);
      SeenStays(m, m', n, c, b, k.dvar);
      SeenStays(m, m', n, c, b, k.prev);
      if k.dvar.At? {
        assert NodeStep(m.nodes[k.dvar.n], m'.nodes[k.dvar.n]);
        if m.nodes[k.dvar.n].place == Chain(b) || m.nodes[k.dvar.n].place == Gone(b) {
          AheadStays(m.nodes, m'.nodes, m.clock, b, k, k.dvar);
        }
      } else if k.dvar.Sink? {
        AheadStays(m.nodes, m'.nodes, m.clock, b, k, Sink);
      }
    }
  }

  lemma SafeRefs(m: Mem, n: nat, c: nat, k: Cpu)
    requires CpuOk(m, n, c, k)
    ensures Safe(m, c) ==> NotRinsed(m.nodes, k.start) && NotRinsed(m.nodes, k.dvar) && NotRinsed(m.nodes, k.prev)
    ensures Safe(m, c) && !k.pc.FreePop? ==> NotRinsed(m.nodes, k.nx)
  {
    hide WalkOk, LockedOk, HandOk, AllocOk, Shape;
  }

  lemma StableLocked(m: Mem, m': Mem, n: nat, c: nat, k: Cpu)
    requires Change(m, m', n, c) && CpuOk(m, n, c, k)
    ensures LockedOk(m', Bucket(m', k.key), c, k)
  {
    hide NodesStep, SafeStep, WalkOk, HandOk, AllocOk, SafeOk;
  }

  lemma StableHand(m: Mem, m': Mem, n: nat, c: nat, k: Cpu)
    requires Change(m, m', n, c) && CpuOk(m, n, c, k) && MemOk(m, n)
    ensures HandOk(m', Bucket(m', k.key), c, k)
  {
    hide WalkOk, AllocOk, ListOk, Unique, ListsOk;
    var b := Bucket(m, k.key);
    if HasHand(k) {
      assert ListsOk(m, c);
      HandPlace(m, n, c);
      assert m'.nodes[k.dvar.n] == m.nodes[k.dvar.n];
    } else if HasGone(k) {
      assert BucketOk(m, b);
      assert m'.nodes[k.dvar.n] == m.nodes[k.dvar.n];
    }
    if Sweeps(k.pc) && !k.pc.DirtyRead? && k.nx.At? {
      SafeRefs(m, n, c, k);
      assert NodeStep(m.nodes[k.nx.n], m'.nodes[k.nx.n]);
    }
  }

  lemma HandPlace(m: Mem, n: nat, c: nat)
    requires Sized(m, n) && c < n && ListsOk(m, c) && m.hand[c].Some?
    ensures m.hand[c].v < |m.nodes| && m.nodes[m.hand[c].v].place == Fresh(c)
  {
  }

  lemma StableAlloc(m: Mem, m': Mem, n: nat, c: nat, k: Cpu)
    requires Change(m, m', n, c) && CpuOk(m, n, c, k) && MemOk(m, n)
    ensures AllocOk(m', Bucket(m', k.key), c, k)
  {
    hide PendStep, WalkOk, LockedOk, HandOk, Ahead, ListOk, NodeOk, Unique, BucketOk, ListsOk;
    var b := Bucket(m, k.key);
    if Allocating(k.pc) {
      SafeRefs(m, n, c, k);
      SeenStays(m, m', n, c, b, k.start);
      AheadStays(m.nodes, m'.nodes, m.clock, b, k, Sink);
      if k.pc.FreeNext? || k.pc.FreePop? {
        assert NodeStep(m.nodes[k.dvar.n], m'.nodes[k.dvar.n]);
      }
    }
  }

  lemma StableSafe(m: Mem, m': Mem, n: nat, c: nat, k: Cpu)
    requires Change(m, m', n, c) && CpuOk(m, n, c, k)
    ensures SafeOk(m', Bucket(m', k.key), c, k)
  {
    hide OwnStep, LockedOk, HandOk, AllocOk, Ahead;
    if Safe(m', c) {
      forall r: Ref | NotRinsed(m.nodes, r)
        ensures NotRinsed(m'.nodes, r)
      {
      }
      if Watches(k) && Points(m, k.dvar) {
        assert PendStep(m.nodes, m'.nodes, k.dvar.n);
        assert NodeStep(m.nodes[k.dvar.n], m'.nodes[k.dvar.n]);
      }
    }
  }

  lemma Stable(m: Mem, m': Mem, n: nat, c: nat, k: Cpu)
    requires Change(m, m', n, c) && CpuOk(m, n, c, k) && MemOk(m, n)
    ensures CpuOk(m', n, c, k)
  {
    hide NodesStep, SafeStep, OwnStep, WalkOk, LockedOk, HandOk, AllocOk, SafeOk, MemOk;
    StableWalk(m, m', n, c, k);
    StableLocked(m, m', n, c, k);
    StableHand(m, m', n, c, k);
    StableAlloc(m, m', n, c, k);
    StableSafe(m, m', n, c, k);
  }
}
