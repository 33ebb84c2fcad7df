/** What the dynamic-variable hash promises, over every run, any number of CPUs, buckets and chunks. */
module DynTheorems {
  import opened Options
  import opened Counting
  import opened DynSystem
  import opened DynInvariant
  import opened DynReads
  import opened DynWrites
  import opened DynLinks
  import opened DynPush
  import opened DynSteps

  /** As dtrace_dstate_init leaves it: disjoint free lists, one for each CPU, and nothing else. */
  ghost predicate Initial(s: State) {
    var m, n := s.m, |s.cpus|;
    && Sized(m, n) && m.cl.CIdle?
    && (forall b :: 0 <= b < |m.chain| ==> m.chain[b] == Sink && m.lock[b] == 0 && m.holder[b].None? && m.gone[b].None?)
    && (forall d :: 0 <= d < n ==>
        m.dirty[d] == Null && m.rinsing[d] == Null && m.clean[d] == Null && m.hand[d].None? && m.mover[d].None? &&
        m.moving[d] == Null)
    && (forall p :: L(m, p) != [] ==> p.Free? && p.d < n)
    && (forall d :: 0 <= d < n ==> m.free[d] == Nth(L(m, Free(d)), 0, Null) && Linked(m.nodes, Free(d), L(m, Free(d))))
    && (forall v :: 0 <= v < |m.nodes| ==>
          && m.nodes[v].mark.Unused? && m.nodes[v].stamp == 0
          && (m.nodes[v].place.Nowhere? || (m.nodes[v].place.Free? && v in L(m, m.nodes[v].place))))
    && (forall c :: 0 <= c < n ==> s.cpus[c].pc.Idle? && s.cpus[c].d < n && Cleared(s.cpus[c], Idle) == s.cpus[c])
  }

  ghost predicate Run(tr: seq<State>, ss: seq<Step>) {
    && |tr| == |ss| + 1 && Initial(tr[0])
    && forall i :: 0 <= i < |ss| ==> Fit(tr[i], ss[i]) && tr[i + 1] == Do(tr[i], ss[i])
  }

  lemma InitInv(s: State)
    requires Initial(s)
    ensures Inv(s)
  {
    hide Linked, Ahead, Follows;
    var m, n := s.m, |s.cpus|;
    forall p
      ensures ListOk(m, p)
    {
      if !p.Free? {
        assert L(m, p) == [];
      }
      EmptyLinked(m.nodes, p);
    }
    forall v | 0 <= v < |m.nodes|
      ensures NodeOk(m, v)
    {
    }
    forall d | 0 <= d < n
      ensures ListsOk(m, d)
    {
      assert L(m, Rinse(d)) == [];
    }
    assert MemOk(m, n);
    forall c | 0 <= c < n
      ensures CpuOk(m, n, c, s.cpus[c])
    {
      IdleOk(m, n, c, s.cpus[c]);
    }
  }

  lemma EmptyLinked(nodes: seq<Node>, p: Place)
    ensures Linked(nodes, p, [])
  {
  }

  lemma {:induction false} RunKeeps(tr: seq<State>, ss: seq<Step>, i: nat)
    requires Run(tr, ss) && i < |tr|
    ensures Inv(tr[i]) && |tr[i].cpus| == |tr[0].cpus|
  {
    hide Inv, Do, Fit, Initial;
    if i == 0 {
      InitInv(tr[0]);
    } else {
      RunKeeps(tr, ss, i - 1);
      StepKeeps(tr[i - 1], ss[i - 1]);
    }
  }

  /** No CPU ever relies on a register that does not point into memory: every enabled step can be taken. */
  lemma NeverAstray(s: State, st: Step)
    requires Inv(s) && Enabled(s, st)
    ensures Fit(s, st)
  {
    hide CpuOk, ListOk, NodeOk, Unique, BucketOk, ListsOk, Ready;
    if st.Go? {
      AlwaysReady(s.m, |s.cpus|, st.c, s.cpus[st.c]);
    }
  }

  // ---------------------------------------------------------------- every chunk is in exactly one place

  /** The i-th pointer from r on. */
  function Walk(nodes: seq<Node>, r: Ref, i: nat): Ref
    decreases i
  {
    if i == 0 || !r.At? || r.n >= |nodes| then r else Walk(nodes, nodes[r.n].next, i - 1)
  }

  lemma LinkAt(nodes: seq<Node>, p: Place, q: seq<nat>, j: nat)
    requires Linked(nodes, p, q) && j < |q|
    ensures q[j] < |nodes| && nodes[q[j]].next == Nth(q, j + 1, EndOf(p))
  {
    hide NoDup;
  }

  lemma {:induction false} WalkIs(nodes: seq<Node>, p: Place, q: seq<nat>, i: nat, j: nat)
    requires Linked(nodes, p, q) && j <= |q|
    ensures Walk(nodes, Nth(q, j, EndOf(p)), i) == Nth(q, if i + j <= |q| then i + j else |q|, EndOf(p))
    decreases i
  {
    hide Linked;
    if i > 0 && j < |q| {
      LinkAt(nodes, p, q, j);
      WalkIs(nodes, p, q, i - 1, j + 1);
    }
  }

  /** Following pointers from the head of list p comes past chunk v. */
  ghost predicate Reaches(m: Mem, p: Place, v: nat) {
    IsList(p) && exists i: nat :: Walk(m.nodes, HeadOf(m, p), i) == At(v)
  }

  predicate InHand(k: Cpu, v: nat) {
    (HasHand(k) || HasGone(k)) && k.dvar == At(v)
  }

  lemma ReachesPlace(m: Mem, n: nat, p: Place, v: nat)
    requires MemOk(m, n) && v < |m.nodes|
    ensures Reaches(m, p, v) <==> IsList(p) && m.nodes[v].place == p
  {
    hide NodeOk, Unique, BucketOk, ListsOk, Linked, Newest;
    assert ListOk(m, p);
    if IsList(p) {
      var q := L(m, p);
      if i: nat :| Walk(m.nodes, HeadOf(m, p), i) == At(v) {
        WalkIs(m.nodes, p, q, i, 0);
        LinkedFacts(m.nodes, p, q);
      }
      if m.nodes[v].place == p {
        var i := Position(m, n, v);
        WalkIs(m.nodes, p, q, i, 0);
        assert Walk(m.nodes, HeadOf(m, p), i) == At(v);
      }
    }
  }

  lemma HandPlaceIs(s: State, c: nat, v: nat)
    requires Inv(s) && c < |s.cpus| && InHand(s.cpus[c], v)
    ensures v < |s.m.nodes| && (s.m.nodes[v].place == Fresh(c) ||
        ((s.m.nodes[v].place.Gone? || s.m.nodes[v].place.Going?) && s.m.nodes[v].place.b < |s.m.holder| &&
        s.m.holder[s.m.nodes[v].place.b] == Some(c)))
  {
    hide ListOk, NodeOk, Unique, WalkOk, AllocOk, SafeOk;
    var k := s.cpus[c];
    assert CpuOk(s.m, |s.cpus|, c, k) && ListsOk(s.m, c) && BucketOk(s.m, Bucket(s.m, k.key));
  }

  lemma PlaceInHand(s: State, v: nat) returns (c: nat)
    requires Inv(s) && v < |s.m.nodes| && !IsList(s.m.nodes[v].place) && !s.m.nodes[v].place.Nowhere?
    ensures c < |s.cpus| && InHand(s.cpus[c], v)
  {
    hide ListOk, Unique, ListsOk, WalkOk, AllocOk, SafeOk, Follows, MarkOk, Sweeping;
    var p := s.m.nodes[v].place;
    assert NodeOk(s.m, v);
    if p.Fresh? {
      c := p.c;
    } else {
      assert BucketOk(s.m, p.b);
      c := s.m.holder[p.b].v;
    }
    assert CpuOk(s.m, |s.cpus|, c, s.cpus[c]);
  }

  /** Every chunk is on exactly one list, as the pointers have it, or in exactly one CPU's hands. */
  lemma OnePlace(s: State, v: nat)
    requires Inv(s) && v < |s.m.nodes| && !s.m.nodes[v].place.Nowhere?
    ensures || (&& (exists p :: Reaches(s.m, p, v))
                && (forall p, p' :: Reaches(s.m, p, v) && Reaches(s.m, p', v) ==> p == p')
                && (forall c :: 0 <= c < |s.cpus| ==> !InHand(s.cpus[c], v)))
            || (&& (forall p :: !Reaches(s.m, p, v))
                && (exists c :: 0 <= c < |s.cpus| && InHand(s.cpus[c], v))
                && (forall c, e :: 0 <= c < |s.cpus| && 0 <= e < |s.cpus| && InHand(s.cpus[c], v) &&
                                   InHand(s.cpus[e], v) ==>
                                     c == e))
  {
    hide MemOk, CpuOk, Reaches, InHand, HolderOk;
    forall p
      ensures Reaches(s.m, p, v) <==> IsList(p) && s.m.nodes[v].place == p
    {
      ReachesPlace(s.m, |s.cpus|, p, v);
    }
    forall c | 0 <= c < |s.cpus| && InHand(s.cpus[c], v)
      ensures s.m.nodes[v].place == Fresh(c) ||
          ((s.m.nodes[v].place.Gone? || s.m.nodes[v].place.Going?) && s.m.nodes[v].place.b < |s.m.holder| &&
          s.m.holder[s.m.nodes[v].place.b] == Some(c))
    {
      HandPlaceIs(s, c, v);
    }
    if IsList(s.m.nodes[v].place) {
      assert Reaches(s.m, s.m.nodes[v].place, v);
    } else {
      var c := PlaceInHand(s, v);
    }
  }

  // ---------------------------------------------------------------- the compare-and-swaps are not fooled

  /** Whenever a compare-and-swap on a list head would succeed, what the CPU read before it still holds. */
  ghost predicate CasSound(s: State, c: nat)
    requires Sized(s.m, |s.cpus|) && c < |s.cpus| && s.cpus[c].d < |s.cpus|
  {
    var m, k := s.m, s.cpus[c];
    var b := Bucket(m, k.key);
    && (k.pc.FreePop? && m.free[k.d] == k.dvar ==> Points(m, k.dvar) && m.nodes[k.dvar.n].next == k.nx)
    && (k.pc.Publish? && m.chain[b] == k.start ==>
          forall y :: 0 <= y < |m.nodes| && m.nodes[y].place == Chain(b) ==> m.nodes[y].key != k.key)
    && (k.pc.UnlinkStore? ==> Points(m, k.dvar) && m.nodes[k.dvar.n].next == k.nx)
    && (k.pc.UnlinkStore? && k.prev.Null? && m.chain[b] == k.start ==> m.chain[b] == k.dvar)
    && (k.pc.UnlinkStore? && k.prev.At? ==> Points(m, k.prev) && m.nodes[k.prev.n].next == k.dvar)
  }

  lemma CasesSound(s: State, c: nat)
    requires Inv(s) && c < |s.cpus|
    ensures s.cpus[c].d < |s.cpus| && CasSound(s, c)
  {
    hide MemOk, Ahead, SafeOk;
    var m, n, k := s.m, |s.cpus|, s.cpus[c];
    assert CpuOk(m, n, c, k);
    if k.pc.FreePop? && m.free[k.d] == k.dvar {
      PopFacts(m, n, c, k);
    } else if k.pc.Publish? && m.chain[Bucket(m, k.key)] == k.start {
      PubFacts(m, n, c, k);
    }
  }

  /** The ASSERTs of dtrace_dynvar_clean: CPU d's rinsing list is empty when the scan comes to it, and its clean list
      when the rinsing list is handed over. */
  lemma CleanAssertsHold(s: State, d: nat)
    requires Inv(s) && d < |s.cpus|
    ensures s.m.cl.CScan? && s.m.cl.i <= d ==> s.m.rinsing[d] == Null
    ensures s.m.cl.CRefill? && s.m.rinsing[d] != Null ==> s.m.clean[d] == Null
  {
    hide NodeOk, Unique, BucketOk, CpuOk, Linked, Newest;
    assert ListsOk(s.m, d) && ListOk(s.m, Rinse(d));
  }

  // ---------------------------------------------------------------- an atomic map

  /** Chunk v holds the variable with this key. */
  predicate In(m: Mem, key: Key, v: nat) {
    v < |m.nodes| && m.nodes[v].place == Chain(Bucket(m, key)) && m.nodes[v].key == key
  }

  /** The step publishes chunk v under this key. */
  predicate Adds(s: State, st: Step, key: Key, v: nat)
    requires Fit(s, st)
  {
    && st.Go? && s.cpus[st.c].pc.Publish? && s.cpus[st.c].key == key && s.cpus[st.c].dvar == At(v)
    && s.m.chain[Bucket(s.m, key)] == s.cpus[st.c].start
  }

  /** The step takes chunk v, which holds this key, off its chain. */
  predicate Removes(s: State, st: Step, key: Key, v: nat)
    requires Fit(s, st)
  {
    && st.Go? && s.cpus[st.c].pc.UnlinkStore? && s.cpus[st.c].key == key && s.cpus[st.c].dvar == At(v)
    && (s.cpus[st.c].prev.At? || s.m.chain[Bucket(s.m, key)] == s.cpus[st.c].start)
  }

  /** Nothing enters or leaves a chain, and no key on a chain changes. */
  predicate ChainsSame(m: Mem, m': Mem) {
    && |m'.nodes| == |m.nodes| && |m'.chain| == |m.chain|
    && forall v :: 0 <= v < |m.nodes| && (m.nodes[v].place.Chain? || m'.nodes[v].place.Chain?) ==>
         m'.nodes[v].place == m.nodes[v].place && m'.nodes[v].key == m.nodes[v].key
  }

  lemma GoChains(m: Mem, n: nat, c: nat, k: Cpu)
    requires MemOk(m, n) && CpuOk(m, n, c, k) && Ready(m, n, c, k)
    requires !(k.pc.Publish? && m.chain[Bucket(m, k.key)] == k.start)
    requires !(k.pc.UnlinkStore? && (k.prev.At? || m.chain[Bucket(m, k.key)] == k.start))
    ensures ChainsSame(m, GoMem(m, n, c, k))
  {
    hide MemOk, CpuOk, L, NewNode;
    if Writes(k.pc) {
      WritesPrivate(m, n, c, k);
    } else if k.pc.DirtyCas? && m.dirty[k.d] == k.nx {
      SweepFacts(m, n, c, k);
    } else if k.pc.FreePop? && m.free[k.d] == k.dvar {
      PopFacts(m, n, c, k);
    }
  }

  lemma CleanChains(m: Mem, n: nat)
    requires Sized(m, n)
    ensures ChainsSame(m, CleanMem(m, n))
  {
    hide L;
  }

  /** The keys on the chains are a map that only the two compare-and-swaps (or the store) that publish and unlink a
      chunk change: a successful publication adds its key, which was absent, and an unlinking removes its key, which
      was there.  Every other step of every CPU and of the cleaner leaves the map alone. */
  lemma MapStep(s: State, st: Step, key: Key, v: nat)
    requires Inv(s) && Fit(s, st)
    ensures In(Do(s, st).m, key, v) <==> (In(s.m, key, v) && !Removes(s, st, key, v)) || Adds(s, st, key, v)
    ensures Adds(s, st, key, v) ==> forall w :: !In(s.m, key, w)
    ensures Removes(s, st, key, v) ==> In(s.m, key, v)
  {
    hide MemOk, CpuOk, GoMem, GoCpu, CleanMem, HolderOk;
    var m, n := s.m, |s.cpus|;
    match st
    case Go(c, yes) =>
      var k := s.cpus[c];
      if k.pc.Publish? && m.chain[Bucket(m, k.key)] == k.start {
        MapPublish(m, n, c, k, key, v);
      } else if k.pc.UnlinkStore? && (k.prev.At? || m.chain[Bucket(m, k.key)] == k.start) {
        MapUnlink(m, n, c, k, key, v);
      } else {
        GoChains(m, n, c, k);
      }
    case CleanGo => CleanChains(m, n);
    case _ =>
  }

  lemma MapPublish(m: Mem, n: nat, c: nat, k: Cpu, key: Key, v: nat)
    requires MemOk(m, n) && CpuOk(m, n, c, k) && Ready(m, n, c, k) && k.pc.Publish? &&
        m.chain[Bucket(m, k.key)] == k.start
    ensures In(GoMem(m, n, c, k), key, v) <==> In(m, key, v) || (k.key == key && k.dvar == At(v))
    ensures forall w :: !In(m, k.key, w)
  {
    hide MemOk, CpuOk, L;
    PubFacts(m, n, c, k);
  }

  lemma MapUnlink(m: Mem, n: nat, c: nat, k: Cpu, key: Key, v: nat)
    requires Unlinks(m, n, c, k)
    ensures In(GoMem(m, n, c, k), key, v) <==> In(m, key, v) && !(k.key == key && k.dvar == At(v))
    ensures In(m, k.key, k.dvar.n)
  {
    hide MemOk, L, LockedOk, HandOk, AllocOk, SafeOk, Ahead, Linked, Newest, Without;
    var i := UnlinkFacts(m, n, c, k);
    CutNodes(m, Bucket(m, k.key), k.dvar.n, k.prev, k.nx, i);
  }

  /** No key is ever on its chain twice. */
  lemma OneEntry(s: State, key: Key, v: nat, w: nat)
    requires Inv(s) && In(s.m, key, v) && In(s.m, key, w)
    ensures v == w
  {
    hide ListOk, NodeOk, BucketOk, ListsOk, CpuOk;
  }
}
