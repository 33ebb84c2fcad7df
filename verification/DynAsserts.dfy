/** The assertions of dtrace_dynvar, in every state of every run. */
module DynAsserts {
  import opened DynSystem
  import opened DynInvariant
  import opened DynStable
  import opened DynReads
  import opened DynSteps
  import opened DynTheorems
  import opened DynLookup
  import opened DynRace

  // ---------------------------------------------------------------- a deallocating walk goes from newer to older

  predicate Descends(nodes: seq<Node>, k: Cpu) {
    Holding(k) && Walking(k.pc) ==>
      && (k.dvar.At? ==> k.start.At? && StampOf(nodes, k.dvar) <= StampOf(nodes, k.start))
      && (k.prev.At? ==> k.start.At? && StampOf(nodes, k.prev) <= StampOf(nodes, k.start))
  }

  ghost predicate AllDescend(s: State) {
    forall c :: 0 <= c < |s.cpus| ==> Descends(s.m.nodes, s.cpus[c])
  }

  lemma FollowDescends(m: Mem, n: nat, c: nat, k: Cpu, yes: bool)
    requires MemOk(m, n) && CpuOk(m, n, c, k) && Ready(m, n, c, k) && Descends(m.nodes, k) && Holding(k) && k.pc.Follow?
    ensures Descends(m.nodes, GoCpu(m, n, c, k, yes))
  {
    hide MemOk, Ahead, SafeOk, HandOk, AllocOk, Follows;
    NextFacts(m, n, k.dvar.n);
    NextOlder(m, n, k.dvar.n);
  }

  lemma NextOlder(m: Mem, n: nat, v: nat)
    requires MemOk(m, n) && v < |m.nodes| && m.nodes[v].place.Chain?
    ensures StampOf(m.nodes, m.nodes[v].next) < m.nodes[v].stamp && !m.nodes[v].next.Null?
  {
    hide MemOk;
    NextFacts(m, n, v);
    Stamped(m, n, v);
  }

  lemma Stamped(m: Mem, n: nat, v: nat)
    requires MemOk(m, n) && v < |m.nodes| && m.nodes[v].place.Chain?
    ensures m.nodes[v].stamp > 0
  {
    hide ListOk, BucketOk, ListsOk, Unique;
    assert NodeOk(m, v);
  }

  lemma ReadDescends(m: Mem, n: nat, c: nat, k: Cpu, yes: bool)
    requires CpuOk(m, n, c, k) && Ready(m, n, c, k) && Descends(m.nodes, k) && !k.pc.Follow?
    ensures Descends(m.nodes, GoCpu(m, n, c, k, yes))
  {
    hide Ahead, SafeOk, HandOk, AllocOk;
  }

  /** A CPU that stores is not walking afterwards. */
  lemma StoreDescends(m: Mem, n: nat, c: nat, k: Cpu, yes: bool, nodes: seq<Node>)
    requires Ready(m, n, c, k) && Stores(m, n, c, k) && Shape(k)
    ensures Descends(nodes, GoCpu(m, n, c, k, yes))
  {
  }

  lemma OwnDescends(m: Mem, n: nat, c: nat, k: Cpu, yes: bool)
    requires MemOk(m, n) && CpuOk(m, n, c, k) && Ready(m, n, c, k) && Descends(m.nodes, k) && !k.pc.Idle? && !k.pc.Done?
    ensures Descends(GoMem(m, n, c, k).nodes, GoCpu(m, n, c, k, yes))
  {
    hide MemOk, GoMem, GoCpu, Descends, Stores, WalkOk, LockedOk, HandOk, AllocOk, SafeOk;
    if Stores(m, n, c, k) {
      StoreDescends(m, n, c, k, yes, GoMem(m, n, c, k).nodes);
    } else {
      ReadsSame(m, n, c, k);
      if k.pc.Follow? && Holding(k) {
        FollowDescends(m, n, c, k, yes);
      } else if k.pc.Follow? {
        NotHolding(m, n, c, k, yes);
      } else {
        ReadDescends(m, n, c, k, yes);
      }
    }
  }

  lemma NotHolding(m: Mem, n: nat, c: nat, k: Cpu, yes: bool)
    requires Ready(m, n, c, k) && k.pc.Follow? && !Holding(k)
    ensures Descends(m.nodes, GoCpu(m, n, c, k, yes))
  {
  }

  lemma OtherDescends(m: Mem, m': Mem, n: nat, c: nat, k: Cpu)
    requires Change(m, m', n, c) && CpuOk(m, n, c, k) && Descends(m.nodes, k)
    ensures Descends(m'.nodes, k)
  {
    hide Ahead, SafeOk, HandOk, AllocOk, SafeStep, PendStep;
    if Holding(k) && Walking(k.pc) {
      SameStamp(m, m', n, c, k.start, Bucket(m, k.key));
      SameStamp(m, m', n, c, k.dvar, Bucket(m, k.key));
      SameStamp(m, m', n, c, k.prev, Bucket(m, k.key));
    }
  }

  lemma SameStamp(m: Mem, m': Mem, n: nat, c: nat, r: Ref, b: nat)
    requires Change(m, m', n, c) && Seen(m.nodes, b, r)
    ensures StampOf(m'.nodes, r) == StampOf(m.nodes, r)
  {
    hide SafeStep, OwnStep;
    if r.At? && r.n < |m.nodes| {
      assert NodeStep(m.nodes[r.n], m'.nodes[r.n]);
    }
  }

  lemma DescendStep(s: State, st: Step)
    requires Inv(s) && AllDescend(s) && Fit(s, st)
    ensures AllDescend(Do(s, st))
  {
    hide MemOk, CpuOk, HolderOk, Descends, GoMem, GoCpu, CleanMem, Change;
    var s' := Do(s, st);
    forall c | 0 <= c < |s'.cpus|
      ensures Descends(s'.m.nodes, s'.cpus[c])
    {
      if Others(st, c) {
        OthersChange(s, st, c);
        OtherDescends(s.m, s'.m, |s.cpus|, c, s.cpus[c]);
      } else if st.Go? {
        OwnDescends(s.m, |s.cpus|, c, s.cpus[c], st.yes);
      } else {
        NotWalking(s'.m.nodes, s'.cpus[c]);
      }
    }
  }

  lemma NotWalking(nodes: seq<Node>, k: Cpu)
    requires !Walking(k.pc)
    ensures Descends(nodes, k)
  {
  }

  lemma {:induction false} RunDescends(tr: seq<State>, ss: seq<Step>, i: nat)
    requires Run(tr, ss) && i < |tr|
    ensures AllDescend(tr[i])
  {
    hide Inv, Do, Fit;
    if i > 0 {
      RunKeeps(tr, ss, i - 1);
      RunDescends(tr, ss, i - 1);
      DescendStep(tr[i - 1], ss[i - 1]);
    }
  }

  // ---------------------------------------------------------------- the assertions

  /** r is not NULL, and if it is a chunk it is not marked free. */
  predicate InUse(m: Mem, r: Ref) {
    !r.Null? && (r.At? ==> Points(m, r) && !m.nodes[r.n].mark.Unused?)
  }

  /** The ASSERTs of dtrace_dynvar, but for the one on the free list; and a walk that runs onto a dirty list starts
      over. */
  predicate CallAsserts(m: Mem, k: Cpu)
    requires |m.chain| == |m.lock| > 0
  {
    var b := Bucket(m, k.key);
    && (k.pc.Visit? ==> !k.start.Null? && (k.op.Dealloc? ==> InUse(m, k.dvar) && (k.prev.Null? ==> InUse(m, k.start))))
    && (k.pc.UnlinkRead? ==> Points(m, k.dvar) && InUse(m, m.nodes[k.dvar.n].next))
    && (k.pc.UnlinkStore? && k.prev.At? ==>
          m.chain[b] != k.dvar && k.start != k.dvar && Points(m, k.prev) && m.nodes[k.prev.n].next == k.dvar)
    && (k.pc.Marking? ==> m.chain[b] != k.dvar)
    && (k.pc.Miss? || k.pc.Unlock? ==> m.lock[b] == k.lk && k.lk % 2 == 1)
    && (k.pc.FreeSet? ==> Points(m, k.cl) && m.nodes[k.cl.n].mark.Unused?)
    && (k.pc.FillMark? ==> Points(m, k.dvar) && m.nodes[k.dvar.n].mark.Unused?)
    && (k.pc.Visit? && k.dvar.At? ==>
          && Points(m, k.dvar)
          && (Swept(m.nodes[k.dvar.n].place) || m.nodes[k.dvar.n].place.Going? ==> Visited(m, k).pc.Top?))
  }

  lemma ChainInUse(m: Mem, n: nat, r: Ref, b: nat)
    requires MemOk(m, n) && (r.Sink? || (Points(m, r) && m.nodes[r.n].place == Chain(b)))
    ensures InUse(m, r)
  {
    hide MemOk;
    if r.At? {
      MarkFacts(m, n, r.n);
    }
  }

  lemma VisitAsserts(m: Mem, n: nat, c: nat, k: Cpu)
    requires MemOk(m, n) && CpuOk(m, n, c, k) && k.pc.Visit?
    ensures CallAsserts(m, k)
  {
    hide MemOk, Ahead, SafeOk, HandOk, AllocOk;
    if k.op.Dealloc? {
      ChainInUse(m, n, k.dvar, Bucket(m, k.key));
    }
    if k.dvar.At? {
      MarkFacts(m, n, k.dvar.n);
    }
  }

  lemma UnlinkAsserts(m: Mem, n: nat, c: nat, k: Cpu)
    requires MemOk(m, n) && CpuOk(m, n, c, k) && Descends(m.nodes, k) && (k.pc.UnlinkRead? || k.pc.UnlinkStore?)
    ensures CallAsserts(m, k)
  {
    hide MemOk, Ahead, SafeOk, HandOk, AllocOk, Follows;
    var b := Bucket(m, k.key);
    NextFacts(m, n, k.dvar.n);
    ChainInUse(m, n, m.nodes[k.dvar.n].next, b);
    if k.pc.UnlinkStore? && k.prev.At? {
      NextOlder(m, n, k.prev.n);
      HeadNewest(m, n, b, k.prev.n);
    }
  }

  lemma MarkingAsserts(m: Mem, n: nat, c: nat, k: Cpu)
    requires MemOk(m, n) && CpuOk(m, n, c, k) && k.pc.Marking?
    ensures CallAsserts(m, k)
  {
    hide MemOk, Ahead, SafeOk, AllocOk;
    HeadFacts(m, n, Chain(Bucket(m, k.key)));
  }

  lemma CarryAsserts(m: Mem, n: nat, c: nat, k: Cpu)
    requires MemOk(m, n) && CpuOk(m, n, c, k) && k.pc.FreeSet?
    ensures CallAsserts(m, k)
  {
    hide MemOk, Ahead, SafeOk, HandOk;
    HeadFacts(m, n, Moving(k.d));
    Carried(m, n, k.d);
    MarkFacts(m, n, k.cl.n);
  }

  lemma Carried(m: Mem, n: nat, d: nat)
    requires MemOk(m, n) && d < n && m.mover[d].Some?
    ensures m.moving[d].At?
  {
    hide ListOk, NodeOk, Unique, BucketOk;
    assert ListsOk(m, d);
  }

  lemma RestAsserts(m: Mem, n: nat, c: nat, k: Cpu)
    requires MemOk(m, n) && CpuOk(m, n, c, k)
    requires !k.pc.Visit? && !k.pc.UnlinkRead? && !k.pc.UnlinkStore? && !k.pc.Marking? && !k.pc.FreeSet?
    ensures CallAsserts(m, k)
  {
    hide ListOk, NodeOk, Unique, ListsOk, Ahead, SafeOk;
    assert BucketOk(m, Bucket(m, k.key));
  }

  /** In every state of every run, the assertions of dtrace_dynvar hold where each CPU stands; the one on the free list,
      that the compare-and-swap from NULL succeeds, holds when the run is without the race. */
  lemma CallAssertsHold(tr: seq<State>, ss: seq<Step>, i: nat, c: nat)
    requires Run(tr, ss) && i < |tr| && c < |tr[i].cpus|
    ensures |tr[i].m.chain| == |tr[i].m.lock| > 0 && CallAsserts(tr[i].m, tr[i].cpus[c])
    ensures NoRace(tr, ss) && tr[i].cpus[c].pc.FreeSet? ==>
              tr[i].cpus[c].d < |tr[i].m.free| && tr[i].m.free[tr[i].cpus[c].d] == Null
  {
    hide MemOk, HolderOk, Do, Fit, CallAsserts, Descends, Initial, Race, Ahead;
    RunKeeps(tr, ss, i);
    RunDescends(tr, ss, i);
    var m, n, k := tr[i].m, |tr[i].cpus|, tr[i].cpus[c];
    assert CpuOk(m, n, c, k);
    if NoRace(tr, ss) {
      NothingLost(tr, ss, i);
      assert AvailOk(m, k);
    }
    match k.pc
    case Visit => VisitAsserts(m, n, c, k);
    case UnlinkRead => UnlinkAsserts(m, n, c, k);
    case UnlinkStore => UnlinkAsserts(m, n, c, k);
    case Marking => MarkingAsserts(m, n, c, k);
    case FreeSet => CarryAsserts(m, n, c, k);
    case _ => RestAsserts(m, n, c, k);
  }
}
