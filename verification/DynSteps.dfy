/** Every step keeps the invariant. */
module DynSteps {
  import opened Options
  import opened DynSystem
  import opened DynInvariant
  import opened DynStable
  import opened DynReads
  import opened DynWrites
  import opened DynLinks
  import opened DynPush
  import opened DynMoves
  import opened DynCleaner

  /** The registers a step relies on always point into memory. */
  lemma AlwaysReady(m: Mem, n: nat, c: nat, k: Cpu)
    requires CpuOk(m, n, c, k)
    ensures Ready(m, n, c, k)
  {
    hide Ahead, SafeOk;
  }

  /** The step changes shared memory. */
  predicate Stores(m: Mem, n: nat, c: nat, k: Cpu)
    requires Ready(m, n, c, k)
  {
    || Writes(k.pc) || k.pc.Miss? || k.pc.Unlock? || (k.pc.LockCas? && m.lock[Bucket(m, k.key)] == k.lk)
    || (k.pc.UnlinkStore? && (k.prev.At? || m.chain[Bucket(m, k.key)] == k.start))
    || (k.pc.DirtyCas? && m.dirty[k.d] == k.nx) || (k.pc.FreePop? && m.free[k.d] == k.dvar)
    || (k.pc.CleanCas? && m.clean[k.d] == k.cl) || k.pc.FreeSet?
    || (k.pc.Publish? && m.chain[Bucket(m, k.key)] == k.start)
  }

  lemma ReadsSame(m: Mem, n: nat, c: nat, k: Cpu)
    requires Ready(m, n, c, k) && !Stores(m, n, c, k)
    ensures GoMem(m, n, c, k) == m
  {
  }

  lemma ReadOwn(m: Mem, n: nat, c: nat, k: Cpu, yes: bool)
    requires MemOk(m, n) && CpuOk(m, n, c, k) && Ready(m, n, c, k) && !Stores(m, n, c, k) && !k.pc.Idle? && !k.pc.Done?
    ensures CpuOk(m, n, c, GoCpu(m, n, c, k, yes))
  {
    hide MemOk, CpuOk, GoCpu;
    match k.pc
    case Head => OwnHead(m, n, c, k, yes);
    case Visit =>
      if k.dvar.At? {
        OwnVisit(m, n, c, k, yes);
      } else {
        OwnVisitEnd(m, n, c, k, yes);
      }
    case Follow => OwnFollow(m, n, c, k, yes);
    case LockRead | LockCas | Top | Check => OwnLock(m, n, c, k, yes);
    case Compare | UnlinkRead | UnlinkStore => OwnWalk(m, n, c, k, yes);
    case DirtyCas | Publish => OwnDirty(m, n, c, k, yes);
    case FreeRead | FreeNext | FreePop => OwnFree(m, n, c, k, yes);
    case CleanRead | CleanCas => OwnCleanList(m, n, c, k, yes);
  }

  lemma WriteOwn(m: Mem, n: nat, c: nat, k: Cpu, yes: bool)
    requires MemOk(m, n) && CpuOk(m, n, c, k) && Ready(m, n, c, k) && Stores(m, n, c, k) && Writes(k.pc)
    ensures MemOk(GoMem(m, n, c, k), n) && CpuOk(GoMem(m, n, c, k), n, c, GoCpu(m, n, c, k, yes))
  {
    hide MemOk, CpuOk, SetNode, Private;
    WritesPrivate(m, n, c, k);
    PrivateMem(m, n, k.dvar.n, NewNode(m, n, c, k));
    if Filling(k.pc) {
      FillOwn(m, n, c, k, yes);
    } else {
      SweepOwn(m, n, c, k, yes);
    }
  }

  lemma UnlinkOwn(m: Mem, n: nat, c: nat, k: Cpu, yes: bool)
    requires MemOk(m, n) && CpuOk(m, n, c, k) && Ready(m, n, c, k) && Stores(m, n, c, k) && k.pc.UnlinkStore?
    ensures MemOk(GoMem(m, n, c, k), n) && CpuOk(GoMem(m, n, c, k), n, c, GoCpu(m, n, c, k, yes))
  {
    hide MemOk, CpuOk, CutOk, Unlinked, Dirtied, Popped, Published, SetNode, Moved, Lost;
    var i := UnlinkFacts(m, n, c, k);
    UnlinkMem(m, n, c, Bucket(m, k.key), k.dvar.n, k.prev, k.nx, i);
    UnlinkOwned(m, n, c, k, i);
  }

  lemma DirtyOwn(m: Mem, n: nat, c: nat, k: Cpu, yes: bool)
    requires MemOk(m, n) && CpuOk(m, n, c, k) && Ready(m, n, c, k) && Stores(m, n, c, k) && k.pc.DirtyCas?
    ensures MemOk(GoMem(m, n, c, k), n) && CpuOk(GoMem(m, n, c, k), n, c, GoCpu(m, n, c, k, yes))
  {
    hide MemOk, CpuOk, Dirtied;
    SweepFacts(m, n, c, k);
    SweepMem(m, n, c, k);
    SweepOwned(m, n, c, k);
  }

  lemma PopOwn(m: Mem, n: nat, c: nat, k: Cpu, yes: bool)
    requires MemOk(m, n) && CpuOk(m, n, c, k) && Ready(m, n, c, k) && Stores(m, n, c, k) && k.pc.FreePop?
    ensures MemOk(GoMem(m, n, c, k), n) && CpuOk(GoMem(m, n, c, k), n, c, GoCpu(m, n, c, k, yes))
  {
    hide MemOk, CpuOk, Popped;
    PopFacts(m, n, c, k);
    PopMem(m, n, c, k);
    PopOwned(m, n, c, k);
  }

  lemma PublishOwn(m: Mem, n: nat, c: nat, k: Cpu, yes: bool)
    requires MemOk(m, n) && CpuOk(m, n, c, k) && Ready(m, n, c, k) && Stores(m, n, c, k) && k.pc.Publish?
    ensures MemOk(GoMem(m, n, c, k), n) && CpuOk(GoMem(m, n, c, k), n, c, GoCpu(m, n, c, k, yes))
  {
    hide MemOk, CpuOk, Published;
    PubFacts(m, n, c, k);
    PubMem(m, n, c, k);
    PubOwned(m, n, c, k);
  }

  /** A store: memory stays sound and the CPU's own claims hold afterwards. */
  lemma StoreOwn(m: Mem, n: nat, c: nat, k: Cpu, yes: bool)
    requires MemOk(m, n) && CpuOk(m, n, c, k) && Ready(m, n, c, k) && Stores(m, n, c, k)
    ensures MemOk(GoMem(m, n, c, k), n) && CpuOk(GoMem(m, n, c, k), n, c, GoCpu(m, n, c, k, yes))
  {
    hide MemOk, CpuOk, GoMem, GoCpu;
    match k.pc
    case Marking | DirtyRead | DirtyLink | FillKey | FillMark | FillNext | Unmark => WriteOwn(m, n, c, k, yes);
    case Miss | Unlock | LockCas =>
      LockMem(m, n, c, k);
      LockOwn(m, n, c, k, yes);
    case UnlinkStore => UnlinkOwn(m, n, c, k, yes);
    case DirtyCas => DirtyOwn(m, n, c, k, yes);
    case FreePop => PopOwn(m, n, c, k, yes);
    case Publish => PublishOwn(m, n, c, k, yes);
    case CleanCas =>
      TakeMem(m, n, c, k);
      TakeCleanOwned(m, n, c, k, yes);
    case FreeSet =>
      TakeMem(m, n, c, k);
      TakeFreeOwned(m, n, c, k, yes);
  }

  lemma UnlinkStoreChange(m: Mem, n: nat, c: nat, k: Cpu, e: nat)
    requires Unlinks(m, n, c, k) && e < n && e != c
    ensures Change(m, GoMem(m, n, c, k), n, e)
  {
    hide MemOk, CpuOk, CutOk, Unlinked, Dirtied, Popped, Published, SetNode, Moved, Lost, Change;
    var i := UnlinkFacts(m, n, c, k);
    UnlinkChange(m, n, c, Bucket(m, k.key), k.dvar.n, k.prev, k.nx, i, e);
  }

  lemma StoreChange(m: Mem, n: nat, c: nat, k: Cpu, e: nat)
    requires MemOk(m, n) && CpuOk(m, n, c, k) && Ready(m, n, c, k) && Stores(m, n, c, k) && e < n && e != c
    ensures Change(m, GoMem(m, n, c, k), n, e)
  {
    hide MemOk, CpuOk, Unlinked, Dirtied, Popped, Published, Moved, Private, Change, NewNode, Writes;
    if Writes(k.pc) {
      hide GoMem;
      WritesPrivate(m, n, c, k);
      PrivateChange(m, n, c, k.dvar.n, NewNode(m, n, c, k), e);
    } else {
      match k.pc
      case Miss | Unlock | LockCas => LockChange(m, n, c, k, e);
      case UnlinkStore => UnlinkStoreChange(m, n, c, k, e);
      case DirtyCas =>
        SweepFacts(m, n, c, k);
        SweepChange(m, n, c, k, e);
      case FreePop =>
        PopFacts(m, n, c, k);
        PopChange(m, n, c, k, e);
      case Publish =>
        PubFacts(m, n, c, k);
        PubChange(m, n, c, k, e);
      case CleanCas => TakeCleanChange(m, n, c, k, e);
      case FreeSet => TakeFreeChange(m, n, c, k, e);
    }
  }

  /** Who holds the locks and carries the clean lists. */
  lemma GoHolders(m: Mem, n: nat, c: nat, k: Cpu)
    requires Ready(m, n, c, k)
    ensures var m', b := GoMem(m, n, c, k), Bucket(m, k.key);
            && |m'.chain| == |m.chain|
            && m'.holder == (if k.pc.LockCas? && m.lock[b] == k.lk then m.holder[b := Some(c)]
                             else if k.pc.Miss? || k.pc.Unlock? then m.holder[b := None] else m.holder)
  {
    hide L, Rehomed, Without;
  }

  lemma GoMovers(m: Mem, n: nat, c: nat, k: Cpu)
    requires Ready(m, n, c, k)
    ensures GoMem(m, n, c, k).mover == (if k.pc.CleanCas? && m.clean[k.d] == k.cl then m.mover[k.d := Some(c)]
                                        else if k.pc.FreeSet? then m.mover[k.d := None] else m.mover)
  {
    hide L, Rehomed, Without;
  }

  lemma GoHolding(m: Mem, n: nat, c: nat, k: Cpu, yes: bool)
    requires Ready(m, n, c, k) && Shape(k)
    ensures var k', b := GoCpu(m, n, c, k, yes), Bucket(m, k.key);
            && k'.key == k.key
            && (Holding(k) && !k.pc.Miss? && !k.pc.Unlock? ==> Holding(k'))
            && (k.pc.LockCas? && m.lock[b] == k.lk ==> Holding(k'))
            && (k.pc.CleanCas? && m.clean[k.d] == k.cl ==> k'.pc.FreeSet? && k'.d == k.d)
  {
  }

  lemma GoHolder(s: State, c: nat, yes: bool)
    requires HolderOk(s.m, s.cpus) && c < |s.cpus| && Shape(s.cpus[c]) && Ready(s.m, |s.cpus|, c, s.cpus[c])
    ensures HolderOk(GoMem(s.m, |s.cpus|, c, s.cpus[c]), s.cpus[c := GoCpu(s.m, |s.cpus|, c, s.cpus[c], yes)])
  {
    hide GoMem, GoCpu, Holding, Shape;
    GoHolders(s.m, |s.cpus|, c, s.cpus[c]);
    GoMovers(s.m, |s.cpus|, c, s.cpus[c]);
    GoHolding(s.m, |s.cpus|, c, s.cpus[c], yes);
  }

  lemma HasShape(m: Mem, n: nat, c: nat, k: Cpu)
    requires CpuOk(m, n, c, k)
    ensures Shape(k)
  {
  }

  lemma GoStep(s: State, c: nat, yes: bool)
    requires Inv(s) && Fit(s, Go(c, yes))
    ensures Inv(Do(s, Go(c, yes)))
  {
    hide MemOk, CpuOk, GoMem, GoCpu, Change, HolderOk, Stores, Ready, Shape;
    var m, n, k := s.m, |s.cpus|, s.cpus[c];
    HasShape(m, n, c, k);
    GoHolder(s, c, yes);
    if Stores(m, n, c, k) {
      StoreOwn(m, n, c, k, yes);
      forall e | 0 <= e < n && e != c
        ensures CpuOk(GoMem(m, n, c, k), n, e, s.cpus[e])
      {
        StoreChange(m, n, c, k, e);
        Stable(m, GoMem(m, n, c, k), n, e, s.cpus[e]);
      }
    } else {
      ReadsSame(m, n, c, k);
      ReadOwn(m, n, c, k, yes);
    }
  }

  // ---------------------------------------------------------------- calls and returns

  lemma IdleOk(m: Mem, n: nat, c: nat, k: Cpu)
    requires MemOk(m, n) && c < n && (k.pc.Idle? || k.pc.LockRead? || (k.pc.Top? && !k.op.Dealloc?)) && k.d < n &&
        Cleared(k, k.pc) == k
    requires m.hand[c].None? && (k.pc.LockRead? ==> k.op.Dealloc?)
    ensures CpuOk(m, n, c, k)
  {
    hide ListOk, NodeOk, Unique, BucketOk, ListsOk, Ahead;
  }

  lemma NoHand(m: Mem, n: nat, c: nat, k: Cpu)
    requires CpuOk(m, n, c, k) && (k.pc.Idle? || k.pc.Done?)
    ensures m.hand[c].None? && !Holding(k)
  {
  }

  lemma CallStep(s: State, st: Step)
    requires Inv(s) && Fit(s, st) && (st.Start? || st.Leave?)
    ensures Inv(Do(s, st))
  {
    hide MemOk, CpuOk;
    var c, s' := st.c, Do(s, st);
    NoHand(s.m, |s.cpus|, c, s.cpus[c]);
    DBound(s.m, |s.cpus|, c, s.cpus[c]);
    IdleOk(s.m, |s.cpus|, c, s'.cpus[c]);
  }

  lemma DBound(m: Mem, n: nat, c: nat, k: Cpu)
    requires CpuOk(m, n, c, k)
    ensures k.d < n
  {
  }

  // ---------------------------------------------------------------- the cleaner

  /** When the wait is over no CPU has a rinsing chunk in sight or a list of CPU d in hand. */
  lemma Flushed(s: State)
    requires Inv(s) && s.m.cl.CRefill?
    ensures RinseFree(s.m.nodes) && forall d :: 0 <= d < |s.cpus| && Pending(s.m, d) ==> s.m.mover[d].None?
  {
    hide ListOk, Unique, BucketOk, ListsOk, WalkOk, AllocOk, Ahead, Follows, MarkOk, Sweeping, Pending, NotRinsed;
    var m := s.m;
    forall w | 0 <= w < |m.nodes| && (m.nodes[w].place.Gone? || m.nodes[w].place.Going?)
      ensures NotRinsed(m.nodes, m.nodes[w].pend) && (m.nodes[w].place.Going? ==> NotRinsed(m.nodes, m.nodes[w].next))
    {
      assert NodeOk(m, w);
      var b := m.nodes[w].place.b;
      HolderOf(m, |s.cpus|, b);
      var e := m.holder[b].v;
      assert CpuOk(m, |s.cpus|, e, s.cpus[e]);
    }
    forall d | 0 <= d < |s.cpus| && Pending(m, d)
      ensures m.mover[d].None?
    {
      if m.mover[d].Some? {
        NotCarried(m, |s.cpus|, m.mover[d].v, s.cpus[m.mover[d].v]);
      }
    }
  }

  lemma NotCarried(m: Mem, n: nat, c: nat, k: Cpu)
    requires CpuOk(m, n, c, k) && Safe(m, c) && k.pc.FreeSet?
    ensures !Pending(m, k.d)
  {
    hide WalkOk, AllocOk, Ahead, Pending, HandOk;
  }

  lemma HolderOf(m: Mem, n: nat, b: nat)
    requires MemOk(m, n) && b < |m.gone| && m.gone[b].Some?
    ensures m.holder[b].Some?
  {
    assert BucketOk(m, b);
  }

  lemma CleanStep(s: State)
    requires Inv(s) && Fit(s, CleanGo)
    ensures Inv(Do(s, CleanGo))
  {
    hide MemOk, CpuOk, CleanMem, Change, RinseFree, Pending;
    var m, n := s.m, |s.cpus|;
    CleanHolder(m, n, s.cpus);
    if Refills(m, n) {
      Flushed(s);
      RefillHops(m, n);
      RefillMem(m, n);
    } else if Grabs(m, n) {
      GrabMem(m, n);
    } else {
      QuietMem(m, n);
    }
    forall e | 0 <= e < n
      ensures CpuOk(CleanMem(m, n), n, e, s.cpus[e])
    {
      if Refills(m, n) {
        RefillChange(m, n, e);
      } else if Grabs(m, n) {
        GrabChange(m, n, e);
      } else {
        QuietChange(m, n, e);
      }
      Stable(m, CleanMem(m, n), n, e, s.cpus[e]);
    }
  }

  lemma CleanHolder(m: Mem, n: nat, cpus: seq<Cpu>)
    requires Sized(m, n) && HolderOk(m, cpus)
    ensures HolderOk(CleanMem(m, n), cpus)
  {
    hide Rehomed, L;
  }

  lemma AckChange(m: Mem, n: nat, c: nat, e: nat)
    requires MemOk(m, n) && m.cl.CSync? && e < n && e != c
    ensures Change(m, m.(cl := CSync(m.cl.waiting - {c})), n, e)
  {
    hide ListOk, NodeOk, Unique, BucketOk, ListsOk;
    StampBound(m, n);
    var m' := m.(cl := CSync(m.cl.waiting - {c}));
    assert forall d :: Pending(m', d) <==> Pending(m, d);
  }

  lemma AckMem(m: Mem, n: nat, c: nat)
    requires MemOk(m, n) && m.cl.CSync?
    ensures MemOk(m.(cl := CSync(m.cl.waiting - {c})), n)
  {
    hide NodeOk, Unique, BucketOk, Linked, Newest;
    var m' := m.(cl := CSync(m.cl.waiting - {c}));
    forall p
      ensures ListOk(m', p)
    {
      assert ListOk(m, p);
    }
    forall v | 0 <= v < |m.nodes|
      ensures NodeOk(m', v)
    {
      NodeFrame(m, m', v);
    }
    forall a | 0 <= a < |m.lock|
      ensures BucketOk(m', a)
    {
      assert BucketOk(m, a);
      BucketFrame(m, m', a);
    }
    forall d | 0 <= d < n
      ensures ListsOk(m', d)
    {
      assert ListsOk(m, d);
      assert Pending(m', d) == Pending(m, d);
    }
  }

  lemma AckStep(s: State, c: nat)
    requires Inv(s) && Fit(s, Ack(c))
    ensures Inv(Do(s, Ack(c)))
  {
    hide MemOk, CpuOk, Change;
    var m, n, m' := s.m, |s.cpus|, Do(s, Ack(c)).m;
    AckMem(m, n, c);
    forall e | 0 <= e < n
      ensures CpuOk(m', n, e, s.cpus[e])
    {
      if e == c {
        AckOwn(m, n, c, s.cpus[c]);
      } else {
        AckChange(m, n, c, e);
        Stable(m, m', n, e, s.cpus[e]);
      }
    }
  }

  lemma AckOwn(m: Mem, n: nat, c: nat, k: Cpu)
    requires MemOk(m, n) && m.cl.CSync? && CpuOk(m, n, c, k) && k.pc.Idle?
    ensures CpuOk(m.(cl := CSync(m.cl.waiting - {c})), n, c, k)
  {
    hide MemOk, Ahead;
  }

  /** Every step keeps the invariant. */
  lemma StepKeeps(s: State, st: Step)
    requires Inv(s) && Fit(s, st)
    ensures Inv(Do(s, st)) && |Do(s, st).cpus| == |s.cpus|
  {
    hide Inv, CleanMem, GoMem, GoCpu, Ready;
    match st
    case Start(_, _, _) => CallStep(s, st);
    case Leave(_) => CallStep(s, st);
    case Go(c, yes) => GoStep(s, c, yes);
    case CleanGo => CleanStep(s);
    case Ack(c) => AckStep(s, c);
  }
}
