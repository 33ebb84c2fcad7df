/** When the compare-and-swap that puts a clean list on the free list succeeds, and when the list is lost. */
module DynRace {
  import opened Counting
  import opened DynSystem
  import opened DynInvariant
  import opened DynReads
  import opened DynWrites
  import opened DynCleaner
  import opened DynSteps
  import opened DynTheorems

  /** The cleaner hands CPU d a clean list while a CPU that once saw d's free list empty, and is about to look for
      a clean list instead, has been overtaken: the free list is no longer empty. */
  predicate Race(s: State, st: Step) {
    && st.CleanGo? && Refills(s.m, |s.cpus|) && s.m.free[s.m.cl.i] != Null
    && exists c :: 0 <= c < |s.cpus| && s.cpus[c].pc.CleanRead? && s.cpus[c].d == s.m.cl.i
  }

  /** When CPU d has a clean list, its free list is empty. */
  predicate Avail(m: Mem, d: nat)
    requires d < |m.clean| && d < |m.free|
  {
    m.clean[d] != Null ==> m.free[d] == Null
  }

  /** What a CPU on its way to a clean list relies on. */
  predicate AvailOk(m: Mem, k: Cpu) {
    && k.d < |m.clean| && k.d < |m.free|
    && (k.pc.CleanRead? ==> Avail(m, k.d))
    && (k.pc.CleanCas? && m.clean[k.d] == k.cl ==> m.free[k.d] == Null)
    && (k.pc.FreeSet? ==> m.free[k.d] == Null)
  }

  ghost predicate Orderly(s: State) {
    Inv(s) && forall c :: 0 <= c < |s.cpus| ==> AvailOk(s.m, s.cpus[c])
  }

  lemma GoFree(m: Mem, n: nat, c: nat, k: Cpu)
    requires Ready(m, n, c, k)
    ensures GoMem(m, n, c, k).free == (if k.pc.FreePop? && m.free[k.d] == k.dvar then m.free[k.d := k.nx]
                                       else if k.pc.FreeSet? && m.free[k.d] == Null
                                           then m.free[k.d := k.cl] else m.free)
  {
    hide L, Rehomed, Without;
  }

  lemma GoClean(m: Mem, n: nat, c: nat, k: Cpu)
    requires Ready(m, n, c, k)
    ensures GoMem(m, n, c, k).clean == (if k.pc.CleanCas? && m.clean[k.d] == k.cl
        then m.clean[k.d := Null] else m.clean)
  {
    hide L, Rehomed, Without;
  }

  lemma GoAvailOther(m: Mem, n: nat, c: nat, k: Cpu, e: nat, ke: Cpu)
    requires MemOk(m, n) && CpuOk(m, n, c, k) && CpuOk(m, n, e, ke) && Ready(m, n, c, k) && e != c
    requires AvailOk(m, k) && AvailOk(m, ke)
    ensures |GoMem(m, n, c, k).clean| == n && |GoMem(m, n, c, k).free| == n && AvailOk(GoMem(m, n, c, k), ke)
  {
    hide MemOk, GoMem, WalkOk, LockedOk, HandOk, SafeOk, Ahead;
    GoFree(m, n, c, k);
    GoClean(m, n, c, k);
    MoverFacts(m, n, k.d);
  }

  lemma GoAvailOwn(m: Mem, n: nat, c: nat, k: Cpu, yes: bool)
    requires MemOk(m, n) && CpuOk(m, n, c, k) && Ready(m, n, c, k) && AvailOk(m, k)
    ensures var m', k' := GoMem(m, n, c, k), GoCpu(m, n, c, k, yes);
            |m'.clean| == n && |m'.free| == n && k'.d < n && AvailOk(m', k')
  {
    hide MemOk, GoMem, WalkOk, LockedOk, HandOk, SafeOk, Ahead;
    GoFree(m, n, c, k);
    GoClean(m, n, c, k);
  }

  lemma FreeSetKeeps(m: Mem, n: nat, c: nat, k: Cpu, v: nat)
    requires Ready(m, n, c, k) && k.pc.FreeSet? && m.free[k.d] == Null && v < |m.nodes| && !m.nodes[v].place.Nowhere?
    ensures v < |GoMem(m, n, c, k).nodes| && !GoMem(m, n, c, k).nodes[v].place.Nowhere?
  {
    hide L;
  }

  lemma RehomedKeeps(nodes: seq<Node>, p: Place, p': Place, v: nat)
    requires v < |nodes| && !nodes[v].place.Nowhere? && !p'.Nowhere?
    ensures |Rehomed(nodes, p, p')| == |nodes| && !Rehomed(nodes, p, p')[v].place.Nowhere?
  {
  }

  lemma UnlinkKeeps(m: Mem, n: nat, c: nat, k: Cpu, v: nat)
    requires Ready(m, n, c, k) && (k.pc.UnlinkStore? || k.pc.CleanCas?) && v < |m.nodes| && !m.nodes[v].place.Nowhere?
    ensures v < |GoMem(m, n, c, k).nodes| && !GoMem(m, n, c, k).nodes[v].place.Nowhere?
  {
    hide L, Without, Rehomed;
    RehomedKeeps(m.nodes, Clean(k.d), Moving(k.d), v);
  }

  lemma WriteKeeps(m: Mem, n: nat, c: nat, k: Cpu, v: nat)
    requires Ready(m, n, c, k) && Writes(k.pc) && v < |m.nodes| && !m.nodes[v].place.Nowhere?
    ensures v < |GoMem(m, n, c, k).nodes| && !GoMem(m, n, c, k).nodes[v].place.Nowhere?
  {
  }

  lemma PushKeeps(m: Mem, n: nat, c: nat, k: Cpu, v: nat)
    requires Ready(m, n, c, k) && (k.pc.DirtyCas? || k.pc.FreePop? || k.pc.Publish?) && v < |m.nodes| &&
        !m.nodes[v].place.Nowhere?
    ensures v < |GoMem(m, n, c, k).nodes| && !GoMem(m, n, c, k).nodes[v].place.Nowhere?
  {
    hide L;
  }

  lemma ReadKeeps(m: Mem, n: nat, c: nat, k: Cpu)
    requires Ready(m, n, c, k) && !Writes(k.pc)
    requires !k.pc.FreeSet? && !k.pc.UnlinkStore? && !k.pc.CleanCas? && !k.pc.DirtyCas? && !k.pc.FreePop? &&
        !k.pc.Publish?
    ensures GoMem(m, n, c, k).nodes == m.nodes
  {
  }

  lemma GoKeepsChunks(m: Mem, n: nat, c: nat, k: Cpu, v: nat)
    requires Ready(m, n, c, k) && AvailOk(m, k) && v < |m.nodes| && !m.nodes[v].place.Nowhere?
    ensures v < |GoMem(m, n, c, k).nodes| && !GoMem(m, n, c, k).nodes[v].place.Nowhere?
  {
    hide GoMem;
    if k.pc.FreeSet? {
      FreeSetKeeps(m, n, c, k, v);
    } else if k.pc.UnlinkStore? || k.pc.CleanCas? {
      UnlinkKeeps(m, n, c, k, v);
    } else if Writes(k.pc) {
      WriteKeeps(m, n, c, k, v);
    } else if k.pc.DirtyCas? || k.pc.FreePop? || k.pc.Publish? {
      PushKeeps(m, n, c, k, v);
    } else {
      ReadKeeps(m, n, c, k);
    }
  }

  lemma CleanFields(m: Mem, n: nat)
    requires Sized(m, n)
    ensures CleanMem(m, n).free == m.free && |CleanMem(m, n).clean| == n
    ensures CleanMem(m, n).clean == if Refills(m, n) then m.clean[m.cl.i := m.rinsing[m.cl.i]] else m.clean
    ensures |CleanMem(m, n).nodes| == |m.nodes|
    ensures forall v :: 0 <= v < |m.nodes| && !m.nodes[v].place.Nowhere? ==> !CleanMem(m, n).nodes[v].place.Nowhere?
  {
    hide L;
  }

  lemma CleanAvail(s: State, e: nat)
    requires Orderly(s) && Fit(s, CleanGo) && !Race(s, CleanGo) && e < |s.cpus|
    ensures CpuOk(s.m, |s.cpus|, e, s.cpus[e])
    ensures |CleanMem(s.m, |s.cpus|).clean| == |s.cpus| && |CleanMem(s.m, |s.cpus|).free| == |s.cpus| &&
        AvailOk(CleanMem(s.m, |s.cpus|), s.cpus[e])
  {
    hide MemOk, CleanMem, WalkOk, LockedOk, HandOk, Ahead, Pending;
    CleanFields(s.m, |s.cpus|);
    assert CpuOk(s.m, |s.cpus|, e, s.cpus[e]);
    if Refills(s.m, |s.cpus|) {
      RefillHops(s.m, |s.cpus|);
    }
  }

  /** Without the race no list is lost: every step keeps it so, and no chunk vanishes. */
  lemma OrderlyStep(s: State, st: Step)
    requires Orderly(s) && Fit(s, st) && !Race(s, st)
    ensures Orderly(Do(s, st)) && |Do(s, st).m.nodes| == |s.m.nodes|
    ensures forall v :: 0 <= v < |s.m.nodes| && !s.m.nodes[v].place.Nowhere? ==> !Do(s, st).m.nodes[v].place.Nowhere?
  {
    hide MemOk, CpuOk, GoMem, GoCpu, CleanMem, Race, AvailOk, Ready, HolderOk;
    StepKeeps(s, st);
    var m, n, s' := s.m, |s.cpus|, Do(s, st);
    match st
    case Start(c, _, _) => IdleAvail(m, s'.cpus[c]);
    case Leave(c) =>
      DBound(m, n, c, s.cpus[c]);
      IdleAvail(m, s'.cpus[c]);
    case Go(c, yes) =>
      GoAvailOwn(m, n, c, s.cpus[c], yes);
      forall e | 0 <= e < n && e != c
        ensures AvailOk(s'.m, s.cpus[e])
      {
        GoAvailOther(m, n, c, s.cpus[c], e, s.cpus[e]);
      }
      GoSize(m, n, c, s.cpus[c]);
      forall v | 0 <= v < |m.nodes| && !m.nodes[v].place.Nowhere?
        ensures !s'.m.nodes[v].place.Nowhere?
      {
        GoKeepsChunks(m, n, c, s.cpus[c], v);
      }
    case CleanGo =>
      CleanFields(m, n);
      forall e | 0 <= e < n
        ensures AvailOk(s'.m, s.cpus[e])
      {
        CleanAvail(s, e);
      }
    case Ack(c) =>
      forall e | 0 <= e < n
        ensures AvailOk(s'.m, s.cpus[e])
      {
        AckAvail(m, n, c, e, s.cpus[e]);
      }
  }

  lemma GoSize(m: Mem, n: nat, c: nat, k: Cpu)
    requires Ready(m, n, c, k)
    ensures |GoMem(m, n, c, k).nodes| == |m.nodes|
  {
  }

  lemma IdleAvail(m: Mem, k: Cpu)
    requires k.d < |m.clean| && k.d < |m.free| && (k.pc.Idle? || k.pc.LockRead? || k.pc.Top?)
    ensures AvailOk(m, k)
  {
  }

  lemma AckAvail(m: Mem, n: nat, c: nat, e: nat, k: Cpu)
    requires CpuOk(m, n, e, k) && AvailOk(m, k) && m.cl.CSync?
    ensures AvailOk(m.(cl := CSync(m.cl.waiting - {c})), k)
  {
  }

  ghost predicate NoRace(tr: seq<State>, ss: seq<Step>)
    requires |tr| == |ss| + 1
  {
    forall i :: 0 <= i < |ss| ==> !Race(tr[i], ss[i])
  }

  /** In a run without the race, every chunk that was once on a list stays on a list or in somebody's hands, and the
      free list is empty whenever a clean list is put there. */
  lemma {:induction false} NothingLost(tr: seq<State>, ss: seq<Step>, i: nat)
    requires Run(tr, ss) && NoRace(tr, ss) && i < |tr|
    ensures Orderly(tr[i]) && |tr[i].m.nodes| == |tr[0].m.nodes|
    ensures forall v :: 0 <= v < |tr[0].m.nodes| && !tr[0].m.nodes[v].place.Nowhere? ==>
        !tr[i].m.nodes[v].place.Nowhere?
  {
    hide Do, Fit, Race, Initial, Inv, AvailOk;
    if i == 0 {
      InitInv(tr[0]);
      InitOrderly(tr[0]);
    } else {
      NothingLost(tr, ss, i - 1);
      OrderlyStep(tr[i - 1], ss[i - 1]);
    }
  }

  lemma InitOrderly(s: State)
    requires Initial(s) && Inv(s)
    ensures Orderly(s)
  {
    hide MemOk, CpuOk;
    forall c | 0 <= c < |s.cpus|
      ensures AvailOk(s.m, s.cpus[c])
    {
      IdleAvail(s.m, s.cpus[c]);
    }
  }

  // ---------------------------------------------------------------- exactly when

  /** The cleaner hands a list over to CPU i, and CPU c, undisturbed, reads the clean pointer, takes the list and puts
      it on the free list.  The chunks get there exactly when the free list is empty at the hand-over; otherwise they
      are lost. */
  lemma HandOverExact(s: State, c: nat, s1: State, s2: State, s3: State, s4: State, v: nat)
    requires Inv(s) && Fit(s, CleanGo) && c < |s.cpus| && s.cpus[c].pc.CleanRead?
    requires Refills(s.m, |s.cpus|) && s.m.cl.i == s.cpus[c].d
    requires s1 == Do(s, CleanGo) && Fit(s1, Go(c, true)) && s2 == Do(s1, Go(c, true))
    requires Fit(s2, Go(c, true)) && s3 == Do(s2, Go(c, true)) && Fit(s3, Go(c, true)) && s4 == Do(s3, Go(c, true))
    requires v < |s.m.nodes| && s.m.nodes[v].place == Rinse(s.m.cl.i)
    ensures v < |s4.m.nodes| && s4.m.nodes[v].place == if s.m.free[s.m.cl.i] == Null then Free(s.m.cl.i) else Nowhere
  {
    hide Do, Inv;
    HandStep(s, v);
    SeeCleanStep(s1, c);
    TakeCleanStep(s2, c, v);
    SetFreeStep(s3, c, v);
  }

  lemma HandStep(s: State, v: nat)
    requires Inv(s) && Fit(s, CleanGo) && Refills(s.m, |s.cpus|) && v < |s.m.nodes| &&
        s.m.nodes[v].place == Rinse(s.m.cl.i)
    ensures var s1, d := Do(s, CleanGo), s.m.cl.i;
            && Sized(s1.m, |s1.cpus|) && |s1.m.nodes| == |s.m.nodes| && s1.m.nodes[v].place == Clean(d) &&
                s1.m.clean[d] != Null
            && s1.cpus == s.cpus && s1.m.free == s.m.free
  {
    hide CpuOk, HolderOk, L;
  }

  lemma SeeCleanStep(s: State, c: nat)
    requires Fit(s, Go(c, true)) && s.cpus[c].pc.CleanRead? && s.cpus[c].d < |s.m.clean| &&
        s.m.clean[s.cpus[c].d] != Null
    ensures var s' := Do(s, Go(c, true));
            s'.m == s.m && |s'.cpus| == |s.cpus| && s'.cpus[c] ==
                s.cpus[c].(pc := CleanCas, cl := s.m.clean[s.cpus[c].d])
  {
    hide L;
  }

  lemma TakeCleanStep(s: State, c: nat, v: nat)
    requires Fit(s, Go(c, true)) && s.cpus[c].pc.CleanCas? && s.cpus[c].d < |s.m.clean| &&
        s.m.clean[s.cpus[c].d] == s.cpus[c].cl
    requires v < |s.m.nodes| && s.m.nodes[v].place == Clean(s.cpus[c].d)
    ensures var s', d := Do(s, Go(c, true)), s.cpus[c].d;
            && |s'.m.nodes| == |s.m.nodes| && s'.m.nodes[v].place == Moving(d) && s'.m.free == s.m.free
            && |s'.cpus| == |s.cpus| && s'.cpus[c].pc.FreeSet? && s'.cpus[c].d == d
  {
    hide L;
  }

  lemma SetFreeStep(s: State, c: nat, v: nat)
    requires Fit(s, Go(c, true)) && s.cpus[c].pc.FreeSet? && s.cpus[c].d < |s.m.free| && v < |s.m.nodes| &&
        s.m.nodes[v].place == Moving(s.cpus[c].d)
    ensures var s', d := Do(s, Go(c, true)), s.cpus[c].d;
            |s'.m.nodes| == |s.m.nodes| && s'.m.nodes[v].place == if s.m.free[d] == Null then Free(d) else Nowhere
  {
    hide L;
  }

  // ---------------------------------------------------------------- a condition that rules the race out

  /** The cleaner takes CPU d's dirty list aside only while nobody is carrying CPU d's clean list. */
  predicate Timely(s: State, st: Step) {
    st.CleanGo? && Grabs(s.m, |s.cpus|) ==> s.m.mover[s.m.cl.i].None?
  }

  /** While CPU d's rinsing list waits nobody carries its clean list, and whoever has seen its free list empty since
      the wait began finds it empty. */
  predicate LateOk(m: Mem, c: nat, k: Cpu) {
    && k.d < |m.free| && k.d < |m.mover|
    && (Safe(m, c) && Pending(m, k.d) && k.pc.CleanRead? ==> m.free[k.d] == Null)
  }

  ghost predicate Punctual(s: State) {
    && Orderly(s)
    && (forall d :: 0 <= d < |s.cpus| && Pending(s.m, d) ==> s.m.mover[d].None?)
    && (forall c :: 0 <= c < |s.cpus| ==> LateOk(s.m, c, s.cpus[c]))
  }

  lemma PunctualNoRace(s: State, st: Step)
    requires Punctual(s) && Fit(s, st)
    ensures !Race(s, st)
  {
    hide MemOk, CpuOk, Pending;
    if Race(s, st) {
      RefillHops(s.m, |s.cpus|);
    }
  }

  lemma GoPending(m: Mem, n: nat, c: nat, k: Cpu, d: nat)
    requires Ready(m, n, c, k)
    ensures Pending(GoMem(m, n, c, k), d) == Pending(m, d) && GoMem(m, n, c, k).cl == m.cl
  {
    hide Rehomed, Without;
  }

  lemma GoPunctual(s: State, c: nat, yes: bool)
    requires Punctual(s) && Fit(s, Go(c, yes))
    ensures Punctual(Do(s, Go(c, yes)))
  {
    hide MemOk, CpuOk, GoMem, GoCpu, Pending, AvailOk, HolderOk, Ready, LateOk;
    var m, n, k, s' := s.m, |s.cpus|, s.cpus[c], Do(s, Go(c, yes));
    PunctualNoRace(s, Go(c, yes));
    OrderlyStep(s, Go(c, yes));
    GoMovers(m, n, c, k);
    DBound(m, n, c, k);
    forall d | 0 <= d < n && Pending(s'.m, d)
      ensures s'.m.mover[d].None?
    {
      GoPending(m, n, c, k, d);
      NotTaking(m, n, c, k, d);
    }
    forall e | 0 <= e < n
      ensures LateOk(s'.m, e, s'.cpus[e])
    {
      GoLate(m, n, c, k, yes, e, s.cpus[e]);
    }
  }

  /** A clean list can only be taken where none is pending. */
  lemma NotTaking(m: Mem, n: nat, c: nat, k: Cpu, d: nat)
    requires MemOk(m, n) && CpuOk(m, n, c, k) && d < n && Pending(m, d)
    ensures k.pc.CleanCas? && k.d == d ==> m.clean[d] != k.cl
  {
    hide MemOk, WalkOk, LockedOk, HandOk, SafeOk, Ahead, Pending;
    MoverFacts(m, n, d);
  }

  lemma GoLate(m: Mem, n: nat, c: nat, k: Cpu, yes: bool, e: nat, ke: Cpu)
    requires MemOk(m, n) && CpuOk(m, n, c, k) && CpuOk(m, n, e, ke) && Ready(m, n, c, k) && LateOk(m, e, ke) &&
        (e == c ==> ke == k)
    requires forall d :: 0 <= d < n && Pending(m, d) ==> m.mover[d].None?
    ensures LateOk(GoMem(m, n, c, k), e, if e == c then GoCpu(m, n, c, k, yes) else ke)
  {
    hide MemOk, GoMem, WalkOk, LockedOk, HandOk, SafeOk, Ahead, Pending;
    GoFree(m, n, c, k);
    GoMovers(m, n, c, k);
    var k' := if e == c then GoCpu(m, n, c, k, yes) else ke;
    GoPending(m, n, c, k, k'.d);
  }

  lemma CleanPunctual(s: State)
    requires Punctual(s) && Fit(s, CleanGo) && Timely(s, CleanGo)
    ensures Punctual(Do(s, CleanGo))
  {
    hide MemOk, CpuOk, CleanMem, AvailOk, HolderOk, Race;
    var m, n, s' := s.m, |s.cpus|, Do(s, CleanGo);
    PunctualNoRace(s, CleanGo);
    OrderlyStep(s, CleanGo);
    CleanFields(m, n);
    CleanPending(m, n, 0);
    forall d | 0 <= d < n && Pending(s'.m, d)
      ensures s'.m.mover[d].None?
    {
      CleanPending(m, n, d);
    }
    forall e | 0 <= e < n
      ensures LateOk(s'.m, e, s'.cpus[e])
    {
      CleanLate(m, n, e, s.cpus[e]);
    }
  }

  lemma CleanPending(m: Mem, n: nat, d: nat)
    requires Sized(m, n)
    ensures CleanMem(m, n).mover == m.mover
    ensures Pending(CleanMem(m, n), d) ==> Pending(m, d) || (Grabs(m, n) && m.cl.i == d)
  {
    hide Rehomed;
  }

  lemma CleanLate(m: Mem, n: nat, e: nat, k: Cpu)
    requires MemOk(m, n) && LateOk(m, e, k) && e < n && Sized(m, n) && (m.cl.CSync? ==> m.cl.waiting == {})
    ensures LateOk(CleanMem(m, n), e, k)
  {
    hide MemOk, CleanMem, Pending, Safe;
    CleanFields(m, n);
    CleanPending(m, n, k.d);
    CleanSafe(m, n, e);
  }

  lemma CleanSafe(m: Mem, n: nat, e: nat)
    requires Sized(m, n) && e < n && (m.cl.CSync? ==> m.cl.waiting == {})
    ensures Safe(CleanMem(m, n), e) ==> Safe(m, e) && !Grabs(m, n)
  {
    hide L, Rehomed;
    assert e in Below(n);
  }

  lemma PunctualStep(s: State, st: Step)
    requires Punctual(s) && Fit(s, st) && Timely(s, st)
    ensures Punctual(Do(s, st)) && !Race(s, st)
  {
    hide MemOk, CpuOk, GoMem, GoCpu, CleanMem, Race, AvailOk, Ready, HolderOk, Safe;
    PunctualNoRace(s, st);
    match st
    case Go(c, yes) => GoPunctual(s, c, yes);
    case CleanGo => CleanPunctual(s);
    case _ =>
      OrderlyStep(s, st);
      forall d | 0 <= d < |s.cpus| && Pending(Do(s, st).m, d)
        ensures Do(s, st).m.mover[d].None?
      {
        assert Pending(s.m, d);
      }
      forall e | 0 <= e < |s.cpus|
        ensures LateOk(Do(s, st).m, e, Do(s, st).cpus[e])
      {
        CallLate(s, st, e);
      }
  }

  lemma CallLate(s: State, st: Step, e: nat)
    requires Fit(s, st) && (st.Start? || st.Leave? || st.Ack?) && e < |s.cpus| && LateOk(s.m, e, s.cpus[e])
    ensures e < |Do(s, st).cpus| && LateOk(Do(s, st).m, e, Do(s, st).cpus[e])
  {
    assert L(Do(s, st).m, Rinse(s.cpus[e].d)) == L(s.m, Rinse(s.cpus[e].d));
  }

  lemma InitPunctual(s: State)
    requires Initial(s)
    ensures Punctual(s)
  {
    hide MemOk, CpuOk;
    InitInv(s);
    InitOrderly(s);
    forall d | 0 <= d < |s.cpus|
      ensures !Pending(s.m, d)
    {
      assert L(s.m, Rinse(d)) == [];
    }
  }

  ghost predicate AllTimely(tr: seq<State>, ss: seq<Step>)
    requires |tr| == |ss| + 1
  {
    forall i :: 0 <= i < |ss| ==> Timely(tr[i], ss[i])
  }

  /** If the cleaner takes a CPU's dirty list aside only while nobody carries that CPU's clean list, the race never
      happens. */
  lemma {:induction false} TimelyNoRace(tr: seq<State>, ss: seq<Step>, i: nat)
    requires Run(tr, ss) && AllTimely(tr, ss) && i < |tr|
    ensures Punctual(tr[i]) && (i < |ss| ==> !Race(tr[i], ss[i]))
  {
    hide Do, Fit, Race, Initial, Punctual, Timely;
    if i == 0 {
      InitPunctual(tr[0]);
    } else {
      TimelyNoRace(tr, ss, i - 1);
      PunctualStep(tr[i - 1], ss[i - 1]);
    }
    if i < |ss| {
      PunctualNoRace(tr[i], ss[i]);
    }
  }
}
