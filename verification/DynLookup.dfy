/** Results of lookups over whole runs: what a call returns was true at some instant of the call. */
module DynLookup {
  import opened DynSystem
  import opened DynInvariant
  import opened DynStable
  import opened DynReads
  import opened DynLinks
  import opened DynCleaner
  import opened DynSteps
  import opened DynTheorems

  // ---------------------------------------------------------------- what others do

  /** The step is not one of CPU c's. */
  predicate Others(st: Step, c: nat) {
    st.CleanGo? || st.c != c
  }

  lemma SameChange(m: Mem, n: nat, c: nat)
    requires MemOk(m, n) && c < n
    ensures Change(m, m, n, c)
  {
    hide ListOk, NodeOk, Unique, BucketOk, ListsOk;
    StampBound(m, n);
  }

  lemma OthersChange(s: State, st: Step, c: nat)
    requires Inv(s) && Fit(s, st) && c < |s.cpus| && Others(st, c)
    ensures Change(s.m, Do(s, st).m, |s.cpus|, c)
    ensures Do(s, st).cpus[c] == s.cpus[c]
  {
    hide MemOk, CpuOk, GoMem, GoCpu, CleanMem, Change, Stores, HolderOk, Ready;
    var m, n, k := s.m, |s.cpus|, s.cpus[c];
    match st
    case Start(_, _, _) => SameChange(m, n, c);
    case Leave(_) => SameChange(m, n, c);
    case Go(e, yes) =>
      if Stores(m, n, e, s.cpus[e]) {
        StoreChange(m, n, e, s.cpus[e], c);
      } else {
        ReadsSame(m, n, e, s.cpus[e]);
        SameChange(m, n, c);
      }
    case CleanGo =>
      if Refills(m, n) {
        Flushed(s);
        RefillHops(m, n);
        RefillChange(m, n, c);
      } else if Grabs(m, n) {
        GrabChange(m, n, c);
      } else {
        QuietChange(m, n, c);
      }
    case Ack(e) => AckChange(m, n, e, c);
  }

  // ---------------------------------------------------------------- NULL means absent

  ghost predicate Present(m: Mem, key: Key) {
    exists v :: In(m, key, v)
  }

  /** The call has not gone past its walk empty-handed. */
  predicate Looking(k: Cpu) {
    || k.pc.Top? || k.pc.Head? || Walking(k.pc) || (k.pc.Done? && k.pc.res.At?)
    || k.pc.LockRead? || k.pc.LockCas?
  }

  /** A call for this key under way while chunk y holds it: y was published before the walk began. */
  predicate Tracks(m: Mem, k: Cpu, key: Key, y: nat) {
    k.key == key && In(m, key, y) && Looking(k) && (Walking(k.pc) ==> m.nodes[y].stamp <= StampOf(m.nodes, k.start))
  }

  lemma HeadNewest(m: Mem, n: nat, b: nat, y: nat)
    requires MemOk(m, n) && b < |m.chain| && y < |m.nodes| && m.nodes[y].place == Chain(b)
    ensures m.nodes[y].stamp <= StampOf(m.nodes, m.chain[b]) && m.nodes[y].stamp > 0
  {
    hide Unique, BucketOk, ListsOk, Linked, Follows, MarkOk;
    assert NodeOk(m, y);
    var i := Position(m, n, y);
    LinkedFacts(m.nodes, Chain(b), L(m, Chain(b)));
  }

  lemma OwnTracks(m: Mem, n: nat, c: nat, k: Cpu, yes: bool, key: Key, y: nat)
    requires MemOk(m, n) && CpuOk(m, n, c, k) && Ready(m, n, c, k) && Tracks(m, k, key, y) && !k.pc.Done?
    requires k.pc.UnlinkStore? ==> !k.prev.At? && m.chain[Bucket(m, k.key)] != k.start
    ensures Tracks(GoMem(m, n, c, k), GoCpu(m, n, c, k, yes), key, y)
  {
    hide MemOk, LockedOk, HandOk, AllocOk, SafeOk;
    HeadNewest(m, n, Bucket(m, key), y);
  }

  /** The deallocator takes the chunk off: the key is gone. */
  lemma OwnUnlink(s: State, st: Step, key: Key, y: nat)
    requires Inv(s) && Fit(s, st) && st.Go? && s.cpus[st.c].key == key && In(s.m, key, y)
    requires var k := s.cpus[st.c];
        k.pc.UnlinkStore? && (k.prev.At? || s.m.chain[Bucket(s.m, k.key)] == k.start)
    ensures !Present(Do(s, st).m, key)
  {
    hide Inv, Do, In, Bucket;
    var v := s.cpus[st.c].dvar.n;
    MapStep(s, st, key, v);
    OneEntry(s, key, y, v);
    forall w: nat | In(Do(s, st).m, key, w)
      ensures false
    {
      MapStep(s, st, key, w);
      if In(s.m, key, w) {
        OneEntry(s, key, v, w);
      }
    }
  }

  lemma OtherTracks(s: State, st: Step, c: nat, key: Key, y: nat)
    requires Inv(s) && Fit(s, st) && c < |s.cpus| && Others(st, c) && Tracks(s.m, s.cpus[c], key, y)
    requires Present(Do(s, st).m, key)
    ensures Tracks(Do(s, st).m, Do(s, st).cpus[c], key, y)
  {
    hide MemOk, Do, Fit, LockedOk, HandOk, AllocOk, Ahead, Adds, Removes, Bucket;
    OthersChange(s, st, c);
    var m, m', k := s.m, Do(s, st).m, s.cpus[c];
    var w :| In(m', key, w);
    MapStep(s, st, key, y);
    MapStep(s, st, key, w);
    if Removes(s, st, key, y) {
      NotBoth(s, st, key, y, w);
      OneEntry(s, key, y, w);
    }
    assert CpuOk(m, |s.cpus|, c, k);
    assert NodeStep(m.nodes[y], m'.nodes[y]);
    if Walking(k.pc) {
      SafeRefs(m, |s.cpus|, c, k);
      SeenStays(m, m', |s.cpus|, c, Bucket(m, k.key), k.start);
    }
  }

  lemma NotBoth(s: State, st: Step, key: Key, y: nat, w: nat)
    requires Fit(s, st) && Removes(s, st, key, y)
    ensures !Adds(s, st, key, w)
  {
  }

  /** CPU c is in one call from just after step t until state u. */
  ghost predicate InCall(ss: seq<Step>, t: nat, u: nat, c: nat) {
    t < u <= |ss| && forall i :: t < i < u ==> !((ss[i].Start? || ss[i].Leave?) && ss[i].c == c)
  }

  lemma StartTracks(s: State, c: nat, op: Op, key: Key, y: nat)
    requires Fit(s, Start(c, op, key)) && In(s.m, key, y)
    ensures c < |s.cpus| && var s' := Do(s, Start(c, op, key)); Tracks(s'.m, s'.cpus[c], key, y)
  {
  }

  /** As long as the key has been there all along, it is the same chunk, and the call does not miss it. */
  lemma {:induction false} StillThere(tr: seq<State>, ss: seq<Step>, t: nat, u: nat, c: nat, op: Op, key: Key)
      returns (y: nat)
    requires Run(tr, ss) && InCall(ss, t, u, c) && ss[t] == Start(c, op, key) && c < |tr[0].cpus|
    requires forall i :: t < i <= u ==> Present(tr[i].m, key)
    ensures c < |tr[u].cpus| && Tracks(tr[u].m, tr[u].cpus[c], key, y)
    decreases u
  {
    hide Inv, Do, Initial, Tracks, In, GoMem, GoCpu, Ready, MemOk, CpuOk;
    RunKeeps(tr, ss, u);
    assert Fit(tr[u - 1], ss[u - 1]) && tr[u - 1 + 1] == Do(tr[u - 1], ss[u - 1]) && Present(tr[u].m, key);
    if u == t + 1 {
      y :| In(tr[u].m, key, y);
      SameMem(tr[t], c, op, key, y);
      StartTracks(tr[t], c, op, key, y);
      RunKeeps(tr, ss, t);
    } else {
      y := StillThere(tr, ss, t, u - 1, c, op, key);
      RunKeeps(tr, ss, u - 1);
      StepTracks(tr[u - 1], ss[u - 1], c, key, y);
    }
  }

  lemma SameMem(s: State, c: nat, op: Op, key: Key, y: nat)
    requires Fit(s, Start(c, op, key))
    ensures In(Do(s, Start(c, op, key)).m, key, y) <==> In(s.m, key, y)
  {
  }

  lemma StepTracks(s: State, st: Step, c: nat, key: Key, y: nat)
    requires Inv(s) && Fit(s, st) && c < |s.cpus| && Tracks(s.m, s.cpus[c], key, y)
    requires !((st.Start? || st.Leave?) && st.c == c) && Present(Do(s, st).m, key)
    ensures c < |Do(s, st).cpus| && Tracks(Do(s, st).m, Do(s, st).cpus[c], key, y)
  {
    hide GoMem, GoCpu, Ready, MemOk, CpuOk, HolderOk, CleanMem;
    if Others(st, c) {
      OtherTracks(s, st, c, key, y);
    } else if st.Go? {
      var k := s.cpus[c];
      if k.pc.UnlinkStore? && (k.prev.At? || s.m.chain[Bucket(s.m, k.key)] == k.start) {
        OwnUnlink(s, st, key, y);
      } else {
        OwnTracks(s.m, |s.cpus|, c, k, st.yes, key, y);
      }
    }
  }

  /** A call that returns NULL, or a deallocation that finds nothing: at some instant of the call the key was absent. */
  lemma NullMeansAbsent(tr: seq<State>, ss: seq<Step>, t: nat, u: nat, c: nat, op: Op, key: Key)
    requires Run(tr, ss) && InCall(ss, t, u, c) && ss[t] == Start(c, op, key) && c < |tr[0].cpus|
    requires c < |tr[u].cpus| && (tr[u].cpus[c].pc == Done(Null) || tr[u].cpus[c].pc.Miss?)
    ensures exists i :: t < i <= u && !Present(tr[i].m, key)
  {
    hide Present, Initial, Do, Fit;
    if forall i :: t < i <= u ==> Present(tr[i].m, key) {
      var y := StillThere(tr, ss, t, u, c, op, key);
    }
  }

  /** CPU c found the free list of CPU d empty in some state after step t, before state u. */
  ghost predicate Starved(tr: seq<State>, t: nat, u: nat, c: nat, d: nat)
    requires u <= |tr|
  {
    exists i :: t < i < u && c < |tr[i].cpus| && FindsNoFree(tr[i].m, tr[i].cpus[c], d)
  }

  predicate FindsNoFree(m: Mem, k: Cpu, d: nat) {
    k.pc.FreeRead? && k.d == d < |m.free| && m.free[d] == Null
  }

  predicate FindsNoClean(m: Mem, k: Cpu) {
    k.pc.CleanRead? && k.d < |m.clean| && m.clean[k.d] == Null
  }

  /** CPU c found a free list empty, and the clean list beside it after that. */
  ghost predicate Exhausted(tr: seq<State>, t: nat, u: nat, c: nat)
    requires u <= |tr|
  {
    exists i :: t < i < u && c < |tr[i].cpus| && FindsNoClean(tr[i].m, tr[i].cpus[c])
                && Starved(tr, t, i, c, tr[i].cpus[c].d)
  }

  /** Where an allocation can be, and how it got to the end of a free list or came to nothing. */
  ghost predicate AllocStands(tr: seq<State>, t: nat, u: nat, c: nat)
    requires u < |tr| && c < |tr[u].cpus|
  {
    var k := tr[u].cpus[c];
    && k.op.Alloc? && !k.pc.Check? && !k.pc.Miss? && !k.pc.Unlock?
    && (k.pc.CleanRead? ==> Starved(tr, t, u, c, k.d))
    && (k.pc == Done(Null) ==> Exhausted(tr, t, u, c))
  }

  lemma AllocStep(s: State, st: Step, c: nat)
    requires Fit(s, st) && c < |s.cpus| && !((st.Start? || st.Leave?) && st.c == c)
    requires s.cpus[c].op.Alloc? && !s.cpus[c].pc.Check? && !s.cpus[c].pc.Miss? && !s.cpus[c].pc.Unlock?
    ensures c < |Do(s, st).cpus|
    ensures var k, k' := s.cpus[c], Do(s, st).cpus[c];
        && k'.op.Alloc? && !k'.pc.Check? && !k'.pc.Miss? && !k'.pc.Unlock?
        && (k'.pc.CleanRead? ==> (k.pc.CleanRead? && k'.d == k.d) || FindsNoFree(s.m, k, k'.d))
        && (k'.pc == Done(Null) ==> k.pc == Done(Null) || FindsNoClean(s.m, k))
  {
    hide GoMem, CleanMem;
  }

  lemma {:induction false} AllocAlways(tr: seq<State>, ss: seq<Step>, t: nat, u: nat, c: nat, key: Key)
    requires Run(tr, ss) && InCall(ss, t, u, c) && ss[t] == Start(c, Alloc, key) && c < |tr[0].cpus|
    ensures c < |tr[u].cpus| && AllocStands(tr, t, u, c)
    decreases u
  {
    hide Inv, Do, Initial, Fit, FindsNoFree, FindsNoClean;
    RunKeeps(tr, ss, u - 1);
    var s, st := tr[u - 1], ss[u - 1];
    assert Fit(s, st) && tr[u - 1 + 1] == Do(s, st);
    if u == t + 1 {
      StartAlloc(s, c, key);
    } else {
      AllocAlways(tr, ss, t, u - 1, c, key);
      AllocStep(s, st, c);
      AllocKeeps(tr, t, u, c);
    }
  }

  lemma AllocKeeps(tr: seq<State>, t: nat, u: nat, c: nat)
    requires t + 1 < u < |tr| && c < |tr[u - 1].cpus| && c < |tr[u].cpus| && AllocStands(tr, t, u - 1, c)
    requires var k, k' := tr[u - 1].cpus[c], tr[u].cpus[c];
        && k'.op.Alloc? && !k'.pc.Check? && !k'.pc.Miss? && !k'.pc.Unlock?
        && (k'.pc.CleanRead? ==> (k.pc.CleanRead? && k'.d == k.d) || FindsNoFree(tr[u - 1].m, k, k'.d))
        && (k'.pc == Done(Null) ==> k.pc == Done(Null) || FindsNoClean(tr[u - 1].m, k))
    ensures AllocStands(tr, t, u, c)
  {
    hide FindsNoFree, FindsNoClean;
    var k, k' := tr[u - 1].cpus[c], tr[u].cpus[c];
    if k'.pc.CleanRead? && !FindsNoFree(tr[u - 1].m, k, k'.d) {
      var i :| t < i < u - 1 && c < |tr[i].cpus| && FindsNoFree(tr[i].m, tr[i].cpus[c], k'.d);
      assert t < i < u;
    }
    if k'.pc == Done(Null) {
      if FindsNoClean(tr[u - 1].m, k) {
        CleanReadAt(tr[u - 1].m, k);
        assert Starved(tr, t, u - 1, c, k.d);
      } else {
        var i :| t < i < u - 1 && c < |tr[i].cpus| && FindsNoClean(tr[i].m, tr[i].cpus[c])
                 && Starved(tr, t, i, c, tr[i].cpus[c].d);
        assert t < i < u;
      }
    }
  }

  lemma CleanReadAt(m: Mem, k: Cpu)
    requires FindsNoClean(m, k)
    ensures k.pc.CleanRead?
  {
  }

  lemma StartAlloc(s: State, c: nat, key: Key)
    requires Fit(s, Start(c, Alloc, key))
    ensures c < |Do(s, Start(c, Alloc, key)).cpus|
    ensures var k := Do(s, Start(c, Alloc, key)).cpus[c]; k.op.Alloc? && k.pc.Top?
  {
  }

  /** An allocation that returns NULL: besides the instant of absence, it saw a CPU's free list empty and, after that,
      the same CPU's clean list empty. */
  lemma NullMeansExhausted(tr: seq<State>, ss: seq<Step>, t: nat, u: nat, c: nat, key: Key)
    requires Run(tr, ss) && InCall(ss, t, u, c) && ss[t] == Start(c, Alloc, key) && c < |tr[0].cpus|
    requires c < |tr[u].cpus| && tr[u].cpus[c].pc == Done(Null)
    ensures exists i :: t < i <= u && !Present(tr[i].m, key)
    ensures Exhausted(tr, t, u, c)
  {
    hide Present, Initial, Do, Fit, Exhausted;
    NullMeansAbsent(tr, ss, t, u, c, Alloc, key);
    AllocAlways(tr, ss, t, u, c, key);
  }

  // ---------------------------------------------------------------- what is found was there

  /** The walk is at chunk v of chain b, and knows it to be one: v does not show itself to be free. */
  predicate Sees(m: Mem, k: Cpu, v: nat) {
    && Walking(k.pc) && k.dvar == At(v) && v < |m.nodes|
    && (k.pc.Visit? ==> !m.nodes[v].place.Going? && !Swept(m.nodes[v].place))
  }

  lemma OwnSees(m: Mem, n: nat, c: nat, k: Cpu, yes: bool, v: nat)
    requires MemOk(m, n) && CpuOk(m, n, c, k) && Ready(m, n, c, k) && !Stores(m, n, c, k) &&
        Sees(m, GoCpu(m, n, c, k, yes), v)
    ensures m.nodes[v].place == Chain(Bucket(m, k.key)) || Sees(m, k, v)
  {
    hide MemOk, LockedOk, HandOk, AllocOk, SafeOk, Ahead, Follows, Stores;
    HeadFacts(m, n, Chain(Bucket(m, k.key)));
    if k.pc.Follow? {
      FollowSees(m, n, c, k);
    } else if k.pc.Visit? && k.dvar.At? {
      MarkFacts(m, n, k.dvar.n);
    }
  }

  lemma FollowSees(m: Mem, n: nat, c: nat, k: Cpu)
    requires MemOk(m, n) && CpuOk(m, n, c, k) && k.pc.Follow? && Points(m, k.dvar)
    ensures var z := m.nodes[k.dvar.n].next; Points(m, z) ==>
        m.nodes[z.n].place == Chain(Bucket(m, k.key)) || Swept(m.nodes[z.n].place)
  {
    hide ListOk, MarkOk, Unique, BucketOk, ListsOk, LockedOk, HandOk, AllocOk, SafeOk, Ahead, Follows;
    var v, b := k.dvar.n, Bucket(m, k.key);
    assert NodeOk(m, v);
    if IsList(m.nodes[v].place) {
      NextFacts(m, n, v);
    } else if m.nodes[v].place.Gone? {
      FollowsFacts(m.nodes, m.nodes[v].place.b, v);
    }
  }

  lemma OtherSees(s: State, st: Step, c: nat, v: nat)
    requires Inv(s) && Fit(s, st) && c < |s.cpus| && Others(st, c) && Sees(Do(s, st).m, Do(s, st).cpus[c], v)
    ensures Sees(s.m, s.cpus[c], v) && Do(s, st).m.nodes[v].key == s.m.nodes[v].key
  {
    hide MemOk, Do, Fit, LockedOk, HandOk, AllocOk, Ahead;
    OthersChange(s, st, c);
    var m, m', k := s.m, Do(s, st).m, s.cpus[c];
    assert CpuOk(m, |s.cpus|, c, k);
    SafeRefs(m, |s.cpus|, c, k);
    SeenStays(m, m', |s.cpus|, c, Bucket(m, k.key), k.dvar);
    assert NodeStep(m.nodes[v], m'.nodes[v]);
  }

  /** At some instant after step t, up to state u, chunk v was on the chain of this key, with the key it has in u. */
  ghost predicate Was(tr: seq<State>, t: nat, u: nat, key: Key, v: nat)
    requires u < |tr| && v < |tr[u].m.nodes|
  {
    exists i :: t < i <= u && v < |tr[i].m.nodes| && tr[i].m.nodes[v].place == Chain(Bucket(tr[i].m, key)) &&
        tr[i].m.nodes[v].key == tr[u].m.nodes[v].key
  }

  /** What the walk of CPU c is at was on the chain during the call; and so was what the call returns. */
  ghost predicate Justified(tr: seq<State>, t: nat, u: nat, c: nat, key: Key)
    requires u < |tr| && c < |tr[u].cpus|
  {
    var m, k := tr[u].m, tr[u].cpus[c];
    && k.key == key
    && (forall v :: Sees(m, k, v) ==> Was(tr, t, u, key, v))
    && (forall v :: k.pc == Done(At(v)) ==> exists i :: t < i <= u && In(tr[i].m, key, v))
  }

  lemma SeesStep(s: State, st: Step, c: nat, v: nat)
    requires Inv(s) && Fit(s, st) && c < |s.cpus| && !((st.Start? || st.Leave?) && st.c == c)
    requires c < |Do(s, st).cpus| && Sees(Do(s, st).m, Do(s, st).cpus[c], v)
    ensures || Do(s, st).m.nodes[v].place == Chain(Bucket(Do(s, st).m, s.cpus[c].key))
            || (Sees(s.m, s.cpus[c], v) && Do(s, st).m.nodes[v].key == s.m.nodes[v].key)
  {
    hide GoMem, GoCpu, Ready, MemOk, CpuOk, HolderOk, CleanMem, Stores;
    if Others(st, c) {
      OtherSees(s, st, c, v);
    } else if st.Go? {
      SeesReads(s.m, |s.cpus|, c, s.cpus[c], st.yes, v);
      ReadsSame(s.m, |s.cpus|, c, s.cpus[c]);
      OwnSees(s.m, |s.cpus|, c, s.cpus[c], st.yes, v);
    }
  }

  lemma SeesReads(m: Mem, n: nat, c: nat, k: Cpu, yes: bool, v: nat)
    requires CpuOk(m, n, c, k) && Ready(m, n, c, k) && Sees(GoMem(m, n, c, k), GoCpu(m, n, c, k, yes), v)
    ensures !Stores(m, n, c, k)
  {
    hide WalkOk, LockedOk, HandOk, AllocOk, SafeOk, GoMem;
  }

  /** A call comes to return chunk v: it has just compared its key, or just published it. */
  lemma ReturnStep(s: State, st: Step, c: nat, v: nat)
    requires Inv(s) && Fit(s, st) && c < |s.cpus| && !((st.Start? || st.Leave?) && st.c == c)
    requires c < |Do(s, st).cpus| && Do(s, st).cpus[c].pc == Done(At(v))
    ensures || s.cpus[c].pc == Done(At(v)) || In(Do(s, st).m, s.cpus[c].key, v)
            || (Sees(s.m, s.cpus[c], v) && s.m.nodes[v].key == s.cpus[c].key)
  {
    hide MemOk, HolderOk, CleanMem, WalkOk, LockedOk, HandOk, AllocOk, SafeOk;
    if Others(st, c) {
      OthersChange(s, st, c);
    } else if st.Go? {
      assert CpuOk(s.m, |s.cpus|, c, s.cpus[c]);
      if s.cpus[c].pc.Publish? {
        MapStep(s, st, s.cpus[c].key, v);
      }
    }
  }

  lemma KeyStays(s: State, st: Step, c: nat)
    requires Fit(s, st) && c < |s.cpus| && !((st.Start? || st.Leave?) && st.c == c)
    ensures c < |Do(s, st).cpus| && Do(s, st).cpus[c].key == s.cpus[c].key
  {
    hide GoMem, CleanMem;
  }

  lemma {:induction false} AlwaysJustified(tr: seq<State>, ss: seq<Step>, t: nat, u: nat, c: nat, op: Op, key: Key)
    requires Run(tr, ss) && InCall(ss, t, u, c) && ss[t] == Start(c, op, key) && c < |tr[0].cpus|
    ensures c < |tr[u].cpus| && Justified(tr, t, u, c, key)
    decreases u
  {
    hide Inv, Do, Initial, In, GoMem, GoCpu, Ready, MemOk, CpuOk, Sees, Fit;
    RunKeeps(tr, ss, u);
    RunKeeps(tr, ss, u - 1);
    var s, st := tr[u - 1], ss[u - 1];
    assert Fit(s, st) && tr[u - 1 + 1] == Do(s, st);
    if u == t + 1 {
      StartSees(s, c, op, key);
    } else {
      AlwaysJustified(tr, ss, t, u - 1, c, op, key);
      KeyStays(s, st, c);
      JustifiedStep(tr, t, u, c, key, st);
    }
  }

  lemma StartSees(s: State, c: nat, op: Op, key: Key)
    requires Fit(s, Start(c, op, key))
    ensures c < |Do(s, Start(c, op, key)).cpus|
    ensures var s' := Do(s, Start(c, op, key));
        s'.cpus[c].key == key && !s'.cpus[c].pc.Done? && forall v :: !Sees(s'.m, s'.cpus[c], v)
  {
  }

  lemma JustifiedStep(tr: seq<State>, t: nat, u: nat, c: nat, key: Key, st: Step)
    requires 0 < u < |tr| && t < u && Inv(tr[u - 1]) && Fit(tr[u - 1], st) && tr[u] == Do(tr[u - 1], st)
    requires c < |tr[u - 1].cpus| && c < |tr[u].cpus| && !((st.Start? || st.Leave?) && st.c == c) &&
        Justified(tr, t, u - 1, c, key) && tr[u].cpus[c].key == key
    ensures Justified(tr, t, u, c, key)
  {
    hide Inv, Do, Sees, Fit, Bucket;
    var m', k' := tr[u].m, tr[u].cpus[c];
    forall v: nat | Sees(m', k', v)
      ensures v < |m'.nodes| && Was(tr, t, u, key, v)
    {
      SeesIn(m', k', v);
      SeesStep(tr[u - 1], st, c, v);
      if m'.nodes[v].place != Chain(Bucket(m', key)) {
        SeesIn(tr[u - 1].m, tr[u - 1].cpus[c], v);
        assert Was(tr, t, u - 1, key, v);
        var i :| t < i <= u - 1 && v < |tr[i].m.nodes| && tr[i].m.nodes[v].place == Chain(Bucket(tr[i].m, key)) &&
            tr[i].m.nodes[v].key == tr[u - 1].m.nodes[v].key;
        assert t < i <= u;
      }
    }
    forall v: nat | k'.pc == Done(At(v))
      ensures exists i :: t < i <= u && In(tr[i].m, key, v)
    {
      ReturnStep(tr[u - 1], st, c, v);
      if !In(m', key, v) && tr[u - 1].cpus[c].pc != Done(At(v)) {
        SeesIn(tr[u - 1].m, tr[u - 1].cpus[c], v);
        assert Was(tr, t, u - 1, key, v);
        var i :| t < i <= u - 1 && v < |tr[i].m.nodes| && tr[i].m.nodes[v].place == Chain(Bucket(tr[i].m, key)) &&
            tr[i].m.nodes[v].key == tr[u - 1].m.nodes[v].key;
        assert In(tr[i].m, key, v);
      }
    }
  }

  lemma SeesIn(m: Mem, k: Cpu, v: nat)
    requires Sees(m, k, v)
    ensures v < |m.nodes|
  {
  }

  /** A call that returns a chunk: at some instant of the call that chunk held the key. */
  lemma FoundWasPresent(tr: seq<State>, ss: seq<Step>, t: nat, u: nat, c: nat, op: Op, key: Key, v: nat)
    requires Run(tr, ss) && InCall(ss, t, u, c) && ss[t] == Start(c, op, key) && c < |tr[0].cpus|
    requires c < |tr[u].cpus| && tr[u].cpus[c].pc == Done(At(v))
    ensures exists i :: t < i <= u && In(tr[i].m, key, v)
  {
    hide Initial, Do, Fit;
    AlwaysJustified(tr, ss, t, u, c, op, key);
  }
}
