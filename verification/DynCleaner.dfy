/** The steps of the cleaner, dtrace_dynvar_clean. */
module DynCleaner {
  import opened Counting
  import opened DynSystem
  import opened DynInvariant
  import opened DynStable
  import opened DynLinks
  import opened DynMoves

  /** The cleaner is about to hand CPU i's rinsing list over. */
  predicate Refills(m: Mem, n: nat) {
    Sized(m, n) && m.cl.CRefill? && m.cl.i < n && m.rinsing[m.cl.i] != Null
  }

  predicate Grabs(m: Mem, n: nat) {
    Sized(m, n) && m.cl.CGrab? && m.cl.i < n && m.dirty[m.cl.i] == m.cl.x
  }

  // ---------------------------------------------------------------- steps that move no list

  lemma QuietSame(m: Mem, n: nat)
    requires Sized(m, n) && !Refills(m, n) && !Grabs(m, n) && (m.cl.CSync? ==> m.cl.waiting == {})
    ensures var m' := CleanMem(m, n);
            && m' == m.(cl := m'.cl, rinsing := m'.rinsing) && |m'.rinsing| == n
            && (forall e :: 0 <= e < n && Safe(m', e) ==> Safe(m, e))
            && (forall d :: 0 <= d < n && !Stale(m'.cl, d) ==> m'.rinsing[d] == m.rinsing[d] || m'.rinsing[d] == Null)
            && (forall d :: 0 <= d < n && Stale(m'.cl, d) != Stale(m.cl, d) ==>
                  (m.cl.CScanClean? && m.cl.i == d) || (m.cl.CDrop? && m.cl.i == d && m'.rinsing[d] == Null))
            && (forall d :: 0 <= d < n && m'.rinsing[d] != m.rinsing[d] ==> Stale(m.cl, d))
  {
    assert forall e :: 0 <= e < n ==> e in Below(n);
  }

  lemma QuietRinse(m: Mem, n: nat, d: nat)
    requires MemOk(m, n) && !Refills(m, n) && !Grabs(m, n) && (m.cl.CSync? ==> m.cl.waiting == {})
    ensures HeadOf(CleanMem(m, n), Rinse(d)) == HeadOf(m, Rinse(d))
  {
    hide NodeOk, Unique, BucketOk, Linked, Newest, CleanMem;
    QuietSame(m, n);
    assert ListOk(m, Rinse(d));
    if d < n {
      assert ListsOk(m, d);
    }
  }

  lemma QuietLists(m: Mem, n: nat, p: Place)
    requires MemOk(m, n) && !Refills(m, n) && !Grabs(m, n) && (m.cl.CSync? ==> m.cl.waiting == {})
    ensures ListOk(CleanMem(m, n), p)
  {
    hide NodeOk, Unique, BucketOk, Linked, Newest, CleanMem, ListsOk, Safe, Stale;
    QuietSame(m, n);
    assert ListOk(m, p);
    if p.Rinse? {
      QuietRinse(m, n, p.d);
    }
    ListFrame(m, CleanMem(m, n), p);
  }

  lemma QuietListsOk(m: Mem, n: nat, d: nat)
    requires MemOk(m, n) && !Refills(m, n) && !Grabs(m, n) && d < n && (m.cl.CSync? ==> m.cl.waiting == {})
    ensures Sized(CleanMem(m, n), n) && ListsOk(CleanMem(m, n), d)
  {
    hide NodeOk, Unique, BucketOk, ListOk, HeadOf, Below;
    assert ListsOk(m, d);
    assert Pending(CleanMem(m, n), d) == Pending(m, d);
    if !Stale(m.cl, d) {
      RinseEmpty(m, n, d);
    }
  }

  lemma RinseEmpty(m: Mem, n: nat, d: nat)
    requires MemOk(m, n) && d < n && !Stale(m.cl, d)
    ensures m.rinsing[d] == Null ==> !Pending(m, d)
  {
    assert ListOk(m, Rinse(d));
  }

  lemma QuietMem(m: Mem, n: nat)
    requires MemOk(m, n) && !Refills(m, n) && !Grabs(m, n) && (m.cl.CSync? ==> m.cl.waiting == {})
    ensures MemOk(CleanMem(m, n), n)
  {
    hide ListOk, NodeOk, Unique, BucketOk, ListsOk, Below;
    var m' := CleanMem(m, n);
    forall p
      ensures ListOk(m', p)
    {
      QuietLists(m, n, p);
    }
    forall v | 0 <= v < |m.nodes|
      ensures NodeOk(m', v)
    {
      NodeFrame(m, m', v);
    }
    forall a | 0 <= a < |m.lock|
      ensures BucketOk(m', a)
    {
      assert BucketOk(m, a);
      BucketFrame(m, m', a);
    }
    forall d | 0 <= d < n
      ensures ListsOk(m', d)
    {
      QuietListsOk(m, n, d);
    }
  }

  lemma BucketFrame(m: Mem, m': Mem, a: nat)
    requires a < |m.lock| && a < |m.holder| && a < |m.gone| && BucketOk(m, a)
    requires m'.nodes == m.nodes && m'.lock == m.lock && m'.holder == m.holder && m'.gone == m.gone
    ensures BucketOk(m', a)
  {
  }

  lemma QuietChange(m: Mem, n: nat, e: nat)
    requires MemOk(m, n) && !Refills(m, n) && !Grabs(m, n) && (m.cl.CSync? ==> m.cl.waiting == {}) && e < n
    ensures Change(m, CleanMem(m, n), n, e)
  {
    hide ListOk, NodeOk, Unique, BucketOk, ListsOk, CleanMem, Safe, Stale;
    QuietSame(m, n);
    StampBound(m, n);
    assert forall d :: Pending(CleanMem(m, n), d) <==> Pending(m, d);
  }

  // ---------------------------------------------------------------- taking a dirty list aside

  lemma GrabHops(m: Mem, n: nat)
    requires MemOk(m, n) && Grabs(m, n)
    ensures Hops(m, CleanMem(m, n), Dirty(m.cl.i), Rinse(m.cl.i))
  {
    hide ListOk, NodeOk, Unique, BucketOk;
    assert ListsOk(m, m.cl.i);
  }

  lemma GrabListsOk(m: Mem, n: nat, d: nat)
    requires MemOk(m, n) && Grabs(m, n) && d < n
    ensures Sized(CleanMem(m, n), n) && ListsOk(CleanMem(m, n), d)
  {
    hide ListOk, NodeOk, Unique, BucketOk, Rehomed;
    var m', i := CleanMem(m, n), m.cl.i;
    assert ListsOk(m, d) && ListsOk(m, i);
    assert d != i ==> L(m', Rinse(d)) == L(m, Rinse(d));
    RehomedSame(m.nodes, Dirty(i), Rinse(i), m.hand[d]);
  }

  lemma GrabMem(m: Mem, n: nat)
    requires MemOk(m, n) && Grabs(m, n)
    ensures MemOk(CleanMem(m, n), n)
  {
    hide ListOk, NodeOk, Unique, BucketOk, ListsOk, Hops;
    GrabHops(m, n);
    forall d | 0 <= d < n
      ensures Sized(CleanMem(m, n), n) && ListsOk(CleanMem(m, n), d)
    {
      GrabListsOk(m, n, d);
    }
    HopMem(m, CleanMem(m, n), n, Dirty(m.cl.i), Rinse(m.cl.i));
  }

  lemma GrabChange(m: Mem, n: nat, e: nat)
    requires MemOk(m, n) && Grabs(m, n) && e < n
    ensures Change(m, CleanMem(m, n), n, e)
  {
    hide ListOk, NodeOk, Unique, BucketOk, ListsOk, NodesStep;
    GrabHops(m, n);
    HopNodes(m, CleanMem(m, n), n, Dirty(m.cl.i), Rinse(m.cl.i));
  }

  // ---------------------------------------------------------------- handing a rinsing list over

  lemma RefillHops(m: Mem, n: nat)
    requires MemOk(m, n) && Refills(m, n)
    ensures Hops(m, CleanMem(m, n), Rinse(m.cl.i), Clean(m.cl.i)) && Pending(m, m.cl.i)
  {
    hide NodeOk, Unique, BucketOk, Linked, Newest;
    assert ListsOk(m, m.cl.i) && ListOk(m, Rinse(m.cl.i)) && ListOk(m, Clean(m.cl.i));
  }

  lemma RefillListsOk(m: Mem, n: nat, d: nat)
    requires MemOk(m, n) && Refills(m, n) && d < n && m.mover[m.cl.i].None?
    ensures Sized(CleanMem(m, n), n) && ListsOk(CleanMem(m, n), d)
  {
    hide ListOk, NodeOk, Unique, BucketOk, Rehomed;
    var m', i := CleanMem(m, n), m.cl.i;
    assert ListsOk(m, d) && ListsOk(m, i);
    assert d != i ==> L(m', Rinse(d)) == L(m, Rinse(d));
    assert L(m', Rinse(i)) == [];
    RehomedSame(m.nodes, Rinse(i), Clean(i), m.hand[d]);
  }

  lemma RefillMem(m: Mem, n: nat)
    requires MemOk(m, n) && Refills(m, n) && m.mover[m.cl.i].None? && RinseFree(m.nodes)
    ensures MemOk(CleanMem(m, n), n)
  {
    hide ListOk, NodeOk, Unique, BucketOk, ListsOk, Hops, RinseFree;
    RefillHops(m, n);
    forall d | 0 <= d < n
      ensures Sized(CleanMem(m, n), n) && ListsOk(CleanMem(m, n), d)
    {
      RefillListsOk(m, n, d);
    }
    HopMem(m, CleanMem(m, n), n, Rinse(m.cl.i), Clean(m.cl.i));
  }

  lemma RefillChange(m: Mem, n: nat, e: nat)
    requires MemOk(m, n) && Refills(m, n) && e < n && m.mover[m.cl.i].None?
    ensures Change(m, CleanMem(m, n), n, e)
  {
    hide ListOk, NodeOk, Unique, BucketOk, ListsOk, NodesStep;
    RefillHops(m, n);
    HopNodes(m, CleanMem(m, n), n, Rinse(m.cl.i), Clean(m.cl.i));
  }
}
