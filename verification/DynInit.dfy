/** dtrace_dstate_init: cutting the dynamic variable space into free lists, one for each CPU. */
module DynInit {
  import opened Options
  import opened DynSystem
  import opened DynInvariant
  import opened DynTheorems

  /** Chunk addresses linked in order: each leads to the next, the last to NULL. */
  ghost predicate Chained(next: map<nat, nat>, q: seq<nat>) {
    && (forall a :: 0 <= a < |q| - 1 ==> q[a] in next && next[q[a]] == q[a + 1])
    && (q != [] ==> q[|q| - 1] !in next)
  }

  /** The chunks of q follow each other from lo on and fit below hi. */
  predicate Packed(q: seq<nat>, lo: nat, hi: nat, chunk: nat) {
    forall a :: 0 <= a < |q| ==> lo <= q[a] && q[a] + chunk <= hi && (a > 0 ==> q[a] == q[a - 1] + chunk)
  }

  /** Chunks of different lists, and different chunks of one list, do not overlap. */
  predicate Apart(lists: seq<seq<nat>>, chunk: nat) {
    forall i, a, j, b :: 0 <= i < |lists| && 0 <= a < |lists[i]| && 0 <= j < |lists| && 0 <= b < |lists[j]| &&
                         (i != j || a != b) ==>
      lists[i][a] + chunk <= lists[j][b] || lists[j][b] + chunk <= lists[i][a]
  }

  lemma DivFits(size: nat, unit: nat, k: nat)
    requires 0 < unit <= size && k <= size / unit
    ensures size / unit >= 1 && k * unit <= size
  {
    assert size / unit * unit <= size;
    assert k * unit <= size / unit * unit;
  }

  /** Whatever size is asked for, the space behind the hash buckets has room for a chunk for every bucket. */
  lemma RoomBehindBuckets(asked: nat, chunk: nat, bucket: nat)
    requires chunk > 0 && bucket > 0
    ensures var size := if asked < chunk + bucket then chunk + bucket else asked;
            var raw := size / (chunk + bucket);
            var hashsize := if raw != 1 && raw % 2 == 1 then raw - 1 else raw;
            hashsize >= 1 && hashsize * (bucket + chunk) <= size
  {
    var size := if asked < chunk + bucket then chunk + bucket else asked;
    var raw := size / (chunk + bucket);
    DivFits(size, chunk + bucket, raw);
    var hashsize := if raw != 1 && raw % 2 == 1 then raw - 1 else raw;
    DivFits(size, chunk + bucket, hashsize);
  }

  lemma {:induction false} PackedApart(q: seq<nat>, lo: nat, hi: nat, chunk: nat, a: nat, b: nat)
    requires Packed(q, lo, hi, chunk) && a < b < |q|
    ensures q[a] + chunk <= q[b]
    decreases b
  {
    if a < b - 1 {
      PackedApart(q, lo, hi, chunk, a, b - 1);
    }
  }

  lemma AllApart(lists: seq<seq<nat>>, los: seq<nat>, chunk: nat)
    requires |los| == |lists| + 1 && (forall i, j :: 0 <= i <= j < |los| ==> los[i] <= los[j])
    requires forall i :: 0 <= i < |lists| ==> Packed(lists[i], los[i], los[i + 1], chunk)
    ensures Apart(lists, chunk)
  {
    forall i, a, j, b | 0 <= i < |lists| && 0 <= a < |lists[i]| && 0 <= j < |lists| && 0 <= b < |lists[j]| &&
        (i != j || a != b)
      ensures lists[i][a] + chunk <= lists[j][b] || lists[j][b] + chunk <= lists[i][a]
    {
      assert Packed(lists[i], los[i], los[i + 1], chunk) && Packed(lists[j], los[j], los[j + 1], chunk);
      if i == j {
        PackedApart(lists[i], los[i], los[i + 1], chunk, if a < b then a else b, if a < b then b else a);
      } else if i < j {
        assert los[i + 1] <= los[j];
      } else {
        assert los[j + 1] <= los[i];
      }
    }
  }

  /** One CPU's share: as many chunks as fit strictly below the limit, and always the first. */
  method CutShare(start: nat, limit: nat, chunk: nat, next0: map<nat, nat>)
      returns (next: map<nat, nat>, list: seq<nat>)
    requires chunk > 0 && start + chunk <= limit && (forall x :: x in next0 ==> x < start)
    ensures list != [] && list[0] == start && Packed(list, start, limit, chunk) && Chained(next, list)
    ensures forall x :: x in next0 ==> x in next && next[x] == next0[x]
    ensures forall x :: x in next ==> x in next0 || start <= x < limit
  {
    var dvar := start;
    next, list := next0, [start];
    while dvar + chunk + chunk < limit
      invariant list != [] && list[0] == start && list[|list| - 1] == dvar && dvar !in next &&
          Packed(list, start, limit, chunk)
      invariant forall a :: 0 <= a < |list| - 1 ==> list[a] in next && next[list[a]] == list[a + 1]
      invariant forall x :: x in next0 ==> x in next && next[x] == next0[x]
      invariant forall x :: x in next ==> x in next0 || start <= x < dvar
    {
      next := next[dvar := dvar + chunk];
      dvar := dvar + chunk;
      list := list + [dvar];
    }
  }

  /** Each CPU's share of the space, in whole chunks. */
  function Share(room: nat, chunk: nat, ncpu: nat): nat
    requires chunk > 0 && ncpu > 0
  {
    room / ncpu / chunk * chunk
  }

  lemma ShareFits(room: nat, chunk: nat, ncpu: nat)
    requires chunk > 0 && ncpu > 0
    ensures ncpu * Share(room, chunk, ncpu) <= room
    ensures room / ncpu >= chunk ==> Share(room, chunk, ncpu) != 0
    ensures Share(room, chunk, ncpu) != 0 ==> Share(room, chunk, ncpu) >= chunk
  {
    var per := room / ncpu;
    var k := per / chunk;
    assert ncpu * per <= room && k * chunk <= per;
    assert ncpu * (k * chunk) <= ncpu * per;
    if k >= 1 {
      assert k * chunk == chunk + (k - 1) * chunk;
    }
    if per >= chunk {
      assert k >= 1;
    }
  }

  lemma OneLess(k: nat, share: nat)
    requires k > 0
    ensures k * share == (k - 1) * share + share && (k - 1) * share >= 0
  {
  }

  /** The free lists: one for each CPU, disjoint, within the space, linked in memory as the pointers say. */
  method FreeLists(start0: nat, limit0: nat, chunk: nat, ncpu: nat) returns (next: map<nat, nat>, lists: seq<seq<nat>>)
    requires chunk > 0 && ncpu > 0 && start0 + chunk <= limit0
    ensures |lists| == ncpu && lists[0] != [] && Apart(lists, chunk)
    ensures forall i :: 0 <= i < ncpu ==> Packed(lists[i], start0, limit0, chunk) && Chained(next, lists[i])
    ensures (limit0 - start0) / ncpu >= chunk ==> forall i :: 0 <= i < ncpu ==> lists[i] != []
  {
    hide Share, Apart;
    var share := Share(limit0 - start0, chunk, ncpu);
    ShareFits(limit0 - start0, chunk, ncpu);
    ghost var los: seq<nat>;
    next, lists, los := CutShares(start0, limit0, chunk, ncpu, share);
    AllApart(lists, los, chunk);
    var i := |lists|;
    while |lists| < ncpu
      invariant 0 < i <= |lists| <= ncpu && lists[0] != [] && Apart(lists, chunk)
      invariant forall j :: 0 <= j < i ==>
          lists[j] != [] && Packed(lists[j], start0, limit0, chunk) && Chained(next, lists[j])
      invariant forall j :: i <= j < |lists| ==> lists[j] == []
    {
      EmptyApart(lists, chunk);
      lists := lists + [[]];
    }
  }

  lemma EmptyApart(lists: seq<seq<nat>>, chunk: nat)
    requires Apart(lists, chunk)
    ensures Apart(lists + [[]], chunk)
  {
  }

  /** CPU after CPU takes its share; the last takes what is left, and the only one everything if the shares are
      empty. */
  method CutShares(start0: nat, limit0: nat, chunk: nat, ncpu: nat, share: nat)
      returns (next: map<nat, nat>, lists: seq<seq<nat>>, ghost los: seq<nat>)
    requires chunk > 0 && ncpu > 0 && start0 + chunk <= limit0 && start0 + ncpu * share <= limit0 &&
        (share == 0 || share >= chunk)
    ensures |lists| == (if share == 0 then 1 else ncpu) && |los| == |lists| + 1 &&
        (forall i, j :: 0 <= i <= j < |los| ==> los[i] <= los[j])
    ensures forall i :: 0 <= i < |lists| ==>
        lists[i] != [] && Packed(lists[i], los[i], los[i + 1], chunk) && Chained(next, lists[i])
    ensures forall i :: 0 <= i < |lists| ==> Packed(lists[i], start0, limit0, chunk)
  {
    var i, start := 0, start0;
    next, lists := map[], [];
    los := [start0];
    while i < ncpu
      invariant 0 <= i <= ncpu && |lists| == i && |los| == i + 1 && los[i] == start && los[0] == start0 &&
          start <= limit0
      invariant i < ncpu ==> start + (ncpu - i) * share <= limit0
      invariant i > 0 ==> share != 0
      invariant forall j, l :: 0 <= j <= l < |los| ==> los[j] <= los[l]
      invariant forall j :: 0 <= j < i ==>
          lists[j] != [] && Packed(lists[j], los[j], los[j + 1], chunk) && Chained(next, lists[j])
      invariant forall j :: 0 <= j < i ==> Packed(lists[j], start0, limit0, chunk)
      invariant forall x :: x in next ==> x < start
    {
      OneLess(ncpu - i, share);
      var limit := if share == 0 || i == ncpu - 1 then limit0 else start + share;
      ghost var before := next;
      var list;
      next, list := CutShare(start, limit, chunk, next);
      forall j | 0 <= j < i
        ensures Chained(next, lists[j])
      {
        StillChained(before, next, lists[j], los[j], los[j + 1], chunk, start);
      }
      lists, los := lists + [list], los + [limit];
      if share == 0 {
        return;
      }
      start, i := limit, i + 1;
    }
  }

  lemma StillChained(next: map<nat, nat>, next': map<nat, nat>, q: seq<nat>, lo: nat, hi: nat, chunk: nat, start: nat)
    requires Chained(next, q) && Packed(q, lo, hi, chunk) && chunk > 0 && hi <= start
    requires forall x :: x in next ==> x in next' && next'[x] == next[x]
    requires forall x :: x in next' ==> x in next || start <= x
    ensures Chained(next', q)
  {
  }

  // ---------------------------------------------------------------- the step system starts here

  /** The list the chunk at address v is on. */
  function Home(lists: seq<seq<nat>>, v: nat): Place {
    if lists == [] then Nowhere
    else if v in lists[|lists| - 1] then Free(|lists| - 1)
    else Home(lists[..|lists| - 1], v)
  }

  lemma {:induction false} HomeIs(lists: seq<seq<nat>>, v: nat)
    ensures Home(lists, v).Nowhere? || (Home(lists, v).Free? && Home(lists, v).d < |lists| &&
        v in lists[Home(lists, v).d])
    ensures Home(lists, v).Nowhere? ==> forall d :: 0 <= d < |lists| ==> v !in lists[d]
  {
    if lists != [] && v !in lists[|lists| - 1] {
      HomeIs(lists[..|lists| - 1], v);
    }
  }

  /** A chunk is on one list only. */
  lemma HomeUnique(lists: seq<seq<nat>>, chunk: nat, v: nat, d: nat)
    requires chunk > 0 && Apart(lists, chunk) && d < |lists| && v in lists[d]
    ensures Home(lists, v) == Free(d)
  {
    HomeIs(lists, v);
    var e := Home(lists, v).d;
    var a :| 0 <= a < |lists[d]| && lists[d][a] == v;
    var b :| 0 <= b < |lists[e]| && lists[e][b] == v;
  }

  /** Memory as dtrace_dstate_init leaves it, each address a chunk or nothing. */
  function Chunks(next: map<nat, nat>, lists: seq<seq<nat>>, space: nat): seq<Node> {
    seq(space, v requires 0 <= v < space => Node(Unused, Key(0, 0), if v in next
        then At(next[v]) else Null, Home(lists, v), 0, Null))
  }

  function FreeMap(lists: seq<seq<nat>>): map<Place, seq<nat>> {
    map d: nat | d < |lists| :: Free(d) := lists[d]
  }

  function Laid(next: map<nat, nat>, lists: seq<seq<nat>>, space: nat, buckets: nat): State {
    var n := |lists|;
    var none, nulls := seq(n, _ => None), seq(n, _ => Null);
    State(
      Mem(Chunks(next, lists, space), seq(buckets, _ => Sink), seq(buckets, _ => 0),
          seq(n, d requires 0 <= d < n => Nth(lists[d], 0, Null)), nulls, nulls, nulls, CIdle,
          FreeMap(lists), 0, seq(buckets, _ => None), seq(buckets, _ => None), none, none, nulls),
      seq(n, c requires 0 <= c < n => Cpu(Idle, Alloc, Key(0, 0), c, 0, Null, Null, Null, Null, Null)))
  }

  lemma LaidLinked(next: map<nat, nat>, lists: seq<seq<nat>>, space: nat, chunk: nat, lo: nat, d: nat)
    requires chunk > 0 && Apart(lists, chunk) && d < |lists| && Packed(lists[d], lo, space, chunk) &&
        Chained(next, lists[d])
    ensures Linked(Chunks(next, lists, space), Free(d), lists[d])
  {
    var q, nodes := lists[d], Chunks(next, lists, space);
    forall i, j | 0 <= i < j < |q|
      ensures q[i] != q[j]
    {
      PackedApart(q, lo, space, chunk, i, j);
    }
    forall i | 0 <= i < |q|
      ensures q[i] < |nodes| && nodes[q[i]].place == Free(d) && nodes[q[i]].next == Nth(q, i + 1, EndOf(Free(d)))
    {
      HomeUnique(lists, chunk, q[i], d);
    }
  }

  lemma LaidLists(next: map<nat, nat>, lists: seq<seq<nat>>, space: nat, buckets: nat, p: Place)
    ensures L(Laid(next, lists, space, buckets).m, p) == if p.Free? && p.d < |lists| then lists[p.d] else []
  {
  }

  /** What the free lists leave behind is an initial state of the step system. */
  lemma LaidInitial(next: map<nat, nat>, lists: seq<seq<nat>>, start: nat, space: nat, chunk: nat, buckets: nat)
    requires chunk > 0 && buckets > 0 && lists != [] && Apart(lists, chunk)
    requires forall d :: 0 <= d < |lists| ==> Packed(lists[d], start, space, chunk) && Chained(next, lists[d])
    ensures Initial(Laid(next, lists, space, buckets))
  {
    hide Linked, Apart, Packed, Chained, L, Home, FreeMap;
    var s := Laid(next, lists, space, buckets);
    forall p {
      LaidLists(next, lists, space, buckets, p);
    }
    forall d | 0 <= d < |lists|
      ensures Linked(s.m.nodes, Free(d), lists[d])
    {
      LaidLinked(next, lists, space, chunk, start, d);
    }
    forall v | 0 <= v < space
      ensures Home(lists, v).Nowhere? || (Home(lists, v).Free? && Home(lists, v).d < |lists| &&
          v in lists[Home(lists, v).d])
    {
      HomeIs(lists, v);
    }
  }

  /** dtrace_dstate_init from the sizes on: the space is laid out, and is an initial state of the step system. */
  method Prepare(start: nat, space: nat, chunk: nat, ncpu: nat, buckets: nat)
      returns (next: map<nat, nat>, lists: seq<seq<nat>>)
    requires chunk > 0 && ncpu > 0 && start + chunk <= space && buckets > 0
    ensures |lists| == ncpu && Initial(Laid(next, lists, space, buckets)) && lists[0] != []
  {
    hide Initial, Laid;
    next, lists := FreeLists(start, space, chunk, ncpu);
    LaidInitial(next, lists, start, space, chunk, buckets);
  }
}
