/** One CPU of the cyclic subsystem in place: its heap, its slots, and the time its backend is programmed to. */
module CyclicHeap {
  import opened Options
  import opened Counting
  import opened HeapSpec
  import opened FireSpec

  /** The first n entries of the heap are the active slots, the rest the free list. */
  predicate Split(h: seq<nat>, cs: seq<Slot>, n: nat) {
    forall i :: 0 <= i < |h| && h[i] < |cs| ==> (cs[h[i]].free <==> i >= n)
  }

  /** Active cyclics have an interval and a time to expire; free ones have nothing pending. */
  predicate Timed(cs: seq<Slot>) {
    forall j :: 0 <= j < |cs| ==> if cs[j].free then cs[j].pend == 0 else cs[j].interval > 0 && cs[j].expire > 0
  }

  /** Two active entries of the heap change places. */
  lemma SwapActive(h: seq<nat>, cs: seq<Slot>, n: nat, i: nat, j: nat)
    requires Permutes(h, |cs|) && Split(h, cs, n) && i < n <= |h| && j < n && i != j
    ensures Permutes(Swap(h, i, j), |cs|) && Split(Swap(h, i, j), cs, n)
    ensures Swap(h, i, j)[n..] == h[n..] && Swap(h, i, j)[i] == h[j] != h[i] == Swap(h, i, j)[j]
    ensures forall l :: 0 <= l < |h| && l != i && l != j ==> Swap(h, i, j)[l] == h[l]
  {
    SwapPermutes(h, |cs|, i, j);
  }

  /** Heap entries are slots, and the key of an entry is when its slot expires. */
  lemma Entry(h: seq<nat>, cs: seq<Slot>, i: nat)
    requires Permutes(h, |cs|) && i < |h|
    ensures h[i] < |cs| && Key(h, cs, i) == cs[h[i]].expire
  {
  }

  predicate Early(h: seq<nat>, cs: seq<Slot>, i: nat)
    requires i < |h|
  {
    i == 0 || Key(h, cs, i) < Key(h, cs, Parent(i))
  }

  lemma EarlierUp(h: seq<nat>, cs: seq<Slot>, n: nat, p: nat)
    requires n <= |h| && 0 < p < n && UpTo(h, cs, n, p) && Key(h, cs, p) >= Key(h, cs, Parent(p))
    ensures Heap(h, cs, n)
  {
    UpDone(h, cs, n, p);
  }

  lemma AtRoot(h: seq<nat>, cs: seq<Slot>, n: nat)
    requires n <= |h| && 0 < n && UpTo(h, cs, n, 0)
    ensures Heap(h, cs, n)
  {
    UpDone(h, cs, n, 0);
  }

  /** Entry p is no later than its children; the earlier of them is c. */
  lemma EarlierDown(h: seq<nat>, cs: seq<Slot>, n: nat, p: nat, c: nat)
    requires n <= |h| && p < n && DownTo(h, cs, n, p) && Earlier(h, cs, n, p, c) && Key(h, cs, p) <= Key(h, cs, c)
    ensures Heap(h, cs, n)
  {
    DownDone(h, cs, n, p);
  }

  predicate Earlier(h: seq<nat>, cs: seq<Slot>, n: nat, p: nat, c: nat)
    requires n <= |h|
  {
    0 < c < n && Parent(c) == p && forall i :: 0 < i < n && Parent(i) == p ==> Key(h, cs, c) <= Key(h, cs, i)
  }

  lemma EarlierOf(h: seq<nat>, cs: seq<Slot>, n: nat, p: nat, c: nat)
    requires n <= |h| && Left(p) < n && Permutes(h, |cs|)
    requires c == if Right(p) < n && Key(h, cs, Right(p)) < Key(h, cs, Left(p)) then Right(p) else Left(p)
    ensures Earlier(h, cs, n, p, c) && p < c < n
  {
    forall i | 0 < i < n && Parent(i) == p
      ensures i == Left(p) || i == Right(p)
    {
    }
  }

  lemma NoChildren(h: seq<nat>, cs: seq<Slot>, n: nat, p: nat)
    requires n <= |h| && DownTo(h, cs, n, p) && Left(p) >= n
    ensures Heap(h, cs, n)
  {
    DownDone(h, cs, n, p);
  }

  /** Every slot is somewhere in the heap; an active one among the first n entries. */
  lemma FindSlot(h: seq<nat>, cs: seq<Slot>, n: nat, j: nat) returns (i: nat)
    requires Permutes(h, |cs|) && Split(h, cs, n) && j < |cs|
    ensures i < |h| && h[i] == j && (cs[j].free <==> i >= n)
  {
    if j !in h {
      Pigeonhole(h, |cs|, j);
    }
    i :| 0 <= i < |h| && h[i] == j;
  }

  /** The root's expiration time moves on: a heap but for the root. */
  lemma RootLater(h: seq<nat>, cs: seq<Slot>, n: nat, c: Slot)
    requires Permutes(h, |cs|) && Split(h, cs, n) && Timed(cs) && 0 < n <= |h| && Heap(h, cs, n)
    requires c == cs[h[0]].(expire := c.expire) && c.expire >= cs[h[0]].expire
    ensures var cs' := cs[h[0] := c]; DownTo(h, cs', n, 0) && Split(h, cs', n) && Timed(cs')
  {
    var cs' := cs[h[0] := c];
    forall i | 0 < i < |h|
      ensures Key(h, cs', i) == Key(h, cs, i)
    {
      assert h[i] != h[0];
    }
    forall i | 0 <= i < n && (i == 0 || Parent(i) != 0)
      ensures Ordered(h, cs', i)
    {
      assert Ordered(h, cs, i);
    }
  }

  /** How far each cyclic is on its way while its CPU fires. */
  predicate AllOnTheWay(was: seq<Slot>, cs: seq<Slot>, calls: seq<nat>, now: int) {
    |cs| == |was| && forall j :: 0 <= j < |cs| ==> OnTheWay(was[j], cs[j], Times(calls, j), now)
  }

  lemma AllStart(cs: seq<Slot>, now: int)
    ensures AllOnTheWay(cs, cs, [], now)
  {
  }

  lemma AllStep(was: seq<Slot>, cs: seq<Slot>, calls: seq<nat>, now: int, j: nat)
    requires AllOnTheWay(was, cs, calls, now) && j < |cs| && !cs[j].free && cs[j].interval > 0 && cs[j].expire <= now
    ensures var c := cs[j].(expire := Advance(cs[j].expire, cs[j].interval, now));
            && c.expire > cs[j].expire && AllOnTheWay(was, cs[j := c], calls + [j], now)
            && Total(cs[j := c], now) < Total(cs, now)
  {
    hide OnTheWay, Advance, Total, ShotsOf;
    var c := cs[j].(expire := Advance(cs[j].expire, cs[j].interval, now));
    OneShot(cs[j].expire, cs[j].interval, now);
    StepOnTheWay(was[j], cs[j], Times(calls, j), now);
    TotalUpdate(cs, j, c, now);
    assert (calls + [j])[..|calls|] == calls;
  }

  /** What firing at `now` does to the slots. */
  predicate Fired(was: seq<Slot>, cs: seq<Slot>, calls: seq<nat>, now: int) {
    && |cs| == |was|
    && forall j :: 0 <= j < |cs| ==>
         if was[j].free || was[j].interval <= 0 then cs[j] == was[j] && Times(calls, j) == 0
         else && cs[j] == was[j].(expire := Next(was[j].expire, was[j].interval, now))
              && Times(calls, j) == Shots(was[j].expire, was[j].interval, now)
  }

  /** The root is no longer due, so nothing is. */
  lemma AllArrived(was: seq<Slot>, h: seq<nat>, cs: seq<Slot>, n: nat, calls: seq<nat>, now: int)
    requires AllOnTheWay(was, cs, calls, now) && Permutes(h, |cs|) && Split(h, cs, n) && n <= |h| && Heap(h, cs, n)
    requires n > 0 ==> Key(h, cs, 0) > now
    ensures Fired(was, cs, calls, now)
  {
    forall j | 0 <= j < |cs| && !was[j].free && was[j].interval > 0
      ensures cs[j].expire > now
    {
      assert OnTheWay(was[j], cs[j], Times(calls, j), now);
      var i := FindSlot(h, cs, n, j);
      RootFirst(h, cs, n, i);
    }
  }

  /** A free slot becomes active as the last entry of the heap: a heap but for that entry. */
  lemma AddLast(h: seq<nat>, cs: seq<Slot>, n: nat, c: Slot)
    requires Permutes(h, |cs|) && Split(h, cs, n) && Timed(cs) && n < |h| && Heap(h, cs, n) && !c.free &&
        c.interval > 0 && c.expire > 0
    ensures h[n] < |cs| && cs[h[n]].free
    ensures var cs' := cs[h[n] := c]; UpTo(h, cs', n + 1, n) && Split(h, cs', n + 1) && Timed(cs')
    ensures n > 0 ==> h[0] != h[n]
  {
    var cs' := cs[h[n] := c];
    forall i | 0 <= i < n
      ensures Key(h, cs', i) == Key(h, cs, i) && Ordered(h, cs, i)
    {
      assert h[i] != h[n];
    }
  }

  /** The slot of entry i is freed and the last entry takes its place. */
  lemma FreeEntry(h: seq<nat>, cs: seq<Slot>, n: nat, i: nat, c: Slot)
    requires Permutes(h, |cs|) && Split(h, cs, n) && Timed(cs) && i < n <= |h| && Heap(h, cs, n) &&
        c == cs[h[i]].(free := true, pend := 0)
    ensures h[i] < |cs|
    ensures var cs', h' := cs[h[i] := c], Swap(h, i, n - 1);
            && Permutes(h', |cs|) && Split(h', cs', n - 1) && Timed(cs')
            && (i == n - 1 ==> h' == h && Heap(h, cs', n - 1))
            && (i < n - 1 && Early(h', cs', i) && i > 0 ==> UpTo(h', cs', n - 1, i))
            && (i < n - 1 && (!Early(h', cs', i) || i == 0) ==> DownTo(h', cs', n - 1, i))
            && (i > 0 ==> h'[0] == h[0] && cs'[h[0]] == cs[h[0]])
  {
    hide Heap, UpTo, DownTo;
    SwapPermutes(h, |cs|, i, n - 1);
    var cs', h' := cs[h[i] := c], Swap(h, i, n - 1);
    KeysSame(h, cs, c, n, i);
    if i == n - 1 {
      assert h' == h;
      FewerHeap(h, cs, cs', n);
    } else {
      HeapSame(h, cs, cs', n);
      if Early(h', cs', i) && i > 0 {
        ReplacedUp(h, cs', n - 1, i);
      } else {
        ReplacedDown(h, cs', n - 1, i);
      }
    }
  }

  lemma KeysSame(h: seq<nat>, cs: seq<Slot>, c: Slot, n: nat, i: nat)
    requires Permutes(h, |cs|) && i < |h| && c.expire == cs[h[i]].expire
    ensures h[i] < |cs| && forall j :: 0 <= j < |h| ==> Key(h, cs[h[i] := c], j) == Key(h, cs, j)
  {
  }

  lemma HeapSame(h: seq<nat>, cs: seq<Slot>, cs': seq<Slot>, n: nat)
    requires n <= |h| && Heap(h, cs, n) && forall j :: 0 <= j < |h| ==> Key(h, cs', j) == Key(h, cs, j)
    ensures Heap(h, cs', n)
  {
    forall i | 0 <= i < n
      ensures Ordered(h, cs', i)
    {
      assert Ordered(h, cs, i);
    }
  }

  lemma FewerHeap(h: seq<nat>, cs: seq<Slot>, cs': seq<Slot>, n: nat)
    requires 0 < n <= |h| && Heap(h, cs, n) && forall j :: 0 <= j < |h| ==> Key(h, cs', j) == Key(h, cs, j)
    ensures Heap(h, cs', n - 1)
  {
    HeapSame(h, cs, cs', n);
  }

  class CycCpu {
    var heap: array<nat>
    var cyclics: array<Slot>
    var nelems: nat
    var programmed: Option<int>

    ghost predicate Sound()
      reads this, heap, cyclics
    {
      && heap.Length == cyclics.Length && nelems <= heap.Length
      && Permutes(heap[..], heap.Length) && Split(heap[..], cyclics[..], nelems) && Timed(cyclics[..])
    }

    ghost predicate Valid()
      reads this, heap, cyclics
    {
      && Sound() && Heap(heap[..], cyclics[..], nelems)
      && programmed == if nelems == 0 then None else Some(cyclics[heap[0]].expire)
    }

    /** Entry ndx, if it is earlier than its parent, moves up to its place; the result says whether it came to the
        root. */
    method Upheap(ndx: nat) returns (root: bool)
      requires Sound() && ndx < nelems && (Early(heap[..], cyclics[..], ndx) ==>
          UpTo(heap[..], cyclics[..], nelems, ndx))
      modifies heap
      ensures Sound() && heap[nelems..] == old(heap[nelems..])
      ensures heap[0] == old(heap[if root then ndx else 0]) && (ndx == 0 ==> root)
      ensures if old(Early(heap[..], cyclics[..], ndx)) then Heap(heap[..], cyclics[..], nelems) &&
          (ndx > 0 ==> heap[ndx] != old(heap[ndx]))
              else !root && heap[..] == old(heap[..])
    {
      hide UpTo, Heap, Permutes, Split, Timed, Key, Swap;
      if ndx == 0 {
        AtRoot(heap[..], cyclics[..], nelems);
        return true;
      }
      var current := ndx;
      while true
        invariant 0 < current <= ndx && Sound()
        invariant Early(heap[..], cyclics[..], current) || current != ndx ==>
            UpTo(heap[..], cyclics[..], nelems, current)
        invariant current != ndx ==> old(Early(heap[..], cyclics[..], ndx))
        invariant heap[current] == old(heap[ndx]) && heap[nelems..] == old(heap[nelems..]) && heap[0] == old(heap[0])
        invariant if current == ndx then heap[..] == old(heap[..]) else heap[ndx] != old(heap[ndx])
        decreases current
      {
        var parent := Parent(current);
        ghost var h := heap[..];
        Entry(h, cyclics[..], current);
        Entry(h, cyclics[..], parent);
        if cyclics[heap[current]].expire >= cyclics[heap[parent]].expire {
          if current != ndx {
            EarlierUp(h, cyclics[..], nelems, current);
          }
          return false;
        }
        SwapUp(h, cyclics[..], nelems, current);
        SwapActive(h, cyclics[..], nelems, current, parent);
        heap[current], heap[parent] := heap[parent], heap[current];
        assert heap[..] == Swap(h, current, parent);
        if parent == 0 {
          AtRoot(heap[..], cyclics[..], nelems);
          return true;
        }
        current := parent;
      }
    }

    /** Entry ndx moves down to its place. */
    method Downheap(ndx: nat)
      requires Sound() && ndx < nelems && DownTo(heap[..], cyclics[..], nelems, ndx)
      modifies heap
      ensures Sound() && Heap(heap[..], cyclics[..], nelems)
      ensures heap[nelems..] == old(heap[nelems..]) && (ndx > 0 ==> heap[0] == old(heap[0]))
    {
      hide DownTo, Heap, Permutes, Split, Timed, Key, Swap, Earlier, Left, Right;
      var me := ndx;
      while Left(me) < nelems
        invariant ndx <= me < nelems && Sound() && DownTo(heap[..], cyclics[..], nelems, me)
        invariant heap[nelems..] == old(heap[nelems..]) && (ndx > 0 ==> heap[0] == old(heap[0]))
        decreases nelems - me
      {
        ghost var h := heap[..];
        var child := Left(me);
        Entry(h, cyclics[..], me);
        Entry(h, cyclics[..], child);
        if Right(me) < nelems {
          Entry(h, cyclics[..], Right(me));
          if cyclics[heap[Right(me)]].expire < cyclics[heap[child]].expire {
            child := Right(me);
          }
        }
        EarlierOf(h, cyclics[..], nelems, me, child);
        if cyclics[heap[me]].expire <= cyclics[heap[child]].expire {
          EarlierDown(h, cyclics[..], nelems, me, child);
          return;
        }
        DescendOk(h, cyclics[..], nelems, me, child);
        SwapActive(h, cyclics[..], nelems, me, child);
        heap[me], heap[child] := heap[child], heap[me];
        assert heap[..] == Swap(h, me, child);
        me := child;
      }
      NoChildren(heap[..], cyclics[..], nelems, me);
    }

    /** The interrupt source fires at `now`: each cyclic that is due expires as often as it should, `calls` being the
        slots in the order they expire, and the backend is programmed for the next one. */
    method Fire(now: int) returns (calls: seq<nat>)
      requires Valid()
      modifies this`programmed, heap, cyclics
      ensures Valid() && Fired(old(cyclics[..]), cyclics[..], calls, now)
      ensures nelems > 0 ==> programmed.Some? && programmed.v > now
    {
      hide DownTo, Heap, Permutes, Split, Timed, Key, AllOnTheWay, Fired, Advance, Total;
      calls := [];
      AllStart(cyclics[..], now);
      if nelems == 0 {
        AllArrived(old(cyclics[..]), heap[..], cyclics[..], nelems, calls, now);
        return;
      }
      Entry(heap[..], cyclics[..], 0);
      while cyclics[heap[0]].expire <= now
        invariant Sound() && Heap(heap[..], cyclics[..], nelems) && heap[0] < cyclics.Length
        invariant AllOnTheWay(old(cyclics[..]), cyclics[..], calls, now)
        decreases Total(cyclics[..], now)
      {
        ghost var cs := cyclics[..];
        var ndx := heap[0];
        var c := cyclics[ndx];
        RootActive(heap[..], cs, nelems);
        calls := calls + [ndx];
        AllStep(old(cyclics[..]), cs, calls[..|calls| - 1], now, ndx);
        assert calls[..|calls| - 1] + [ndx] == calls;
        c := c.(expire := Advance(c.expire, c.interval, now));
        RootLater(heap[..], cs, nelems, c);
        cyclics[ndx] := c;
        assert cyclics[..] == cs[ndx := c];
        Downheap(0);
        Entry(heap[..], cyclics[..], 0);
      }
      Entry(heap[..], cyclics[..], 0);
      AllArrived(old(cyclics[..]), heap[..], cyclics[..], nelems, calls, now);
      programmed := Some(cyclics[heap[0]].expire);
    }

    /** A CPU with no cyclics. */
    constructor (size: nat)
      ensures Valid() && nelems == 0 && heap.Length == size && fresh(heap) && fresh(cyclics)
    {
      heap := new nat[size](i requires 0 <= i => i);
      cyclics := new Slot[size](_ => Slot(true, 0, 0, 0, 0, 0, 0, 0));
      nelems, programmed := 0, None;
    }

    /** A cyclic is added: it takes the first free slot, starts at `when` or, if that is 0, at the next interval
        boundary, and the backend is programmed for it if it is now the first to expire. */
    method Add(handler: int, arg: int, level: int, flags: int, when: int, interval: int, now: int) returns (ndx: nat)
      requires Valid() && nelems < heap.Length && interval > 0 && when >= 0 && now >= 0
      modifies this`nelems, this`programmed, heap, cyclics
      ensures Valid() && nelems == old(nelems) + 1 && ndx < cyclics.Length && old(cyclics[ndx].free)
      ensures cyclics[..] == old(cyclics[..])[ndx := Slot(false, handler, arg, level, flags, interval,
          cyclics[ndx].expire, 0)]
      ensures when != 0 ==> cyclics[ndx].expire == when
      ensures when == 0 ==> cyclics[ndx].expire % interval == 0 && now < cyclics[ndx].expire <= now + interval
    {
      hide UpTo, Heap, Permutes, Split, Timed, Key;
      var n := nelems;
      ghost var cs := cyclics[..];
      Entry(heap[..], cs, n);
      ndx := heap[n];
      NextBoundary(now, interval);
      var c := cyclics[ndx].(free := false, handler := handler, arg := arg, level := level, flags := flags,
          interval := interval,
                             expire := if when == 0 then (now / interval + 1) * interval else when);
      AddLast(heap[..], cs, n, c);
      FreePend(cs, ndx);
      cyclics[ndx] := c;
      assert cyclics[..] == cs[ndx := c];
      nelems := n + 1;
      ghost var h := heap[..];
      var root := Upheap(n);
      if !Early(h, cyclics[..], n) {
        EarlierUp(heap[..], cyclics[..], nelems, n);
      }
      Entry(heap[..], cyclics[..], 0);
      if root {
        programmed := Some(c.expire);
      }
    }

    /** A cyclic is removed, unless it has calls pending and the caller will not wait.  Its expiration time is returned;
        what was pending is returned for the caller to wait for. */
    method Remove(ndx: nat, wait: bool) returns (ok: bool, when: int, rpend: nat)
      requires Valid() && ndx < cyclics.Length && !cyclics[ndx].free
      modifies this`nelems, this`programmed, heap, cyclics
      ensures Valid() && ok == (wait || old(cyclics[ndx].pend) == 0) && when == old(cyclics[ndx].expire)
      ensures !ok ==>
          nelems == old(nelems) && heap[..] == old(heap[..]) && cyclics[..] == old(cyclics[..]) &&
          programmed == old(programmed) && rpend == 0
      ensures ok ==>
          nelems == old(nelems) - 1 && cyclics[..] ==
          old(cyclics[..])[ndx := old(cyclics[ndx]).(free := true, pend := 0)] && rpend == old(cyclics[ndx].pend)
    {
      hide UpTo, DownTo, Heap, Permutes, Split, Timed, Key, Swap, Early;
      when, rpend := cyclics[ndx].expire, 0;
      if cyclics[ndx].pend != 0 && !wait {
        return false, when, 0;
      }
      ok, rpend := true, cyclics[ndx].pend;
      ghost var h, cs, n := heap[..], cyclics[..], nelems;
      var i := Search(ndx);
      var c := cyclics[ndx].(free := true, pend := 0);
      FreeEntry(h, cs, n, i, c);
      cyclics[ndx] := c;
      assert cyclics[..] == cs[ndx := c];
      nelems := nelems - 1;
      if nelems == 0 {
        programmed := None;
      }
      if i == nelems {
        return;
      }
      var last := heap[nelems];
      heap[i], heap[nelems] := last, ndx;
      SwapIs(h, i, n - 1);
      assert heap[..] == Swap(h, i, n - 1);
      Resettle(i, last);
    }

    /** Where slot ndx is in the heap. */
    method Search(ndx: nat) returns (i: nat)
      requires Sound() && ndx < cyclics.Length && !cyclics[ndx].free
      ensures i < nelems && heap[i] == ndx
    {
      ghost var at := FindSlot(heap[..], cyclics[..], nelems, ndx);
      i := 0;
      while heap[i] != ndx
        invariant 0 <= i <= at
        decreases at - i
      {
        i := i + 1;
      }
    }

    /** Entry i, taken by what was the last one, finds its place; the backend is programmed if the root changed. */
    method Resettle(i: nat, last: nat)
      requires Sound() && i < nelems && heap[i] == last
      requires Early(heap[..], cyclics[..], i) && i > 0 ==> UpTo(heap[..], cyclics[..], nelems, i)
      requires !Early(heap[..], cyclics[..], i) || i == 0 ==> DownTo(heap[..], cyclics[..], nelems, i)
      requires i > 0 ==> programmed == Some(cyclics[heap[0]].expire)
      modifies this`programmed, heap
      ensures Valid() && heap[nelems..] == old(heap[nelems..])
    {
      hide UpTo, DownTo, Heap, Permutes, Split, Timed, Key;
      if i == 0 {
        Downheap(0);
      } else {
        var root := Upheap(i);
        if !root {
          if heap[i] == last {
            Downheap(i);
          }
          Entry(heap[..], cyclics[..], 0);
          return;
        }
      }
      Entry(heap[..], cyclics[..], 0);
      programmed := Some(cyclics[heap[0]].expire);
    }

    /** The heap and the slots double; the new slots are free. */
    method Expand()
      requires Valid()
      modifies this`heap, this`cyclics
      ensures Valid() && fresh(heap) && fresh(cyclics) && heap.Length == 2 * old(heap.Length) && nelems == old(nelems)
      ensures heap[..old(heap.Length)] == old(heap[..]) && cyclics[..old(heap.Length)] == old(cyclics[..])
      ensures forall j :: old(heap.Length) <= j < cyclics.Length ==> heap[j] == j && cyclics[j].free
    {
      hide Heap, Permutes, Split, Timed, Key;
      var size := heap.Length;
      var newHeap := new nat[2 * size](i requires 0 <= i => i);
      var newCyclics := new Slot[2 * size](_ => Slot(true, 0, 0, 0, 0, 0, 0, 0));
      var i := 0;
      while i < size
        modifies newHeap, newCyclics
        invariant 0 <= i <= size
        invariant forall j :: 0 <= j < 2 * size ==> newHeap[j] == if j < i then heap[j] else j
        invariant forall j :: 0 <= j < 2 * size ==>
            newCyclics[j] == if j < i then cyclics[j] else Slot(true, 0, 0, 0, 0, 0, 0, 0)
      {
        newHeap[i], newCyclics[i] := heap[i], cyclics[i];
        i := i + 1;
      }
      Doubled(heap[..], cyclics[..], nelems, newHeap[..], newCyclics[..]);
      assert newHeap[..size] == heap[..] && newCyclics[..size] == cyclics[..];
      heap, cyclics := newHeap, newCyclics;
    }
  }

  lemma Doubled(h: seq<nat>, cs: seq<Slot>, n: nat, h': seq<nat>, cs': seq<Slot>)
    requires Permutes(h, |cs|) && Split(h, cs, n) && Timed(cs) && n <= |h| && Heap(h, cs, n) &&
        |h'| == |cs'| == 2 * |cs|
    requires forall j :: 0 <= j < |h'| ==> h'[j] == if j < |h| then h[j] else j
    requires forall j :: 0 <= j < |cs'| ==> cs'[j] == if j < |cs| then cs[j] else Slot(true, 0, 0, 0, 0, 0, 0, 0)
    ensures Permutes(h', |cs'|) && Split(h', cs', n) && Timed(cs') && Heap(h', cs', n)
  {
    forall i | 0 <= i < n
      ensures Key(h', cs', i) == Key(h, cs, i) && Ordered(h, cs, i)
    {
    }
  }

  lemma SwapIs(h: seq<nat>, i: nat, j: nat)
    requires i < |h| && j < |h|
    ensures Swap(h, i, j) == h[i := h[j]][j := h[i]]
  {
  }

  lemma FreePend(cs: seq<Slot>, j: nat)
    requires Timed(cs) && j < |cs| && cs[j].free
    ensures cs[j].pend == 0
  {
  }

  /** The first interval boundary after now. */
  lemma NextBoundary(now: int, interval: int)
    requires now >= 0 && interval > 0
    ensures var exp := (now / interval + 1) * interval; exp % interval == 0 && now < exp <= now + interval && exp > 0
  {
    DivBounds(now, interval);
    ModShift(0, now / interval + 1, interval);
  }

  lemma RootActive(h: seq<nat>, cs: seq<Slot>, n: nat)
    requires Permutes(h, |cs|) && Split(h, cs, n) && Timed(cs) && 0 < n <= |h|
    ensures h[0] < |cs| && !cs[h[0]].free && cs[h[0]].interval > 0
  {
  }

  lemma DescendOk(h: seq<nat>, cs: seq<Slot>, n: nat, p: nat, c: nat)
    requires n <= |h| && p < n && DownTo(h, cs, n, p) && Earlier(h, cs, n, p, c) && Key(h, cs, c) < Key(h, cs, p)
    ensures DownTo(Swap(h, p, c), cs, n, c)
  {
    SwapDown(h, cs, n, p, c);
  }

  /** A cyclic moves from one CPU to another, if it has nothing pending: the destination has the same cyclic, due at the
      same time, and the source has it no more.  Nothing else changes on either CPU. */
  method JuggleTo(src: CycCpu, dest: CycCpu, ndx: nat, now: int) returns (ok: bool, ndx': nat)
    requires src != dest && src.heap != dest.heap && src.cyclics != dest.cyclics && src.Valid() && dest.Valid() &&
        dest.heap.Length > 0 && now >= 0
    requires ndx < src.cyclics.Length && !src.cyclics[ndx].free
    modifies src`nelems, src`programmed, src.heap, src.cyclics
    modifies dest`nelems, dest`programmed, dest`heap, dest`cyclics, dest.heap, dest.cyclics
    ensures src.Valid() && dest.Valid() && ok == (old(src.cyclics[ndx].pend) == 0)
    ensures var size := old(dest.cyclics.Length);
        dest.cyclics.Length == if old(dest.nelems) == size then 2 * size else size
    ensures !ok ==>
        src.cyclics[..] == old(src.cyclics[..]) && dest.cyclics[..old(dest.cyclics.Length)] == old(dest.cyclics[..]) &&
        dest.nelems == old(dest.nelems)
    ensures ok ==> && src.cyclics[..] == old(src.cyclics[..])[ndx := old(src.cyclics[ndx]).(free := true)]
                   && ndx' < dest.cyclics.Length && dest.cyclics[ndx'] == old(src.cyclics[ndx])
                   && (ndx' < old(dest.cyclics.Length) ==> old(dest.cyclics[ndx'].free))
                   && (forall j :: 0 <= j < old(dest.cyclics.Length) && j != ndx' ==>
                       dest.cyclics[j] == old(dest.cyclics[j]))
                   && src.nelems == old(src.nelems) - 1 && dest.nelems == old(dest.nelems) + 1
  {
    hide Heap, Permutes, Split, Timed, Key;
    var c := src.cyclics[ndx];
    Alive(src.cyclics[..], ndx);
    if dest.nelems == dest.heap.Length {
      dest.Expand();
    }
    var when, rpend;
    ok, when, rpend := src.Remove(ndx, false);
    ndx' := 0;
    if ok {
      ndx' := dest.Add(c.handler, c.arg, c.level, c.flags, when, c.interval, now);
    }
  }

  /** The recorded expiration time of an active cyclic is never 0, so adding it elsewhere never re-bases it. */
  lemma Alive(cs: seq<Slot>, j: nat)
    requires Timed(cs) && j < |cs| && !cs[j].free
    ensures cs[j].interval > 0 && cs[j].expire > 0
  {
  }
}
