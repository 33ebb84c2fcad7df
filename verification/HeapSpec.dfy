/** The cyclic heap as a value: a permutation of all slots, its first n entries a min-heap by expiration time. */
module HeapSpec {
  import opened Counting

  /** A slot of the cyclics array. */
  datatype Slot = Slot(free: bool, handler: int, arg: int, level: int, flags: int, interval: int, expire: int,
      pend: nat)

  function Parent(i: nat): nat
    requires i > 0
  {
    (i - 1) / 2
  }

  function Left(i: nat): nat { 2 * i + 1 }

  function Right(i: nat): nat { 2 * i + 2 }

  /** The heap is a permutation of all slots. */
  predicate Permutes(h: seq<nat>, size: nat) {
    |h| == size && NoDup(h) && forall i :: 0 <= i < |h| ==> h[i] < size
  }

  /** When the i-th entry of the heap expires. */
  function Key(h: seq<nat>, cs: seq<Slot>, i: nat): int
    requires i < |h|
  {
    if h[i] < |cs| then cs[h[i]].expire else 0
  }

  /** Entry i is no earlier than its parent. */
  predicate Ordered(h: seq<nat>, cs: seq<Slot>, i: nat)
    requires i < |h|
  {
    i > 0 ==> Key(h, cs, Parent(i)) <= Key(h, cs, i)
  }

  predicate Heap(h: seq<nat>, cs: seq<Slot>, n: nat)
    requires n <= |h|
  {
    forall i :: 0 <= i < n ==> Ordered(h, cs, i)
  }

  /** The children of entry p are no earlier than p's parent. */
  predicate Spans(h: seq<nat>, cs: seq<Slot>, n: nat, p: nat)
    requires n <= |h|
  {
    forall i :: 0 < i < n && Parent(i) == p && 0 < p < n ==> Key(h, cs, Parent(p)) <= Key(h, cs, i)
  }

  /** A heap but for entry p, which may be too early. */
  predicate UpTo(h: seq<nat>, cs: seq<Slot>, n: nat, p: nat)
    requires n <= |h|
  {
    (forall i :: 0 <= i < n && i != p ==> Ordered(h, cs, i)) && Spans(h, cs, n, p)
  }

  /** A heap but for entry p, which may be too late. */
  predicate DownTo(h: seq<nat>, cs: seq<Slot>, n: nat, p: nat)
    requires n <= |h|
  {
    (forall i :: 0 <= i < n && (i == 0 || Parent(i) != p) ==> Ordered(h, cs, i)) && Spans(h, cs, n, p)
  }

  function Swap(h: seq<nat>, i: nat, j: nat): (r: seq<nat>)
    requires i < |h| && j < |h|
    ensures |r| == |h|
  {
    h[i := h[j]][j := h[i]]
  }

  lemma SwapPermutes(h: seq<nat>, size: nat, i: nat, j: nat)
    requires Permutes(h, size) && i < |h| && j < |h|
    ensures Permutes(Swap(h, i, j), size)
  {
  }

  /** One step up: entry p changes places with its parent. */
  lemma SwapUp(h: seq<nat>, cs: seq<Slot>, n: nat, p: nat)
    requires n <= |h| && 0 < p < n && UpTo(h, cs, n, p) && Key(h, cs, p) < Key(h, cs, Parent(p))
    ensures UpTo(Swap(h, p, Parent(p)), cs, n, Parent(p))
  {
    var h', q := Swap(h, p, Parent(p)), Parent(p);
    forall i | 0 <= i < n
      ensures Key(h', cs, i) == Key(h, cs, if i == p then q else if i == q then p else i)
    {
    }
    forall i | 0 <= i < n && i != q
      ensures Ordered(h', cs, i)
    {
      if i > 0 {
        assert Ordered(h, cs, i) || i == p;
      }
    }
    forall i | 0 < i < n && Parent(i) == q && 0 < q < n
      ensures Key(h', cs, Parent(q)) <= Key(h', cs, i)
    {
      assert Ordered(h, cs, q) && (i == p || Ordered(h, cs, i));
    }
  }

  /** One step down: entry p changes places with its earlier child c. */
  lemma SwapDown(h: seq<nat>, cs: seq<Slot>, n: nat, p: nat, c: nat)
    requires n <= |h| && 0 < c < n && Parent(c) == p && DownTo(h, cs, n, p) && Key(h, cs, c) < Key(h, cs, p)
    requires forall i :: 0 < i < n && Parent(i) == p ==> Key(h, cs, c) <= Key(h, cs, i)
    ensures DownTo(Swap(h, p, c), cs, n, c)
  {
    var h' := Swap(h, p, c);
    forall i | 0 <= i < n
      ensures Key(h', cs, i) == Key(h, cs, if i == p then c else if i == c then p else i)
    {
    }
    forall i | 0 <= i < n && (i == 0 || Parent(i) != c)
      ensures Ordered(h', cs, i)
    {
      if i > 0 && Parent(i) != p && i != p {
        assert Ordered(h, cs, i);
      }
    }
    forall i | 0 < i < n && Parent(i) == c
      ensures Key(h', cs, Parent(c)) <= Key(h', cs, i)
    {
      assert Ordered(h, cs, i);
    }
  }

  /** Nothing is out of place. */
  lemma UpDone(h: seq<nat>, cs: seq<Slot>, n: nat, p: nat)
    requires n <= |h| && p < n && UpTo(h, cs, n, p) && Ordered(h, cs, p)
    ensures Heap(h, cs, n)
  {
  }

  lemma DownDone(h: seq<nat>, cs: seq<Slot>, n: nat, p: nat)
    requires n <= |h| && DownTo(h, cs, n, p) &&
        (forall i :: 0 < i < n && Parent(i) == p ==> Key(h, cs, p) <= Key(h, cs, i))
    ensures Heap(h, cs, n)
  {
    forall i | 0 <= i < n
      ensures Ordered(h, cs, i)
    {
    }
  }

  /** The root of a heap expires first. */
  lemma {:induction false} RootFirst(h: seq<nat>, cs: seq<Slot>, n: nat, i: nat)
    requires n <= |h| && Heap(h, cs, n) && i < n
    ensures Key(h, cs, 0) <= Key(h, cs, i)
    decreases i
  {
    if i > 0 {
      assert Ordered(h, cs, i);
      RootFirst(h, cs, n, Parent(i));
    }
  }

  /** The last entry of a heap takes the place of entry p: a heap, but for p. */
  lemma ReplacedSpans(h: seq<nat>, cs: seq<Slot>, n: nat, p: nat)
    requires n < |h| && p < n && Heap(h, cs, n + 1)
    ensures forall i :: 0 <= i < n && i != p ==> Key(Swap(h, p, n), cs, i) == Key(h, cs, i) && Ordered(h, cs, i)
    ensures Spans(Swap(h, p, n), cs, n, p)
  {
    var h' := Swap(h, p, n);
    forall i | 0 <= i < n && i != p
      ensures Key(h', cs, i) == Key(h, cs, i) && Ordered(h, cs, i)
    {
    }
    forall i | 0 < i < n && Parent(i) == p && 0 < p < n
      ensures Key(h', cs, Parent(p)) <= Key(h', cs, i)
    {
      assert Ordered(h, cs, i) && Ordered(h, cs, p);
    }
  }

  lemma ReplacedUp(h: seq<nat>, cs: seq<Slot>, n: nat, p: nat)
    requires n < |h| && 0 < p < n && Heap(h, cs, n + 1) && Key(Swap(h, p, n), cs, p) < Key(Swap(h, p, n), cs, Parent(p))
    ensures UpTo(Swap(h, p, n), cs, n, p)
  {
    var h' := Swap(h, p, n);
    ReplacedSpans(h, cs, n, p);
    forall i | 0 <= i < n && i != p
      ensures Ordered(h', cs, i)
    {
      assert Ordered(h, cs, i) && Ordered(h, cs, p);
      assert i > 0 && Parent(i) != p ==> Key(h', cs, Parent(i)) == Key(h, cs, Parent(i));
    }
  }

  lemma ReplacedDown(h: seq<nat>, cs: seq<Slot>, n: nat, p: nat)
    requires n < |h| && p < n && Heap(h, cs, n + 1) &&
        (p > 0 ==> Key(Swap(h, p, n), cs, Parent(p)) <= Key(Swap(h, p, n), cs, p))
    ensures DownTo(Swap(h, p, n), cs, n, p)
  {
    var h' := Swap(h, p, n);
    ReplacedSpans(h, cs, n, p);
    forall i | 0 <= i < n && (i == 0 || Parent(i) != p)
      ensures Ordered(h', cs, i)
    {
      assert i > 0 && i != p ==> Key(h', cs, Parent(i)) == Key(h, cs, Parent(i));
    }
  }
}
