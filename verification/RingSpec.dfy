/**
 The trace ring buffer as a value, in four-byte words.

 A buffer holds records, each starting with its enabled probe identifier (EPID), and padding words (EPIDNONE, 0).
 The size of a record follows from its EPID.  A reservation may be committed or abandoned; when the buffer has
 wrapped, `woffs` is where the oldest record starts.
 */
module RingSpec {
  import opened Options

  datatype Buf = Buf(t: seq<nat>, offset: nat, woffs: nat, wrapped: bool)

  /** The size of the record or padding word at w: EPID e has size ecbs[e - 1]. */
  function SizeAt(ecbs: seq<nat>, t: seq<nat>, w: nat): nat
    requires w < |t|
  {
    if t[w] == 0 then 1 else if t[w] <= |ecbs| then ecbs[t[w] - 1] else 0
  }

  /** Words a to b are whole records and padding. */
  predicate Whole(ecbs: seq<nat>, t: seq<nat>, a: nat, b: nat)
    requires b <= |t|
    decreases b - a
  {
    a == b || (a < b && SizeAt(ecbs, t, a) > 0 && a + SizeAt(ecbs, t, a) <= b &&
        Whole(ecbs, t, a + SizeAt(ecbs, t, a), b))
  }

  /** The records among words a to b, as the consumer decodes them. */
  function Records(ecbs: seq<nat>, t: seq<nat>, a: nat, b: nat): seq<seq<nat>>
    requires b <= |t|
    decreases b - a
  {
    if a >= b then []
    else
      var n := SizeAt(ecbs, t, a);
      if n == 0 || a + n > b then []
      else (if t[a] == 0 then [] else [t[a..a + n]]) + Records(ecbs, t, a + n, b)
  }

  predicate Zero(t: seq<nat>, a: nat, b: nat)
    requires b <= |t|
  {
    forall i :: a <= i < b ==> t[i] == 0
  }

  function Zeroed(t: seq<nat>, a: nat, b: nat): (r: seq<nat>)
    requires a <= b <= |t|
    ensures |r| == |t| && Zero(r, a, b) && r[..a] == t[..a] && r[b..] == t[b..]
  {
    t[..a] + seq(b - a, _ => 0) + t[b..]
  }

  datatype Stop = Reached(w: nat) | End

  /** The overwrite walk: record by record from w until target is cleared, or the end of the buffer is reached. */
  function Walk(ecbs: seq<nat>, t: seq<nat>, w: nat, target: nat): Stop
    decreases |t| - w
  {
    if target <= w then Reached(w)
    else if w >= |t| || SizeAt(ecbs, t, w) == 0 || w + SizeAt(ecbs, t, w) >= |t| then End
    else Walk(ecbs, t, w + SizeAt(ecbs, t, w), target)
  }

  function Padded(offs: nat, align: nat): nat
    requires align > 0
  {
    if offs % align == 0 then offs else offs + (align - offs % align)
  }

  /** dtrace_buffer_reserve on a ring buffer: the buffer afterwards and the offset reserved, or a drop. */
  function Reserve(ecbs: seq<nat>, b: Buf, needed: nat, align: nat): Option<(Buf, nat)>
    requires b.offset <= |b.t| && (align == 1 || align == 2) && |b.t| % 2 == 0
  {
    var offs, size := b.offset, |b.t|;
    var total := needed + offs % align;
    if offs + total > size then
      if total > size then None
      else
        var t := Zeroed(b.t, offs, size);
        match Walk(ecbs, t, if b.wrapped && b.woffs < offs then b.woffs else 0, needed)
        case Reached(w) => Some((Buf(t, offs, w, true), 0))
        case End => Some((Buf(Zeroed(t, needed, size), 0, 0, false), 0))
    else
      var padded := Padded(offs, align);
      if !b.wrapped || b.woffs < offs then Some((b.(t := Zeroed(b.t, offs, padded)), padded))
      else
        match Walk(ecbs, b.t, b.woffs, offs + total)
        case Reached(w) => Some((b.(t := Zeroed(b.t, offs, padded), woffs := w), padded))
        case End =>
          if offs == 0 then Some((Buf(Zeroed(b.t, total, size), 0, 0, false), 0))
          else Some((b.(t := Zeroed(b.t, offs, padded), woffs := 0), padded))
  }

  /** What the probe writes goes to the reserved words. */
  function Stored(t: seq<nat>, offs: nat, ws: seq<nat>): (r: seq<nat>)
    requires offs + |ws| <= |t|
    ensures |r| == |t| && r[..offs] == t[..offs] && r[offs..offs + |ws|] == ws && r[offs + |ws|..] == t[offs + |ws|..]
  {
    t[..offs] + ws + t[offs + |ws|..]
  }

  /** dtrace_buffer_polish: the words between the newest and the oldest record are cleared. */
  function Polished(b: Buf): Buf
    requires b.offset <= |b.t| && b.woffs <= |b.t|
  {
    if !b.wrapped then b
    else if b.offset < b.woffs then b.(t := Zeroed(b.t, b.offset, b.woffs))
    else if b.offset > b.woffs then b.(t := Zeroed(Zeroed(b.t, b.offset, |b.t|), 0, b.woffs))
    else b
  }

  /** What the consumer sees: from the oldest record to the end, then from the start to the oldest record. */
  function Consumed(ecbs: seq<nat>, b: Buf): seq<seq<nat>>
    requires b.offset <= |b.t| && b.woffs <= |b.t|
  {
    if !b.wrapped then Records(ecbs, b.t, 0, b.offset)
    else Records(ecbs, b.t, b.woffs, |b.t|) + Records(ecbs, b.t, 0, b.woffs)
  }

  // ---------------------------------------------------------------- invariant

  /** The buffer holds the records q, oldest first. */
  predicate Holds(ecbs: seq<nat>, b: Buf, q: seq<seq<nat>>) {
    && b.offset <= |b.t| && b.woffs <= |b.t|
    && (!b.wrapped ==> b.woffs == 0 && Whole(ecbs, b.t, 0, b.offset) && q == Records(ecbs, b.t, 0, b.offset))
    && (b.wrapped && b.offset <= b.woffs ==>
          && Whole(ecbs, b.t, 0, b.offset) && Whole(ecbs, b.t, b.woffs, |b.t|)
          && q == Records(ecbs, b.t, b.woffs, |b.t|) + Records(ecbs, b.t, 0, b.offset))
    && (b.wrapped && b.woffs < b.offset ==>
        Whole(ecbs, b.t, b.woffs, b.offset) && q == Records(ecbs, b.t, b.woffs, b.offset))
  }

  /** After a reservation: the words offs to offs + needed may be overwritten, and the buffer holds q beside them. */
  predicate Reserved(ecbs: seq<nat>, b: Buf, offs: nat, needed: nat, q: seq<seq<nat>>) {
    && b.offset <= |b.t| && b.woffs <= |b.t| && offs + needed <= |b.t|
    && if b.offset <= offs then
         && Holds(ecbs, b, q) && Zero(b.t, b.offset, offs)
         && (b.wrapped && b.offset <= b.woffs ==> offs + needed <= b.woffs)
       else
         // the reservation has wrapped to the top
         && offs == 0 && b.wrapped && needed <= b.woffs
         && Whole(ecbs, b.t, b.woffs, |b.t|) && q == Records(ecbs, b.t, b.woffs, |b.t|)
         && (b.woffs < b.offset ==> Holds(ecbs, b, q))
  }

  // ---------------------------------------------------------------- decoding

  lemma {:induction false} Same(ecbs: seq<nat>, t: seq<nat>, t': seq<nat>, a: nat, b: nat)
    requires a <= b <= |t| && b <= |t'| && (forall i :: a <= i < b ==> t'[i] == t[i])
    ensures Whole(ecbs, t', a, b) == Whole(ecbs, t, a, b) && Records(ecbs, t', a, b) == Records(ecbs, t, a, b)
    decreases b - a
  {
    if a < b {
      var n := SizeAt(ecbs, t, a);
      if n > 0 && a + n <= b {
        Same(ecbs, t, t', a + n, b);
        assert t'[a..a + n] == t[a..a + n];
      }
    }
  }

  lemma {:induction false} Joined(ecbs: seq<nat>, t: seq<nat>, a: nat, b: nat, c: nat)
    requires a <= b <= c <= |t| && Whole(ecbs, t, a, b) && Whole(ecbs, t, b, c)
    ensures Whole(ecbs, t, a, c) && Records(ecbs, t, a, c) == Records(ecbs, t, a, b) + Records(ecbs, t, b, c)
    decreases b - a
  {
    if a < b {
      var n := SizeAt(ecbs, t, a);
      Joined(ecbs, t, a + n, b, c);
      var head := if t[a] == 0 then [] else [t[a..a + n]];
      assert Records(ecbs, t, a, b) == head + Records(ecbs, t, a + n, b);
      assert Records(ecbs, t, a, c) == head + Records(ecbs, t, a + n, c);
      assert head + Records(ecbs, t, a + n, b) + Records(ecbs, t, b, c) == head +
          (Records(ecbs, t, a + n, b) + Records(ecbs, t, b, c));
    }
  }

  lemma {:induction false} Blank(ecbs: seq<nat>, t: seq<nat>, a: nat, b: nat)
    requires a <= b <= |t| && Zero(t, a, b)
    ensures Whole(ecbs, t, a, b) && Records(ecbs, t, a, b) == []
    decreases b - a
  {
    if a < b {
      Blank(ecbs, t, a + 1, b);
    }
  }

  lemma One(ecbs: seq<nat>, t: seq<nat>, a: nat, n: nat)
    requires n > 0 && a + n <= |t| && t[a] != 0 && SizeAt(ecbs, t, a) == n
    ensures Whole(ecbs, t, a, a + n) && Records(ecbs, t, a, a + n) == [t[a..a + n]]
  {
    assert Whole(ecbs, t, a + n, a + n) && Records(ecbs, t, a + n, a + n) == [];
  }

  /** q' is what is left of q after dropping the oldest records. */
  predicate Suffix(q': seq<seq<nat>>, q: seq<seq<nat>>) {
    |q'| <= |q| && q[|q| - |q'|..] == q'
  }

  // ---------------------------------------------------------------- the overwrite walk

  /** The walk lands on a record boundary, drops only records that start below the target, and stops there. */
  lemma {:induction false} WalkLands(ecbs: seq<nat>, t: seq<nat>, w: nat, mid: nat, target: nat)
    requires w <= mid <= |t| && Whole(ecbs, t, w, mid) && Zero(t, mid, |t|)
    ensures var r := Walk(ecbs, t, w, target);
            match r
            case Reached(w') => w <= w' <= |t| && target <= w' && (w' <= mid ==> Whole(ecbs, t, w', mid)) &&
                Whole(ecbs, t, w', |t|)
                                && Suffix(Records(ecbs, t, w', |t|), Records(ecbs, t, w, |t|))
                                && (w' <= mid ==> Records(ecbs, t, w', |t|) == Records(ecbs, t, w', mid))
            case End => target > w
    decreases |t| - w
  {
    Blank(ecbs, t, mid, |t|);
    Joined(ecbs, t, w, mid, |t|);
    if w < target && w < |t| {
      var n := SizeAt(ecbs, t, w);
      if w + n < |t| {
        if w < mid {
          WalkLands(ecbs, t, w + n, mid, target);
        } else {
          Blank(ecbs, t, w + n, |t|);
          WalkLands(ecbs, t, w + n, w + n, target);
        }
      }
    }
  }

  // ---------------------------------------------------------------- reservations

  /** The records a buffer with a reservation at offs holds. */
  function Left(ecbs: seq<nat>, b: Buf, offs: nat): seq<seq<nat>>
    requires b.offset <= |b.t| && b.woffs <= |b.t|
  {
    if offs < b.offset then Records(ecbs, b.t, b.woffs, |b.t|)
    else if !b.wrapped then Records(ecbs, b.t, 0, b.offset)
    else if b.offset <= b.woffs then Records(ecbs, b.t, b.woffs, |b.t|) + Records(ecbs, b.t, 0, b.offset)
    else Records(ecbs, b.t, b.woffs, b.offset)
  }

  /** The reservation at offs is good: it left the newest of the records q. */
  predicate Good(ecbs: seq<nat>, b: Buf, b': Buf, offs: nat, needed: nat, q: seq<seq<nat>>) {
    && |b'.t| == |b.t| && b'.offset <= |b.t| && b'.woffs <= |b.t|
    && Reserved(ecbs, b', offs, needed, Left(ecbs, b', offs)) && Suffix(Left(ecbs, b', offs), q)
  }

  /** Where a wrapping reservation starts to overwrite. */
  function Oldest(b: Buf): nat {
    if b.wrapped && b.woffs < b.offset then b.woffs else 0
  }

  /** A reservation that wraps: only the oldest records go. */
  lemma WrapReached(ecbs: seq<nat>, b: Buf, needed: nat, q: seq<seq<nat>>)
    requires Holds(ecbs, b, q) && b.offset > 0 && needed <= |b.t|
    requires Walk(ecbs, Zeroed(b.t, b.offset, |b.t|), Oldest(b), needed).Reached?
    ensures var t := Zeroed(b.t, b.offset, |b.t|);
            Good(ecbs, b, Buf(t, b.offset, Walk(ecbs, t, Oldest(b), needed).w, true), 0, needed, q)
  {
    hide Walk, Records, Whole, Suffix;
    var offs, size, w0 := b.offset, |b.t|, Oldest(b);
    var t := Zeroed(b.t, offs, size);
    Same(ecbs, b.t, t, w0, offs);
    Blank(ecbs, t, offs, size);
    Joined(ecbs, t, w0, offs, size);
    WalkLands(ecbs, t, w0, offs, needed);
    OldestSuffix(ecbs, b, q);
    SuffixTail(Records(ecbs, t, Walk(ecbs, t, w0, needed).w, size), Records(ecbs, t, w0, size), q);
  }

  lemma OldestSuffix(ecbs: seq<nat>, b: Buf, q: seq<seq<nat>>)
    requires Holds(ecbs, b, q)
    ensures Suffix(Records(ecbs, b.t, Oldest(b), b.offset), q)
  {
    hide Records, Whole;
  }

  /** Everything old is gone, and the buffer is as if it had never wrapped. */
  lemma Emptied(ecbs: seq<nat>, b: Buf, t: seq<nat>, needed: nat, q: seq<seq<nat>>)
    requires |t| == |b.t| && needed <= |t|
    ensures Good(ecbs, b, Buf(t, 0, 0, false), 0, needed, q)
  {
    EmptyBuf(ecbs, t);
  }

  lemma EmptyBuf(ecbs: seq<nat>, t: seq<nat>)
    ensures Whole(ecbs, t, 0, 0) && Records(ecbs, t, 0, 0) == []
  {
  }

  lemma SuffixSelf(q: seq<seq<nat>>)
    ensures Suffix(q, q)
  {
  }

  lemma SuffixTail(r: seq<seq<nat>>, p: seq<seq<nat>>, q: seq<seq<nat>>)
    requires Suffix(r, p) && Suffix(p, q)
    ensures Suffix(r, q)
  {
    assert q[|q| - |r|..] == q[|q| - |p|..][|p| - |r|..];
  }

  /** A reservation that fits at the end and has nothing to overwrite. */
  lemma FitOk(ecbs: seq<nat>, b: Buf, padded: nat, needed: nat, q: seq<seq<nat>>)
    requires Holds(ecbs, b, q) && b.offset <= padded && padded + needed <= |b.t| && (!b.wrapped || b.woffs < b.offset)
    ensures Good(ecbs, b, b.(t := Zeroed(b.t, b.offset, padded)), padded, needed, q)
  {
    hide Records, Whole;
    Same(ecbs, b.t, Zeroed(b.t, b.offset, padded), b.woffs, b.offset);
  }

  /** A reservation that fits below the oldest record, once enough of those are dropped. */
  lemma OverwriteReached(ecbs: seq<nat>, b: Buf, padded: nat, needed: nat, q: seq<seq<nat>>)
    requires Holds(ecbs, b, q) && b.offset <= padded && padded + needed <= |b.t| && b.wrapped && b.offset <= b.woffs
    requires Walk(ecbs, b.t, b.woffs, padded + needed).Reached?
    ensures Good(ecbs, b, b.(t := Zeroed(b.t, b.offset, padded), woffs := Walk(ecbs, b.t, b.woffs, padded + needed).w),
        padded, needed, q)
  {
    hide Walk, Records, Whole, Suffix;
    var offs, size, w := b.offset, |b.t|, Walk(ecbs, b.t, b.woffs, padded + needed).w;
    var t := Zeroed(b.t, offs, padded);
    WalkLands(ecbs, b.t, b.woffs, size, padded + needed);
    Same(ecbs, b.t, t, 0, offs);
    Same(ecbs, b.t, t, w, size);
    SuffixBoth(Records(ecbs, b.t, w, size), Records(ecbs, b.t, b.woffs, size), Records(ecbs, b.t, 0, offs));
  }

  /** All that followed the newest record is gone: the oldest record left is the one at the top. */
  lemma OverwriteEnd(ecbs: seq<nat>, b: Buf, padded: nat, needed: nat, q: seq<seq<nat>>)
    requires Holds(ecbs, b, q) && 0 < b.offset <= padded && padded + needed <= |b.t| && b.wrapped && b.offset <= b.woffs
    ensures Good(ecbs, b, b.(t := Zeroed(b.t, b.offset, padded), woffs := 0), padded, needed, q)
  {
    hide Records, Whole;
    Same(ecbs, b.t, Zeroed(b.t, b.offset, padded), 0, b.offset);
  }

  lemma SuffixBoth(r: seq<seq<nat>>, p: seq<seq<nat>>, q: seq<seq<nat>>)
    requires Suffix(r, p)
    ensures Suffix(r + q, p + q)
  {
    assert (p + q)[|p + q| - |r + q|..] == p[|p| - |r|..] + q;
  }

  lemma PadFacts(offs: nat, align: nat, needed: nat, size: nat)
    requires (align == 1 || align == 2) && size % 2 == 0 && offs <= size
    ensures offs <= Padded(offs, align) <= size && Padded(offs, align) + needed == offs + needed + offs % align
  {
  }

  lemma NoPadding(t: seq<nat>, align: nat)
    requires align > 0
    ensures Padded(0, align) == 0 && Zeroed(t, 0, 0) == t
  {
  }

  lemma WrapOk(ecbs: seq<nat>, b: Buf, needed: nat, align: nat, q: seq<seq<nat>>)
    requires Holds(ecbs, b, q) && (align == 1 || align == 2) && |b.t| % 2 == 0
    requires b.offset + needed + b.offset % align > |b.t| && needed + b.offset % align <= |b.t|
    ensures Reserve(ecbs, b, needed, align).Some?
    ensures var (b', offs) := Reserve(ecbs, b, needed, align).v; Good(ecbs, b, b', offs, needed, q)
  {
    hide Walk, Good, Records, Whole, Padded;
    var t := Zeroed(b.t, b.offset, |b.t|);
    if Walk(ecbs, t, Oldest(b), needed).Reached? {
      WrapReached(ecbs, b, needed, q);
    } else {
      Emptied(ecbs, b, Zeroed(t, needed, |b.t|), needed, q);
    }
  }

  lemma PlaceOk(ecbs: seq<nat>, b: Buf, needed: nat, align: nat, q: seq<seq<nat>>)
    requires Holds(ecbs, b, q) && (align == 1 || align == 2) && |b.t| % 2 == 0 &&
        b.offset + needed + b.offset % align <= |b.t|
    requires !b.wrapped || b.woffs < b.offset
    ensures Reserve(ecbs, b, needed, align).Some?
    ensures var (b', offs) := Reserve(ecbs, b, needed, align).v; Good(ecbs, b, b', offs, needed, q)
  {
    hide Walk, Good, Records, Whole, Padded, Zeroed, Holds;
    PadFacts(b.offset, align, needed, |b.t|);
    FitOk(ecbs, b, Padded(b.offset, align), needed, q);
  }

  lemma OverwriteOk(ecbs: seq<nat>, b: Buf, needed: nat, align: nat, q: seq<seq<nat>>)
    requires Holds(ecbs, b, q) && (align == 1 || align == 2) && |b.t| % 2 == 0 &&
        b.offset + needed + b.offset % align <= |b.t|
    requires b.wrapped && b.offset <= b.woffs
    ensures Reserve(ecbs, b, needed, align).Some?
    ensures var (b', offs) := Reserve(ecbs, b, needed, align).v; Good(ecbs, b, b', offs, needed, q)
  {
    hide Walk, Good, Records, Whole, Padded, Zeroed, Holds;
    var offs, size := b.offset, |b.t|;
    var total, padded := needed + offs % align, Padded(offs, align);
    PadFacts(offs, align, needed, size);
    if Walk(ecbs, b.t, b.woffs, offs + total).Reached? {
      OverwriteReached(ecbs, b, padded, needed, q);
    } else if offs == 0 {
      Emptied(ecbs, b, Zeroed(b.t, total, size), needed, q);
    } else {
      OverwriteEnd(ecbs, b, padded, needed, q);
    }
  }

  /** Every reservation either is dropped, because it could never fit, or clears its words by dropping only the oldest
      records. */
  lemma ReserveOk(ecbs: seq<nat>, b: Buf, needed: nat, align: nat, q: seq<seq<nat>>)
    requires Holds(ecbs, b, q) && (align == 1 || align == 2) && |b.t| % 2 == 0
    ensures Reserve(ecbs, b, needed, align).None? <==> needed + b.offset % align > |b.t|
    ensures Reserve(ecbs, b, needed, align).Some? ==>
              var (b', offs) := Reserve(ecbs, b, needed, align).v; Good(ecbs, b, b', offs, needed, q)
  {
    hide Walk, Good, Records, Whole, Padded;
    if b.offset + needed + b.offset % align > |b.t| {
      if needed + b.offset % align <= |b.t| {
        WrapOk(ecbs, b, needed, align, q);
      }
    } else if !b.wrapped || b.woffs < b.offset {
      PlaceOk(ecbs, b, needed, align, q);
    } else {
      OverwriteOk(ecbs, b, needed, align, q);
    }
  }

  // ---------------------------------------------------------------- only what is in the way is dropped

  /** The walk stops at the first record boundary that clears the target. */
  lemma {:induction false} WalkLeast(ecbs: seq<nat>, t: seq<nat>, w: nat, target: nat, x: nat)
    requires w <= x < |t| && Whole(ecbs, t, w, x) && target <= x
    ensures Walk(ecbs, t, w, target).Reached?
    ensures var w' := Walk(ecbs, t, w, target).w; w <= w' <= x && Whole(ecbs, t, w', x)
    decreases |t| - w
  {
    if w < target {
      WalkLeast(ecbs, t, w + SizeAt(ecbs, t, w), target, x);
    }
  }

  lemma SuffixOf(p: seq<seq<nat>>, r: seq<seq<nat>>)
    ensures Suffix(r, p + r)
  {
    assert (p + r)[|p|..] == r;
  }

  /** A reservation that stays below every record drops none. */
  lemma NothingDropped(ecbs: seq<nat>, b: Buf, needed: nat, align: nat, q: seq<seq<nat>>)
    requires Holds(ecbs, b, q) && (align == 1 || align == 2) && |b.t| % 2 == 0 &&
        b.offset + needed + b.offset % align <= |b.t|
    requires !b.wrapped || b.woffs < b.offset || b.offset + needed + b.offset % align <= b.woffs
    ensures var (b', offs) := Reserve(ecbs, b, needed, align).v;
        b'.offset <= |b'.t| && b'.woffs <= |b'.t| && Left(ecbs, b', offs) == q
  {
    hide Records, Whole, Walk;
    var padded := Padded(b.offset, align);
    var t := Zeroed(b.t, b.offset, padded);
    PadFacts(b.offset, align, needed, |b.t|);
    if b.wrapped && b.offset <= b.woffs {
      WalkStays(ecbs, b.t, b.woffs, padded + needed);
      Same(ecbs, b.t, t, 0, b.offset);
      Same(ecbs, b.t, t, b.woffs, |b.t|);
    } else {
      Same(ecbs, b.t, t, b.woffs, b.offset);
    }
  }

  /** Below the oldest record: every record that starts behind the reservation is kept. */
  lemma OverwriteKeeps(ecbs: seq<nat>, b: Buf, needed: nat, align: nat, q: seq<seq<nat>>, x: nat)
    requires Holds(ecbs, b, q) && (align == 1 || align == 2) && |b.t| % 2 == 0
    requires b.wrapped && b.offset <= b.woffs <= x < |b.t| && Whole(ecbs, b.t, b.woffs, x) &&
        b.offset + needed + b.offset % align <= x
    ensures var (b', offs) := Reserve(ecbs, b, needed, align).v;
            && b'.offset <= |b'.t| && b'.woffs <= |b'.t|
            && Suffix(Records(ecbs, b.t, x, |b.t|) + Records(ecbs, b.t, 0, b.offset), Left(ecbs, b', offs))
  {
    hide Records, Whole, Walk, Suffix, Padded, Zeroed;
    var padded := Padded(b.offset, align);
    PadFacts(b.offset, align, needed, |b.t|);
    WalkLeast(ecbs, b.t, b.woffs, padded + needed, x);
    WalkStops(ecbs, b.t, b.woffs, padded + needed);
    RestWhole(ecbs, b.t, b.woffs, x, |b.t|);
    StillRead(ecbs, b, padded, Walk(ecbs, b.t, b.woffs, padded + needed).w, x);
  }

  lemma {:induction false} WalkStops(ecbs: seq<nat>, t: seq<nat>, w: nat, target: nat)
    ensures Walk(ecbs, t, w, target).Reached? ==> target <= Walk(ecbs, t, w, target).w
    decreases |t| - w
  {
    if w < target && w < |t| && SizeAt(ecbs, t, w) > 0 {
      WalkStops(ecbs, t, w + SizeAt(ecbs, t, w), target);
    }
  }

  lemma StillRead(ecbs: seq<nat>, b: Buf, padded: nat, w: nat, x: nat)
    requires b.offset <= padded <= w <= x <= |b.t| && Whole(ecbs, b.t, w, x) && Whole(ecbs, b.t, x, |b.t|)
    ensures var t := Zeroed(b.t, b.offset, padded);
            Suffix(Records(ecbs, b.t, x, |b.t|) + Records(ecbs, b.t, 0, b.offset),
                Records(ecbs, t, w, |t|) + Records(ecbs, t, 0, b.offset))
  {
    hide Records, Whole, Suffix;
    var offs, size, t := b.offset, |b.t|, Zeroed(b.t, b.offset, padded);
    Joined(ecbs, b.t, w, x, size);
    Same(ecbs, b.t, t, 0, offs);
    Same(ecbs, b.t, t, w, size);
    SuffixOf(Records(ecbs, b.t, w, x), Records(ecbs, b.t, x, size));
    SuffixBoth(Records(ecbs, b.t, x, size), Records(ecbs, b.t, w, size), Records(ecbs, b.t, 0, offs));
  }

  lemma {:induction false} RestWhole(ecbs: seq<nat>, t: seq<nat>, a: nat, x: nat, b: nat)
    requires a <= x <= b <= |t| && Whole(ecbs, t, a, x) && Whole(ecbs, t, a, b)
    ensures Whole(ecbs, t, x, b)
    decreases b - a
  {
    if a < x {
      RestWhole(ecbs, t, a + SizeAt(ecbs, t, a), x, b);
    }
  }

  /** A reservation that wraps: every record that starts behind it is kept. */
  lemma WrapKeeps(ecbs: seq<nat>, b: Buf, needed: nat, align: nat, q: seq<seq<nat>>, x: nat)
    requires Holds(ecbs, b, q) && (align == 1 || align == 2) && |b.t| % 2 == 0
    requires b.offset + needed + b.offset % align > |b.t| >= needed + b.offset % align
    requires Oldest(b) <= x <= b.offset && x < |b.t| && Whole(ecbs, b.t, Oldest(b), x) && needed <= x
    ensures var (b', offs) := Reserve(ecbs, b, needed, align).v;
            b'.offset <= |b'.t| && b'.woffs <= |b'.t| && Suffix(Records(ecbs, b.t, x, b.offset), Left(ecbs, b', offs))
  {
    hide Records, Whole, Walk;
    var offs, size, t := b.offset, |b.t|, Zeroed(b.t, b.offset, |b.t|);
    Same(ecbs, b.t, t, Oldest(b), x);
    WalkLeast(ecbs, t, Oldest(b), needed, x);
    var w := Walk(ecbs, t, Oldest(b), needed).w;
    RestWhole(ecbs, b.t, Oldest(b), x, offs);
    Same(ecbs, b.t, t, x, offs);
    Joined(ecbs, t, w, x, offs);
    Blank(ecbs, t, offs, size);
    Joined(ecbs, t, w, offs, size);
    SuffixOf(Records(ecbs, t, w, x), Records(ecbs, t, x, offs));
    assert Records(ecbs, t, w, size) == Records(ecbs, t, w, offs);
  }

  // ---------------------------------------------------------------- commit and abandon

  /** The buffer after the probe wrote ws and committed the first n words of it. */
  function Commit(b: Buf, offs: nat, ws: seq<nat>, n: nat): Buf
    requires offs + |ws| <= |b.t|
  {
    b.(t := Stored(b.t, offs, ws), offset := offs + n)
  }

  /** The buffer after the probe wrote ws and gave up. */
  function Abandon(b: Buf, offs: nat, ws: seq<nat>): Buf
    requires offs + |ws| <= |b.t|
  {
    b.(t := Stored(b.t, offs, ws))
  }

  /** The words ws start with a record of n words. */
  predicate StartsWith(ecbs: seq<nat>, ws: seq<nat>, n: nat) {
    0 < n <= |ws| && 0 < ws[0] <= |ecbs| && ecbs[ws[0] - 1] == n
  }

  /** The words from a to the reservation, and the new record. */
  lemma Appended(ecbs: seq<nat>, b: Buf, offs: nat, ws: seq<nat>, n: nat, a: nat)
    requires a <= b.offset <= offs && offs + |ws| <= |b.t| && Whole(ecbs, b.t, a, b.offset) && Zero(b.t, b.offset, offs)
    requires n == 0 || StartsWith(ecbs, ws, n)
    ensures var t := Stored(b.t, offs, ws);
            Whole(ecbs, t, a, offs + n) && Records(ecbs, t, a, offs + n) == Records(ecbs, b.t, a, b.offset) + if n ==
                0 then [] else [ws[..n]]
  {
    hide Records, Whole;
    var t := Stored(b.t, offs, ws);
    if n > 0 {
      assert t[offs] == ws[0] && t[offs..offs + n] == ws[..n];
      One(ecbs, t, offs, n);
    } else {
      Blank(ecbs, t, offs, offs);
    }
    Same(ecbs, b.t, t, a, b.offset);
    Blank(ecbs, t, b.offset, offs);
    Joined(ecbs, t, a, b.offset, offs);
    Joined(ecbs, t, a, offs, offs + n);
  }

  lemma CommitOk(ecbs: seq<nat>, b: Buf, offs: nat, ws: seq<nat>, n: nat, q: seq<seq<nat>>)
    requires Reserved(ecbs, b, offs, |ws|, q) && (n == 0 || StartsWith(ecbs, ws, n))
    ensures Holds(ecbs, Commit(b, offs, ws, n), if n == 0 then q else q + [ws[..n]])
  {
    hide Records, Whole;
    var t := Stored(b.t, offs, ws);
    if b.offset <= offs {
      Appended(ecbs, b, offs, ws, n, Oldest(b));
      if b.wrapped && b.offset <= b.woffs {
        Same(ecbs, b.t, t, b.woffs, |t|);
      }
    } else {
      EmptyBuf(ecbs, b.t);
      Appended(ecbs, b.(offset := 0), 0, ws, n, 0);
      Same(ecbs, b.t, t, b.woffs, |t|);
    }
  }

  /** The reservation has wrapped and its overwrite walk has passed the newest record. */
  predicate Overtaken(b: Buf, offs: nat) {
    offs < b.offset <= b.woffs
  }

  lemma AbandonOk(ecbs: seq<nat>, b: Buf, offs: nat, ws: seq<nat>, q: seq<seq<nat>>)
    requires Reserved(ecbs, b, offs, |ws|, q) && !Overtaken(b, offs)
    ensures Holds(ecbs, Abandon(b, offs, ws), q)
  {
    hide Records, Whole;
    var t := Stored(b.t, offs, ws);
    if b.wrapped && b.offset <= b.woffs {
      Same(ecbs, b.t, t, 0, b.offset);
      Same(ecbs, b.t, t, b.woffs, |t|);
    } else {
      Same(ecbs, b.t, t, b.woffs, b.offset);
    }
  }

  /** After polishing, the consumer decodes exactly what the buffer holds. */
  lemma ConsumedOk(ecbs: seq<nat>, b: Buf, q: seq<seq<nat>>)
    requires Holds(ecbs, b, q)
    ensures Consumed(ecbs, Polished(b)) == q
  {
    hide Records, Whole;
    var t, size := Polished(b).t, |b.t|;
    if b.wrapped {
      if b.offset <= b.woffs {
        Same(ecbs, b.t, t, 0, b.offset);
        Same(ecbs, b.t, t, b.woffs, size);
        Blank(ecbs, t, b.offset, b.woffs);
        Joined(ecbs, t, 0, b.offset, b.woffs);
      } else {
        Same(ecbs, b.t, t, b.woffs, b.offset);
        Blank(ecbs, t, b.offset, size);
        Joined(ecbs, t, b.woffs, b.offset, size);
        Blank(ecbs, t, 0, b.woffs);
      }
    }
  }

  /** A probe that has stored its EPID and gives up: the consumer still decodes what the buffer held exactly when the
      reservation has not overtaken the newest record. */
  lemma AbandonExact(ecbs: seq<nat>, b: Buf, offs: nat, ws: seq<nat>, n: nat, q: seq<seq<nat>>)
    requires Reserved(ecbs, b, offs, |ws|, q) && StartsWith(ecbs, ws, n)
    ensures Consumed(ecbs, Polished(Abandon(b, offs, ws))) == q <==> !Overtaken(b, offs)
  {
    if Overtaken(b, offs) {
      hide Whole;
      var b' := Abandon(b, offs, ws);
      var t := Polished(b').t;
      Same(ecbs, b.t, t, b.woffs, |t|);
      assert t[0] == ws[0] && SizeAt(ecbs, t, 0) == n;
      assert Records(ecbs, t, 0, b.woffs) != [];
    } else {
      AbandonOk(ecbs, b, offs, ws, q);
      ConsumedOk(ecbs, Abandon(b, offs, ws), q);
    }
  }

  // ---------------------------------------------------------------- a third of the buffer

  lemma {:induction false} WalkStep(ecbs: seq<nat>, t: seq<nat>, w: nat, target: nat, most: nat)
    requires (forall i :: 0 <= i < |ecbs| ==> ecbs[i] <= most) && 1 <= most && Walk(ecbs, t, w, target).Reached? &&
        w < target
    ensures Walk(ecbs, t, w, target).w < target + most
    decreases |t| - w
  {
    var n := SizeAt(ecbs, t, w);
    if w + n < target {
      WalkStep(ecbs, t, w + n, target, most);
    }
  }

  /** When padded reservations and records take at most a third of the buffer, no reservation overtakes. */
  lemma ThirdNeverOvertakes(ecbs: seq<nat>, b: Buf, needed: nat, align: nat, q: seq<seq<nat>>)
    requires Holds(ecbs, b, q) && (align == 1 || align == 2) && |b.t| % 2 == 0 && |b.t| >= 3
    requires 3 * (needed + b.offset % align) <= |b.t| && (forall i :: 0 <= i < |ecbs| ==> 3 * ecbs[i] <= |b.t|)
    ensures Reserve(ecbs, b, needed, align).Some?
    ensures var (b', offs) := Reserve(ecbs, b, needed, align).v; !Overtaken(b', offs)
  {
    hide Records, Whole, Walk;
    var offs, size := b.offset, |b.t|;
    if offs + needed + offs % align > size {
      var t := Zeroed(b.t, offs, size);
      var w0 := if b.wrapped && b.woffs < offs then b.woffs else 0;
      if Walk(ecbs, t, w0, needed).Reached? {
        if w0 < needed {
          WalkStep(ecbs, t, w0, needed, size / 3);
        } else {
          WalkStays(ecbs, t, w0, needed);
        }
      }
    }
  }

  lemma WalkStays(ecbs: seq<nat>, t: seq<nat>, w: nat, target: nat)
    requires target <= w
    ensures Walk(ecbs, t, w, target) == Reached(w)
  {
  }

  // ---------------------------------------------------------------- any sequence of probes

  /** One probe: it reserves |ws| words, writes ws, and commits the first n of them or gives up. */
  datatype Probe = Probe(ws: seq<nat>, align: nat, n: nat, commits: bool)

  /** The probe's record is as its EPID says. */
  predicate Proper(ecbs: seq<nat>, p: Probe) {
    (p.align == 1 || p.align == 2) && (p.n == 0 || StartsWith(ecbs, p.ws, p.n))
  }

  /** The probe's padded reservation is larger than the buffer: the probe is dropped. */
  predicate TooLarge(b: Buf, p: Probe) {
    p.align > 0 && |p.ws| + b.offset % p.align > |b.t|
  }

  function Fire(ecbs: seq<nat>, b: Buf, p: Probe): Buf {
    if !(b.offset <= |b.t| && |b.t| % 2 == 0 && (p.align == 1 || p.align == 2)) then b
    else
    match Reserve(ecbs, b, |p.ws|, p.align)
    case None => b
    case Some(r) =>
      if r.1 + |p.ws| > |r.0.t| then r.0
      else if p.commits then Commit(r.0, r.1, p.ws, p.n) else Abandon(r.0, r.1, p.ws)
  }

  /** The records committed by a sequence of probes, in order. */
  function Committed(ecbs: seq<nat>, size: nat, ps: seq<Probe>): seq<seq<nat>> {
    if ps == [] then []
    else
      var before := ps[..|ps| - 1];
      Committed(ecbs, size, before) + Added(After(ecbs, size, before), ps[|ps| - 1])
  }

  /** The probe's reservation wraps and overtakes the newest record. */
  predicate Overtakes(ecbs: seq<nat>, b: Buf, p: Probe) {
    && b.offset <= |b.t| && |b.t| % 2 == 0 && (p.align == 1 || p.align == 2)
    && Reserve(ecbs, b, |p.ws|, p.align).Some?
    && var (b', offs) := Reserve(ecbs, b, |p.ws|, p.align).v; Overtaken(b', offs)
  }

  /** The record a probe adds, if it is not dropped. */
  function Added(b: Buf, p: Probe): seq<seq<nat>> {
    if p.commits && !TooLarge(b, p) && 0 < p.n <= |p.ws| then [p.ws[..p.n]] else []
  }

  lemma FireOk(ecbs: seq<nat>, b: Buf, p: Probe, q: seq<seq<nat>>, log: seq<seq<nat>>) returns (q': seq<seq<nat>>)
    requires Holds(ecbs, b, q) && Suffix(q, log) && |b.t| % 2 == 0 && Proper(ecbs, p) &&
        (!p.commits ==> !Overtakes(ecbs, b, p))
    ensures |Fire(ecbs, b, p).t| == |b.t| && Holds(ecbs, Fire(ecbs, b, p), q')
    ensures Suffix(q', log + Added(b, p)) && (Added(b, p) != [] ==> q' != [])
  {
    hide Holds, Reserve, Left, Reserved;
    ReserveOk(ecbs, b, |p.ws|, p.align, q);
    InBounds(ecbs, b, q);
    if TooLarge(b, p) {
      assert log + Added(b, p) == log;
      return q;
    }
    var (b1, offs) := Reserve(ecbs, b, |p.ws|, p.align).v;
    q' := Left(ecbs, b1, offs);
    SuffixTail(q', q, log);
    ReservedFits(ecbs, b1, offs, |p.ws|, q');
    if p.commits {
      CommitOk(ecbs, b1, offs, p.ws, p.n, q');
      SuffixBoth(q', log, Added(b, p));
      assert q' + Added(b, p) == if p.n == 0 then q' else q' + [p.ws[..p.n]];
      q' := q' + Added(b, p);
    } else {
      AbandonOk(ecbs, b1, offs, p.ws, q');
      assert log + Added(b, p) == log;
    }
  }

  /** What one probe does, step by step. */
  lemma FireIs(ecbs: seq<nat>, b: Buf, p: Probe, q: seq<seq<nat>>)
    requires Holds(ecbs, b, q) && |b.t| % 2 == 0 && Proper(ecbs, p)
    ensures b.offset <= |b.t| && (Reserve(ecbs, b, |p.ws|, p.align).None? <==> TooLarge(b, p))
    ensures TooLarge(b, p) ==> Fire(ecbs, b, p) == b
    ensures !TooLarge(b, p) ==>
            var (b1, offs) := Reserve(ecbs, b, |p.ws|, p.align).v;
            && |b1.t| == |b.t| && offs + |p.ws| <= |b1.t| && b1.offset <= |b1.t| && b1.woffs <= |b1.t|
            && (p.commits ==> offs + p.n <= |b1.t|)
            && Fire(ecbs, b, p) == if p.commits then Commit(b1, offs, p.ws, p.n) else Abandon(b1, offs, p.ws)
  {
    hide Holds, Reserve, Left, Reserved, Stored;
    ReserveOk(ecbs, b, |p.ws|, p.align, q);
    InBounds(ecbs, b, q);
    if !TooLarge(b, p) {
      var (b1, offs) := Reserve(ecbs, b, |p.ws|, p.align).v;
      ReservedFits(ecbs, b1, offs, |p.ws|, Left(ecbs, b1, offs));
    }
  }

  lemma InBounds(ecbs: seq<nat>, b: Buf, q: seq<seq<nat>>)
    requires Holds(ecbs, b, q)
    ensures b.offset <= |b.t| && b.woffs <= |b.t|
  {
  }

  lemma ReservedFits(ecbs: seq<nat>, b: Buf, offs: nat, needed: nat, q: seq<seq<nat>>)
    requires Reserved(ecbs, b, offs, needed, q)
    ensures offs + needed <= |b.t|
  {
  }

  /** The buffer after a sequence of probes, starting empty. */
  function After(ecbs: seq<nat>, size: nat, ps: seq<Probe>): Buf {
    if ps == [] then Buf(seq(size, _ => 0), 0, 0, false) else Fire(ecbs, After(ecbs, size, ps[..|ps| - 1]),
        ps[|ps| - 1])
  }

  /** Over any sequence of committed, abandoned and dropped probes in which no abandoned one overtakes, the
      consumer decodes, after polishing, the newest records committed, whole and in order; what was just
      committed is among them. */
  lemma {:induction false} RingIsQueue(ecbs: seq<nat>, size: nat, ps: seq<Probe>) returns (q: seq<seq<nat>>)
    requires size % 2 == 0 && (forall i :: 0 <= i < |ps| ==> Proper(ecbs, ps[i]))
    requires forall i :: 0 <= i < |ps| ==> ps[i].commits || !Overtakes(ecbs, After(ecbs, size, ps[..i]), ps[i])
    ensures var b := After(ecbs, size, ps);
            && |b.t| == size && Holds(ecbs, b, q) && b.offset <= size && b.woffs <= size
            && Consumed(ecbs, Polished(b)) == q && Suffix(q, Committed(ecbs, size, ps))
            && (ps != [] && Added(After(ecbs, size, ps[..|ps| - 1]), ps[|ps| - 1]) != [] ==> q != [])
    decreases |ps|
  {
    hide Holds, Consumed, Polished, Fire, Overtakes, Proper, Added;
    if ps == [] {
      q := [];
      EmptyHolds(ecbs, size);
    } else {
      var ps' := ps[..|ps| - 1];
      assert forall i :: 0 <= i < |ps'| ==> ps'[i] == ps[i] && ps'[..i] == ps[..i];
      var q0 := RingIsQueue(ecbs, size, ps');
      q := FireOk(ecbs, After(ecbs, size, ps'), ps[|ps| - 1], q0, Committed(ecbs, size, ps'));
    }
    InBounds(ecbs, After(ecbs, size, ps), q);
    ConsumedOk(ecbs, After(ecbs, size, ps), q);
  }

  /** It is enough that padded reservations and records take at most a third of the buffer. */
  lemma {:induction false} ThirdIsQueue(ecbs: seq<nat>, size: nat, ps: seq<Probe>, i: nat)
    requires size % 2 == 0 && size >= 3 && (forall j :: 0 <= j < |ps| ==>
        Proper(ecbs, ps[j]) && 3 * (|ps[j].ws| + ps[j].align - 1) <= size)
    requires (forall j :: 0 <= j < |ecbs| ==> 3 * ecbs[j] <= size) && i < |ps|
    ensures !Overtakes(ecbs, After(ecbs, size, ps[..i]), ps[i])
    decreases i
  {
    hide Holds, Consumed, Polished, Fire, Reserve, Proper;
    forall j | 0 <= j < i
      ensures !Overtakes(ecbs, After(ecbs, size, ps[..i][..j]), ps[..i][j])
    {
      assert ps[..i][..j] == ps[..j];
      ThirdIsQueue(ecbs, size, ps, j);
    }
    var q := RingIsQueue(ecbs, size, ps[..i]);
    AlignIs(ecbs, ps[i]);
    ThirdNeverOvertakes(ecbs, After(ecbs, size, ps[..i]), |ps[i].ws|, ps[i].align, q);
  }

  lemma AlignIs(ecbs: seq<nat>, p: Probe)
    requires Proper(ecbs, p)
    ensures p.align == 1 || p.align == 2
  {
  }

  lemma EmptyHolds(ecbs: seq<nat>, size: nat)
    ensures Holds(ecbs, Buf(seq(size, _ => 0), 0, 0, false), [])
  {
  }

  const FOUR := Probe([1, 9, 9, 9], 1, 4, true)
  const FIVE := Probe([2, 8, 8, 0, 0], 1, 3, false)

  lemma FourFires()
    ensures Fire([4, 3], Buf([0, 0, 0, 0, 0, 0], 0, 0, false), FOUR) == Buf([1, 9, 9, 9, 0, 0], 4, 0, false)
  {
    var t: seq<nat> := [0, 0, 0, 0, 0, 0];
    assert Zeroed(t, 0, 0) == t;
    assert Stored(t, 0, FOUR.ws) == [1, 9, 9, 9, 0, 0];
  }

  lemma FiveFires()
    ensures Fire([4, 3], Buf([1, 9, 9, 9, 0, 0], 4, 0, false), FIVE) == Buf([2, 8, 8, 0, 0, 0], 4, 5, true)
  {
    var t: seq<nat> := [1, 9, 9, 9, 0, 0];
    assert Zeroed(t, 4, 6) == t;
    assert Walk([4, 3], t, 4, 5) == Reached(5);
    assert Stored(t, 0, FIVE.ws) == [2, 8, 8, 0, 0, 0];
  }

  lemma Invented()
    ensures Consumed([4, 3], Polished(Buf([2, 8, 8, 0, 0, 0], 4, 5, true))) == [[2, 8, 8]]
  {
    var t: seq<nat> := [2, 8, 8, 0, 0, 0];
    assert Zeroed(t, 4, 5) == t;
    Blank([4, 3], t, 5, 6);
    Blank([4, 3], t, 3, 5);
    assert t[0..3] == [2, 8, 8];
  }

  /** Beyond that it can fail: in a buffer of six words, a record of four words and then an abandoned probe that
      reserves five.  The consumer decodes a record nobody committed, and the committed one is lost. */
  lemma OvertakenInvents()
    ensures var b := After([4, 3], 6, [FOUR, FIVE]);
            && Proper([4, 3], FOUR) && Proper([4, 3], FIVE) && b.offset <= |b.t| && b.woffs <= |b.t|
            && Consumed([4, 3], Polished(b)) == [[2, 8, 8]] && Committed([4, 3], 6, [FOUR, FIVE]) == [[1, 9, 9, 9]]
  {
    hide Fire, Consumed, Polished;
    FourFires();
    FiveFires();
    Invented();
    assert [FOUR, FIVE][..1] == [FOUR] && [FOUR][..0] == [];
    assert seq(6, _ => 0) == [0, 0, 0, 0, 0, 0];
    assert After([4, 3], 6, [FOUR]) == Buf([1, 9, 9, 9, 0, 0], 4, 0, false);
    var b0, b1 := After([4, 3], 6, []), After([4, 3], 6, [FOUR]);
    assert FOUR.ws[..4] == [1, 9, 9, 9];
    assert Added(b0, FOUR) == [[1, 9, 9, 9]] && Added(b1, FIVE) == [];
    assert Committed([4, 3], 6, [FOUR]) == Committed([4, 3], 6, []) + Added(b0, FOUR);
  }
}
