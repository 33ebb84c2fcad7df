/** The trace ring buffer in place: dtrace_buffer_reserve, dtrace_buffer_polish and the stores around them. */
module RingBuffer {
  import opened Options
  import opened RingSpec

  class Ring {
    const ecbs: seq<nat>
    const tomax: array<nat>
    var offset: nat
    var woffs: nat
    var wrapped: bool

    ghost function View(): Buf
      reads this, tomax
    {
      Buf(tomax[..], offset, woffs, wrapped)
    }

    ghost predicate Valid()
      reads this, tomax
    {
      offset <= tomax.Length && woffs <= tomax.Length && tomax.Length % 2 == 0
    }

    /** An empty buffer of the given size, all zero. */
    constructor (size: nat, sizes: seq<nat>)
      requires size % 2 == 0
      ensures Valid() && fresh(tomax) && ecbs == sizes && Holds(ecbs, View(), []) && View() == After(ecbs, size, [])
    {
      ecbs := sizes;
      tomax := new nat[size](_ => 0);
      offset, woffs, wrapped := 0, 0, false;
      new;
      EmptyHolds(ecbs, size);
      assert tomax[..] == seq(size, _ => 0);
    }

    /** Words a to b are cleared. */
    method Clear(a: nat, b: nat)
      requires a <= b <= tomax.Length
      modifies tomax
      ensures tomax[..] == Zeroed(old(tomax[..]), a, b)
    {
      var i := a;
      while i < b
        invariant a <= i <= b
        invariant forall j :: 0 <= j < tomax.Length ==> tomax[j] == if a <= j < i then 0 else old(tomax[..])[j]
      {
        tomax[i] := 0;
        i := i + 1;
      }
    }

    /** The overwrite walk. */
    method Advance(from: nat, target: nat) returns (r: Stop)
      ensures r == Walk(ecbs, tomax[..], from, target)
    {
      var w := from;
      while w < target
        invariant Walk(ecbs, tomax[..], from, target) == Walk(ecbs, tomax[..], w, target)
        decreases tomax.Length - w
      {
        var size := if w >= tomax.Length then 0 else if tomax[w] == 0 then 1 else if tomax[w] <= |ecbs|
            then ecbs[tomax[w] - 1] else 0;
        if size == 0 || w + size >= tomax.Length {
          return End;
        }
        w := w + size;
      }
      return Reached(w);
    }

    /** The reservation does not fit at the end: the rest of the buffer is cleared and the records at the top make
        room. */
    method Wrap(needed: nat)
      requires Valid() && needed <= tomax.Length
      modifies this, tomax
      ensures var b := old(View()); var t := Zeroed(b.t, b.offset, |b.t|);
              View() == match Walk(ecbs, t, Oldest(b), needed)
                        case Reached(w) => Buf(t, b.offset, w, true)
                        case End => Buf(Zeroed(t, needed, |b.t|), 0, 0, false)
    {
      hide Walk, Zeroed;
      var w := if wrapped && woffs < offset then woffs else 0;
      Clear(offset, tomax.Length);
      var stop := Advance(w, needed);
      match stop {
        case Reached(w') =>
          woffs, wrapped := w', true;
        case End =>
          offset, woffs, wrapped := 0, 0, false;
          Clear(needed, tomax.Length);
      }
    }

    /** The reservation fits at the end, below the oldest record or in place of it. */
    method MakeRoom(total: nat)
      requires Valid() && offset + total <= tomax.Length && wrapped && woffs >= offset
      modifies this, tomax
      ensures var b := old(View());
              View() == match Walk(ecbs, b.t, b.woffs, b.offset + total)
                        case Reached(w) => b.(woffs := w)
                        case End => if b.offset == 0 then Buf(Zeroed(b.t, total, |b.t|), 0, 0,
                            false) else b.(woffs := 0)
    {
      hide Walk, Zeroed;
      var stop := Advance(woffs, offset + total);
      match stop {
        case Reached(w') =>
          woffs := w';
        case End =>
          if offset == 0 {
            wrapped := false;
            Clear(total, tomax.Length);
          }
          woffs := 0;
      }
    }

    /** Space for a record: the offset reserved, or None and the reservation is dropped. */
    method Reserve(needed: nat, align: nat) returns (r: Option<nat>)
      requires Valid() && (align == 1 || align == 2)
      modifies this, tomax
      ensures match RingSpec.Reserve(ecbs, old(View()), needed, align)
              case None => r.None? && View() == old(View())
              case Some(p) => r == Some(p.1) && View() == p.0
    {
      hide Walk, Zeroed, Padded;
      var offs, size := offset, tomax.Length;
      var total := needed + offs % align;
      if offs + total > size {
        if total > size {
          return None;
        }
        Wrap(needed);
        return Some(0);
      }
      PadFacts(offs, align, needed, size);
      if wrapped && woffs >= offs {
        MakeRoom(total);
      }
      var padded := Padded(offs, align);
      if offs == 0 {
        NoPadding(tomax[..], align);
      }
      Clear(offs, padded);
      return Some(padded);
    }

    /** The probe stores its words at the reserved offset. */
    method Store(offs: nat, ws: seq<nat>)
      requires offs + |ws| <= tomax.Length
      modifies tomax
      ensures tomax[..] == Stored(old(tomax[..]), offs, ws)
    {
      var i := 0;
      while i < |ws|
        invariant 0 <= i <= |ws|
        invariant forall j :: 0 <= j < tomax.Length ==>
            tomax[j] == if offs <= j < offs + i then ws[j - offs] else old(tomax[..])[j]
      {
        tomax[offs + i] := ws[i];
        i := i + 1;
      }
    }

    /** One probe: reserve, store, and commit the first n words or give up.  Unless it gives up after overtaking the
        newest record, what the buffer held, less the oldest records, is still there; a committed record is there as
        well. */
    method Trace(p: Probe, ghost q: seq<seq<nat>>) returns (ok: bool, ghost q': seq<seq<nat>>)
      requires Valid() && Holds(ecbs, View(), q) && Proper(ecbs, p)
      modifies this, tomax
      ensures Valid() && View() == Fire(ecbs, old(View()), p) && ok == !TooLarge(old(View()), p)
      ensures p.commits || !Overtakes(ecbs, old(View()), p) ==>
                Holds(ecbs, View(), q') && Suffix(q', q + Added(old(View()), p)) &&
                    (Added(old(View()), p) != [] ==> q' != [])
    {
      hide Holds, RingSpec.Reserve, Stored, Fire, Overtakes, Suffix, TooLarge;
      ghost var b := View();
      SuffixSelf(q);
      FireIs(ecbs, b, p, q);
      q' := q;
      if p.commits || !Overtakes(ecbs, b, p) {
        q' := FireOk(ecbs, b, p, q, q);
      }
      var r := Reserve(|p.ws|, p.align);
      if r.None? {
        return false, q';
      }
      Store(r.v, p.ws);
      if p.commits {
        offset := r.v + p.n;
      }
      ok := true;
    }

    /** The words between the newest and the oldest record are cleared. */
    method Polish()
      requires Valid()
      modifies tomax
      ensures View() == Polished(old(View()))
    {
      if !wrapped {
        return;
      }
      if offset < woffs {
        Clear(offset, woffs);
      }
      if offset > woffs {
        Clear(offset, tomax.Length);
        Clear(0, woffs);
      }
    }

    /** The consumer's decoding of words a to b. */
    method Decode(a: nat, b: nat) returns (rs: seq<seq<nat>>)
      requires a <= b <= tomax.Length
      ensures rs == Records(ecbs, tomax[..], a, b)
    {
      rs := [];
      var offs := a;
      while offs < b
        invariant a <= offs <= b && Records(ecbs, tomax[..], a, b) == rs + Records(ecbs, tomax[..], offs, b)
        decreases b - offs
      {
        if tomax[offs] == 0 {
          offs := offs + 1;
        } else {
          var size := if tomax[offs] <= |ecbs| then ecbs[tomax[offs] - 1] else 0;
          if size == 0 || offs + size > b {
            return;
          }
          assert tomax[..][offs..offs + size] == tomax[offs..offs + size];
          rs := rs + [tomax[offs..offs + size]];
          offs := offs + size;
        }
      }
    }

    /** A consumer reads the whole buffer: exactly the records it holds, oldest first. */
    method Snapshot(ghost q: seq<seq<nat>>) returns (rs: seq<seq<nat>>)
      requires Valid() && Holds(ecbs, View(), q)
      modifies tomax
      ensures rs == q
    {
      ConsumedOk(ecbs, View(), q);
      Polish();
      if !wrapped {
        rs := Decode(0, offset);
      } else {
        var first := Decode(woffs, tomax.Length);
        var second := Decode(0, woffs);
        rs := first + second;
      }
    }
  }
}
