/** What every reachable state of a speculation satisfies. */
module SpecInvariant {
  import opened Counting
  import opened SpecSystem

  /** The speculation has moved on, or the records have been copied, but the CPU has yet to reset its offset. */
  predicate Resetting(k: Cpu) {
    k.pc.ComReset? || k.pc.DisReset?
  }

  /** The CPU is filling its buffer, or is discarding in the middle of a fill. */
  predicate Holds(k: Cpu) {
    k.pc.Filling? || k.held.Some?
  }

  /** What was in the buffer when the fill reserved behind it. */
  function Base(k: Cpu): seq<Rec> {
    if k.pc.Filling? then k.pc.base else if k.held.Some? then k.held.base else k.buf
  }

  /** Nothing of the current activation is on this CPU. */
  predicate Clear(k: Cpu) {
    !Holds(k) && (k.buf == [] || Resetting(k))
  }

  /** The CPU has copied (or dropped) its records and not yet forgotten them. */
  predicate Copied(k: Cpu) {
    k.pc.ComRelease? || k.pc.ComReset?
  }

  predicate InClean(pc: Pc) {
    pc.ClnRead? || pc.ClnReset? || pc.ClnLast?
  }

  /** What holds of CPU c whatever the others do, given the shared state. */
  predicate CpuOk(sh: Shared, c: nat, k: Cpu) {
    // who may hold or have filled a buffer
    && (sh.spec.Inactive? || sh.spec.Active? ==> Clear(k))
    && ((sh.spec.ActiveOne? || sh.spec.Committing?) && c != sh.owner ==> Clear(k))
    && (sh.cleaning && c !in sh.todo ==> Clear(k))
    // the committer
    && (k.pc == ComCopy(true) || k.pc.ComRelease? <==> sh.spec.Committing? && c == sh.owner)
    && (k.pc == ComCopy(false) && k.buf != [] ==> sh.spec.CommittingMany?)
    // what a compare-and-swap is about to do
    && (k.pc.BufCas? ==> k.pc == BufCas(Active, ActiveOne) || (k.pc == BufCas(ActiveOne, ActiveMany) && k.buf == []))
    && (k.pc.ComCas? ==>
          || k.pc == ComCas(Active, Committing) || k.pc == ComCas(ActiveMany, CommittingMany)
          || k.pc == ComCas(ActiveOne, if k.buf != [] then Committing else CommittingMany))
    && (k.pc.DisCas? ==>
          || k.pc == DisCas(Active, Discarding) || k.pc == DisCas(ActiveMany, Discarding)
          || k.pc == DisCas(ActiveOne, if k.buf != [] then Inactive else Discarding))
    // the cross call
    && (InClean(k.pc) || k.clean ==> c in sh.todo)
    && (InClean(k.pc) ==> k.clean)
    && (k.clean ==>
        InClean(k.pc) || ((k.pc.ComRead? || k.pc == ComCopy(false)) && sh.spec.CommittingMany?) || k.pc.ComReset?)
    && (k.pc.ClnReset? ==> sh.spec.Discarding?)
    && (k.pc.ClnLast? && sh.cleaning ==> sh.spec.CommittingMany?)
    // a discard in the middle of a fill
    && (k.held.Some? ==> InDiscard(k.pc) && (k.held.base == k.buf || (k.buf == [] && sh.spec.Discarding?)))
    && (k.held.Some? && k.pc.DisReset? ==> sh.spec.Discarding? && k.held.base == k.buf)
  }

  /** The records of CPU c: which activation they belong to, and that the history places them where they are. */
  predicate RecsOk(sh: Shared, c: nat, k: Cpu) {
    && (k.buf != [] && !Resetting(k) ==> forall r :: r in k.buf ==> r.inc == sh.inc)
    && (k.pc.DisReset? || k.pc.ClnReset? ==> forall r :: r in k.buf ==> r.inc in sh.discarded)
    && (k.pc.Filling? ==> k.pc.tag == sh.inc && (k.pc.base == k.buf || (k.buf == [] && sh.spec.Discarding?)))
    && (k.held.Some? ==> k.held.tag == sh.inc)
    && (Holds(k) ==> forall r :: r in Base(k) ==> r.inc == sh.inc)
    && (forall r :: r in k.out ==> r.inc <= sh.inc && r.inc !in sh.discarded
                                   && (r.inc == sh.inc ==>
                                       sh.spec.Committing? || sh.spec.CommittingMany? || sh.spec.Inactive?))
  }

  predicate DistinctIds(rs: seq<Rec>) {
    forall i, j :: 0 <= i < j < |rs| ==> rs[i].id != rs[j].id
  }

  predicate HasId(rs: seq<Rec>, id: nat) {
    exists i :: 0 <= i < |rs| && rs[i].id == id
  }

  predicate PlaceOk(place: map<nat, Place>, c: nat, k: Cpu) {
    && DistinctIds(k.buf) && DistinctIds(k.out)
    && (forall r :: r in k.buf && !Copied(k) ==> r.id in place && place[r.id] == InBuf(c))
    && (forall r :: r in k.out ==> r.id in place && place[r.id] == Out(c))
    && (forall id :: id in place && place[id] == InBuf(c) ==> !Copied(k) && HasId(k.buf, id))
    && (forall id :: id in place && place[id] == Out(c) ==> HasId(k.out, id))
    && DistinctIds(Base(k)) && (Base(k) != k.buf ==> AreThrown(place, c, Base(k)))
  }

  /** CPU c has thrown the records away, though its fill may yet bring them back. */
  predicate AreThrown(place: map<nat, Place>, c: nat, rs: seq<Rec>) {
    forall r :: r in rs ==> r.id in place && place[r.id] == Thrown(c)
  }

  /** Every record traced so far has exactly one place. */
  ghost predicate Recorded(place: map<nat, Place>, next: nat, n: nat) {
    && (forall id :: id in place <==> 0 <= id < next)
    && (forall id :: id in place && place[id].InBuf? ==> place[id].c < n)
    && (forall id :: id in place && place[id].Out? ==> place[id].c < n)
  }

  ghost predicate SharedOk(sh: Shared, n: nat) {
    && (sh.cleaning ==> sh.spec.Discarding? || sh.spec.CommittingMany?)
    && (sh.cl.CIdle? ==> !sh.cleaning)
    && (!sh.cl.CWait? ==> sh.todo == {})
    && (sh.cl.CRead? || sh.cl.CCas? ==> sh.cleaning)
    && (sh.cl.CCas? ==> sh.cl.cur == sh.spec)
    && (forall c :: c in sh.todo ==> c < n)
    && (sh.spec.ActiveOne? || sh.spec.Committing? ==> sh.owner < n)
    && (forall d :: d in sh.discarded ==> d <= sh.inc)
    && (sh.inc in sh.discarded ==> sh.spec.Discarding? || sh.spec.Inactive?)
    && (sh.spec.Discarding? ==> sh.inc in sh.discarded)
  }

  ghost predicate Inv(s: State) {
    && SharedOk(s.sh, |s.cpus|) && Recorded(s.sh.place, s.sh.next, |s.cpus|)
    && (forall c :: 0 <= c < |s.cpus| ==> CpuOk(s.sh, c, s.cpus[c]))
    && (forall c :: 0 <= c < |s.cpus| ==> RecsOk(s.sh, c, s.cpus[c]))
    && (forall c :: 0 <= c < |s.cpus| ==> PlaceOk(s.sh.place, c, s.cpus[c]))
  }

  lemma InitInv(n: nat)
    ensures Inv(Init(n))
  {
  }

  // ---------------------------------------------------------------- the steps of one CPU

  /** The step is not a discard that frees the speculation in the middle of the same CPU's fill. */
  predicate Separate(s: State, st: Step) {
    st.Go? && st.c < |s.cpus| ==> Harmless(s.sh, s.cpus[st.c])
  }

  predicate InSpeculate(pc: Pc) {
    pc.ActRead? || pc.ActCas? || pc.BufRead? || pc.BufCas? || pc.Filling?
  }

  predicate InCommit(pc: Pc) {
    pc.ComRead? || pc.ComCas? || pc.ComCopy? || pc.ComRelease? || pc.ComReset?
  }

  predicate InDiscard(pc: Pc) {
    pc.DisRead? || pc.DisCas? || pc.DisReset?
  }

  predicate OwnOk(sh: Shared, c: nat, k: Cpu) {
    CpuOk(sh, c, k) && RecsOk(sh, c, k)
  }

  /** The CPU is not about to free the speculation in the middle of its own fill. */
  predicate Harmless(sh: Shared, k: Cpu) {
    sh.spec.ActiveOne? && k.held.Some? ==> k.pc != DisCas(ActiveOne, Inactive)
  }

  lemma OwnSpeculate(sh: Shared, n: nat, c: nat, k: Cpu, yes: bool)
    requires SharedOk(sh, n) && OwnOk(sh, c, k) && c < n && InSpeculate(k.pc)
    ensures OwnOk(GoShared(sh, c, k, yes), c, GoCpu(sh, k, yes))
  {
    hide Sent;
  }

  lemma OwnCommit(sh: Shared, n: nat, c: nat, k: Cpu, yes: bool)
    requires SharedOk(sh, n) && OwnOk(sh, c, k) && c < n && InCommit(k.pc)
    ensures OwnOk(GoShared(sh, c, k, yes), c, GoCpu(sh, k, yes))
  {
    hide Sent;
  }

  lemma OwnDiscard(sh: Shared, n: nat, c: nat, k: Cpu, yes: bool)
    requires SharedOk(sh, n) && OwnOk(sh, c, k) && c < n && InDiscard(k.pc) && Harmless(sh, k)
    ensures OwnOk(GoShared(sh, c, k, yes), c, GoCpu(sh, k, yes))
  {
    hide Sent;
  }

  lemma OwnClean(sh: Shared, n: nat, c: nat, k: Cpu, yes: bool)
    requires SharedOk(sh, n) && OwnOk(sh, c, k) && c < n && InClean(k.pc)
    ensures OwnOk(GoShared(sh, c, k, yes), c, GoCpu(sh, k, yes))
  {
    hide Sent;
  }

  lemma GoOwn(sh: Shared, n: nat, c: nat, k: Cpu, yes: bool)
    requires SharedOk(sh, n) && OwnOk(sh, c, k) && c < n && !k.pc.Idle? && Harmless(sh, k)
    ensures OwnOk(GoShared(sh, c, k, yes), c, GoCpu(sh, k, yes))
  {
    hide SharedOk, OwnOk, GoShared, GoCpu, Harmless;
    if InSpeculate(k.pc) {
      OwnSpeculate(sh, n, c, k, yes);
    } else if InCommit(k.pc) {
      OwnCommit(sh, n, c, k, yes);
    } else if InDiscard(k.pc) {
      OwnDiscard(sh, n, c, k, yes);
    } else {
      OwnClean(sh, n, c, k, yes);
    }
  }

  lemma GoOther(sh: Shared, n: nat, c: nat, k: Cpu, yes: bool, d: nat, k': Cpu)
    requires SharedOk(sh, n) && CpuOk(sh, c, k) && OwnOk(sh, d, k') && d != c
    ensures OwnOk(GoShared(sh, c, k, yes), d, k')
  {
    hide Sent;
  }

  // ---------------------------------------------------------------- where the records are

  lemma SentOk(place: map<nat, Place>, rs: seq<Rec>, p: Place)
    requires forall r :: r in rs ==> r.id in place
    ensures forall id :: id in Sent(place, rs, p) <==> id in place
    ensures forall id :: id in place ==> Sent(place, rs, p)[id] == if HasId(rs, id) then p else place[id]
  {
    forall id | id in place
      ensures HasId(rs, id) <==> exists r :: r in rs && r.id == id
    {
      if r :| r in rs && r.id == id {
        var i :| 0 <= i < |rs| && rs[i] == r;
        assert rs[i].id == id;
      }
    }
  }

  lemma GoSharedOk(sh: Shared, n: nat, c: nat, k: Cpu, yes: bool)
    requires SharedOk(sh, n) && CpuOk(sh, c, k) && c < n
    ensures SharedOk(GoShared(sh, c, k, yes), n)
  {
    hide Sent;
  }

  /** Sending the uncopied records of CPU c elsewhere concerns no other CPU. */
  lemma SentOther(place: map<nat, Place>, c: nat, k: Cpu, p: Place, d: nat, k': Cpu)
    requires PlaceOk(place, c, k) && !Copied(k) && PlaceOk(place, d, k') && d != c &&
        (p == Out(c) || p == Dropped || p == Thrown(c))
    ensures PlaceOk(Sent(place, k.buf, p), d, k')
  {
    hide Sent, DistinctIds;
    SentOk(place, k.buf, p);
    forall id | HasId(k.buf, id)
      ensures id in place && place[id] == InBuf(c)
    {
      var i :| 0 <= i < |k.buf| && k.buf[i].id == id;
      assert k.buf[i] in k.buf;
    }
    forall r | r in k'.buf && !Copied(k')
      ensures !HasId(k.buf, r.id)
    {
    }
    forall r | r in k'.out
      ensures !HasId(k.buf, r.id)
    {
    }
    forall r | r in Base(k') && Base(k') != k'.buf
      ensures !HasId(k.buf, r.id)
    {
    }
  }

  lemma SentRecorded(place: map<nat, Place>, next: nat, n: nat, c: nat, k: Cpu, p: Place)
    requires PlaceOk(place, c, k) && !Copied(k) && Recorded(place, next, n) && c < n &&
        (p == Out(c) || p == Dropped || p == Thrown(c))
    ensures Recorded(Sent(place, k.buf, p), next, n)
  {
    hide Sent, DistinctIds, HasId;
    SentOk(place, k.buf, p);
  }

  /** A commit: the records leave the buffer for the principal buffer, or are dropped for lack of room. */
  lemma SentCopy(place: map<nat, Place>, c: nat, k: Cpu, k': Cpu, yes: bool)
    requires PlaceOk(place, c, k) && !Copied(k) && Copied(k') && k'.buf == k.buf && k'.out == if yes
        then k.out + k.buf else k.out
    requires Base(k') == k'.buf
    ensures PlaceOk(Sent(place, k.buf, if yes then Out(c) else Dropped), c, k')
  {
    hide Sent;
    var p := if yes then Out(c) else Dropped;
    SentOk(place, k.buf, p);
    InPlace(place, c, k);
    forall id | id in place && Sent(place, k.buf, p)[id] == Out(c)
      ensures HasId(k'.out, id)
    {
      if HasId(k.buf, id) {
        var i :| 0 <= i < |k.buf| && k.buf[i].id == id;
        assert k'.out[|k.out| + i].id == id;
      } else {
        var i :| 0 <= i < |k.out| && k.out[i].id == id;
        assert k'.out[i].id == id;
      }
    }
    forall r | r in k'.out
      ensures r.id in place && Sent(place, k.buf, p)[r.id] == Out(c)
    {
      if r in k.buf {
        var i :| 0 <= i < |k.buf| && k.buf[i] == r;
        assert HasId(k.buf, r.id);
      }
    }
  }

  lemma InPlace(place: map<nat, Place>, c: nat, k: Cpu)
    requires PlaceOk(place, c, k) && !Copied(k)
    ensures forall id :: HasId(k.buf, id) ==> id in place && place[id] == InBuf(c)
    ensures forall i, j :: 0 <= i < |k.out| && 0 <= j < |k.buf| ==> k.out[i].id != k.buf[j].id
  {
    forall id | HasId(k.buf, id)
      ensures id in place && place[id] == InBuf(c)
    {
      var i :| 0 <= i < |k.buf| && k.buf[i].id == id;
      assert k.buf[i] in k.buf;
    }
    forall i, j | 0 <= i < |k.out| && 0 <= j < |k.buf|
      ensures k.out[i].id != k.buf[j].id
    {
      assert k.out[i] in k.out && k.buf[j] in k.buf;
    }
  }

  /** A discard: the records leave the buffer for nowhere, or for a fill that is yet to bring them back. */
  lemma SentAway(place: map<nat, Place>, c: nat, k: Cpu, k': Cpu)
    requires PlaceOk(place, c, k) && !Copied(k) && !Copied(k') && k'.buf == [] && k'.out == k.out
    requires Base(k') == k'.buf || Base(k') == k.buf
    ensures PlaceOk(Sent(place, k.buf, Thrown(c)), c, k')
  {
    hide Sent;
    SentOk(place, k.buf, Thrown(c));
    InPlace(place, c, k);
    forall r | r in k.out
      ensures !HasId(k.buf, r.id)
    {
    }
    forall r | r in k.buf
      ensures HasId(k.buf, r.id)
    {
      InHasId(k.buf, r);
    }
  }

  lemma InHasId(rs: seq<Rec>, r: Rec)
    requires r in rs
    ensures HasId(rs, r.id)
  {
    var i :| 0 <= i < |rs| && rs[i] == r;
  }

  /** The records a fill writes back, or writes behind, are the CPU's own. */
  lemma BasePlace(place: map<nat, Place>, c: nat, k: Cpu)
    requires PlaceOk(place, c, k) && !Copied(k)
    ensures forall r :: r in Base(k) ==> r.id in place && (place[r.id] == InBuf(c) || place[r.id] == Thrown(c))
    ensures forall id :: HasId(Base(k), id) ==> id in place && (place[id] == InBuf(c) || place[id] == Thrown(c))
  {
    hide DistinctIds;
    forall id | HasId(Base(k), id)
      ensures id in place && (place[id] == InBuf(c) || place[id] == Thrown(c))
    {
      var i :| 0 <= i < |Base(k)| && Base(k)[i].id == id;
      assert Base(k)[i] in Base(k);
    }
  }

  lemma FillPlace(place: map<nat, Place>, next: nat, n: nat, c: nat, k: Cpu, k': Cpu, tag: nat)
    requires PlaceOk(place, c, k) && !Copied(k) && !Copied(k') && k'.buf == Base(k) + [Rec(next, tag)] &&
        k'.out == k.out
    requires Base(k') == k'.buf && (Base(k) == k.buf || k.buf == []) && Recorded(place, next, n) && c < n
    ensures PlaceOk(Sent(place, Base(k), InBuf(c))[next := InBuf(c)], c, k')
    ensures Recorded(Sent(place, Base(k), InBuf(c))[next := InBuf(c)], next + 1, n)
  {
    hide Sent;
    var base := Base(k);
    var place' := Sent(place, base, InBuf(c))[next := InBuf(c)];
    BasePlace(place, c, k);
    SentOk(place, base, InBuf(c));
    forall id | id in place' && place'[id] == InBuf(c)
      ensures HasId(k'.buf, id)
    {
      if id == next {
        assert k'.buf[|base|].id == id;
      } else {
        assert HasId(base, id);
        var i :| 0 <= i < |base| && base[i].id == id;
        assert k'.buf[i].id == id;
      }
    }
    forall r | r in base
      ensures HasId(base, r.id) && r.id < next
    {
      InHasId(base, r);
    }
    forall i | 0 <= i < |base|
      ensures base[i].id < next
    {
      assert base[i] in base;
    }
    forall r | r in k.out
      ensures !HasId(base, r.id)
    {
    }
  }

  lemma FillOther(place: map<nat, Place>, next: nat, n: nat, c: nat, k: Cpu, d: nat, k': Cpu)
    requires PlaceOk(place, c, k) && !Copied(k) && PlaceOk(place, d, k') && Recorded(place, next, n) && c != d
    ensures PlaceOk(Sent(place, Base(k), InBuf(c))[next := InBuf(c)], d, k')
  {
    hide Sent, DistinctIds, HasId;
    BasePlace(place, c, k);
    SentOk(place, Base(k), InBuf(c));
  }

  /** Steps that leave the records where they are. */
  predicate Still(pc: Pc, yes: bool) {
    !(pc.ComCopy? || pc.DisReset? || pc.ClnReset? || (pc.Filling? && yes))
  }

  lemma PlaceSame(place: map<nat, Place>, c: nat, k: Cpu, k': Cpu)
    requires PlaceOk(place, c, k) && k'.out == k.out && (Copied(k') ==> Copied(k))
    requires (k'.buf == k.buf && Copied(k') == Copied(k)) || (Copied(k) && k'.buf == [])
    requires Base(k') == k'.buf || (Base(k') == Base(k) && k'.buf == k.buf)
    ensures PlaceOk(place, c, k')
  {
    hide HasId;
  }

  lemma GoStill(sh: Shared, c: nat, k: Cpu, yes: bool)
    requires Still(k.pc, yes) && OwnOk(sh, c, k)
    ensures var k' := GoCpu(sh, k, yes);
            && k'.out == k.out && (Copied(k') ==> Copied(k))
            && ((k'.buf == k.buf && Copied(k') == Copied(k)) || (Copied(k) && k'.buf == []))
            && (Base(k') == k'.buf || (Base(k') == Base(k) && k'.buf == k.buf))
    ensures GoShared(sh, c, k, yes).place == sh.place && GoShared(sh, c, k, yes).next == sh.next
  {
    hide Sent;
  }

  ghost predicate PlacesOk(place: map<nat, Place>, next: nat, cpus: seq<Cpu>) {
    Recorded(place, next, |cpus|) && forall d :: 0 <= d < |cpus| ==> PlaceOk(place, d, cpus[d])
  }

  /** Steps that move records. */
  lemma GoMoves(sh: Shared, c: nat, k: Cpu, yes: bool)
    requires !Still(k.pc, yes) && OwnOk(sh, c, k)
    ensures var k' := GoCpu(sh, k, yes);
            && !Copied(k)
            && (k.pc.Filling? ==>
                k'.buf == Base(k) + [Rec(sh.next, k.pc.tag)] && k'.out == k.out && Base(k') == k'.buf && !Copied(k')
                                  && (Base(k) == k.buf || k.buf == []))
            && (k.pc.ComCopy? ==>
                k'.buf == k.buf && Copied(k') && Base(k') == k'.buf && k'.out == if yes then k.out + k.buf else k.out)
            && (!k.pc.Filling? && !k.pc.ComCopy? ==>
                k'.buf == [] && k'.out == k.out && !Copied(k') && (Base(k') == k'.buf || Base(k') == k.buf))
  {
  }

  lemma GoPlaces(sh: Shared, cpus: seq<Cpu>, c: nat, yes: bool)
    requires PlacesOk(sh.place, sh.next, cpus) && c < |cpus| && OwnOk(sh, c, cpus[c]) && !cpus[c].pc.Idle?
    ensures var sh' := GoShared(sh, c, cpus[c], yes); PlacesOk(sh'.place, sh'.next, cpus[c := GoCpu(sh, cpus[c], yes)])
  {
    hide PlaceOk, CpuOk, RecsOk, Sent, Recorded, GoCpu, Base, OwnOk;
    var k := cpus[c];
    var sh', k' := GoShared(sh, c, k, yes), GoCpu(sh, k, yes);
    if Still(k.pc, yes) {
      GoStill(sh, c, k, yes);
      PlaceSame(sh.place, c, k, k');
    } else {
      GoMoves(sh, c, k, yes);
      FillingBase(k);
      forall d | 0 <= d < |cpus| && d != c
        ensures PlaceOk(sh'.place, d, cpus[d])
      {
        if k.pc.Filling? {
          FillOther(sh.place, sh.next, |cpus|, c, k, d, cpus[d]);
        } else {
          SentOther(sh.place, c, k, if !k.pc.ComCopy? then Thrown(c) else if yes then Out(c) else Dropped, d, cpus[d]);
        }
      }
      if k.pc.Filling? {
        FillPlace(sh.place, sh.next, |cpus|, c, k, k', k.pc.tag);
      } else {
        SentRecorded(sh.place, sh.next, |cpus|, c, k, if !k.pc.ComCopy? then Thrown(c) else if yes
            then Out(c) else Dropped);
        if k.pc.ComCopy? {
          SentCopy(sh.place, c, k, k', yes);
        } else {
          SentAway(sh.place, c, k, k');
        }
      }
    }
  }

  lemma FillingBase(k: Cpu)
    ensures k.pc.Filling? ==> Base(k) == k.pc.base
  {
  }

  // ---------------------------------------------------------------- every step

  lemma GoStep(s: State, c: nat, yes: bool)
    requires Inv(s) && Enabled(s, Go(c, yes)) && Harmless(s.sh, s.cpus[c])
    ensures Inv(Do(s, Go(c, yes)))
  {
    hide Harmless, CpuOk, RecsOk, PlaceOk, SharedOk, Recorded, GoShared, GoCpu;
    var k, sh' := s.cpus[c], GoShared(s.sh, c, s.cpus[c], yes);
    GoSharedOk(s.sh, |s.cpus|, c, k, yes);
    GoOwn(s.sh, |s.cpus|, c, k, yes);
    forall d | 0 <= d < |s.cpus| && d != c
      ensures OwnOk(sh', d, s.cpus[d])
    {
      GoOther(s.sh, |s.cpus|, c, k, yes, d, s.cpus[d]);
    }
    GoPlaces(s.sh, s.cpus, c, yes);
  }

  lemma StartOwn(sh: Shared, c: nat, k: Cpu, op: Op)
    requires OwnOk(sh, c, k) && PlaceOk(sh.place, c, k) && (op.Clean? ==> c in sh.todo) &&
        (k.pc.Idle? || (op.Discard? && k.pc.Filling?))
    ensures OwnOk(sh, c, Begin(k, op)) && PlaceOk(sh.place, c, Begin(k, op))
  {
    hide HasId, DistinctIds, AreThrown;
  }

  lemma StartStep(s: State, c: nat, op: Op)
    requires Inv(s) && Enabled(s, Start(c, op))
    ensures Inv(Do(s, Start(c, op)))
  {
    hide CpuOk, RecsOk, PlaceOk, SharedOk, Recorded, Begin;
    StartOwn(s.sh, c, s.cpus[c], op);
  }

  lemma CleanCpu(sh: Shared, sh': Shared, n: nat, c: nat, k: Cpu)
    requires SharedOk(sh, n) && OwnOk(sh, c, k) && c < n
    requires || (sh.cl.CIdle? && (sh.spec.Discarding? || sh.spec.CommittingMany?) &&
        sh' == sh.(cleaning := true, cl := CWait, todo := Below(n)))
             || (sh.cl.CIdle? && sh' == sh.(cl := CWait, todo := Below(n)))
             || (sh.cl.CWait? && sh.todo == {} && sh' == sh.(cl := if sh.cleaning then CRead else CIdle))
             || (sh.cl.CRead? && sh' == sh.(cl := CCas(sh.spec)))
             || (sh.cl.CCas? && sh' == sh.(spec := Inactive, cleaning := false, cl := CIdle))
    ensures OwnOk(sh', c, k) && SharedOk(sh', n)
  {
    hide Below;
    assert c in Below(n) && forall d :: d in Below(n) ==> d < n;
  }

  lemma CleanStep(s: State, go: bool)
    requires Inv(s) && Enabled(s, CleanGo(go)) && |s.cpus| > 0
    ensures Inv(Do(s, CleanGo(go)))
  {
    hide CpuOk, RecsOk, PlaceOk, Recorded, Below;
    var s' := Do(s, CleanGo(go));
    if s' != s {
      forall d | 0 <= d < |s.cpus|
        ensures OwnOk(s'.sh, d, s.cpus[d]) && SharedOk(s'.sh, |s.cpus|)
      {
        CleanCpu(s.sh, s'.sh, |s.cpus|, d, s.cpus[d]);
      }
      assert OwnOk(s'.sh, 0, s.cpus[0]);
    }
  }

  /** Every step keeps the invariant, except a discard that frees the speculation in the middle of the same
      CPU's fill. */
  lemma StepKeeps(s: State, st: Step)
    requires Inv(s) && Enabled(s, st) && Separate(s, st) && |s.cpus| > 0
    ensures Inv(Do(s, st)) && |Do(s, st).cpus| == |s.cpus|
  {
    hide Inv, GoShared, GoCpu, Begin, Harmless;
    match st
    case Start(c, op) => StartStep(s, c, op);
    case Go(c, yes) => GoStep(s, c, yes);
    case CleanGo(go) => CleanStep(s, go);
  }
}
