/**
 The dynamic-variable hash of DTrace and the reclamation of its chunks, as a step system.

 Any number of CPUs look up, allocate and deallocate variables in probe context; a cleaner recycles freed chunks
 beside them.  A step is one load, store or compare-and-swap of shared memory.  Memory is sequentially consistent
 and `dtrace_sync` waits until every CPU has been seen outside probe context.
 */
module DynSystem {
  import opened Options
  import opened Counting

  /** A pointer to a chunk, to the sink that ends every hash chain, or NULL. */
  datatype Ref = Null | Sink | At(n: nat)

  /** A variable's tuple: its hash value and the rest of it. */
  datatype Key = Key(h: nat, id: nat)

  datatype Mark = Unused | Hash(h: nat)

  /** Where a chunk is: on the free, clean, rinsing or dirty list of CPU d, on hash chain b, on the clean list of CPU d
      while a CPU carries it to the free list, in the hands of the allocating CPU c, or in the hands of the CPU
      deallocating in bucket b (`Going` once its next pointer leads to a dirty list).  A chunk that is `Nowhere` was
      never put on a list, or has been lost. */
  datatype Place =
    | Free(d: nat) | Clean(d: nat) | Rinse(d: nat) | Dirty(d: nat) | Chain(b: nat) | Moving(d: nat)
    | Fresh(c: nat) | Gone(b: nat) | Going(b: nat) | Nowhere

  /** A chunk: hash marker, tuple and next pointer.  The rest is history: where it is, when it was last published
      on a chain, and the dirty list head its deallocator is about to link it to. */
  datatype Node = Node(mark: Mark, key: Key, next: Ref, place: Place, stamp: nat, pend: Ref)

  datatype Cleaner =
    | CIdle | CScan(i: nat, work: bool) | CScanClean(i: nat, work: bool)
    | CRead(i: nat) | CSet(i: nat, x: Ref) | CGrab(i: nat, x: Ref)
    | CSync(waiting: set<nat>) | CRefill(i: nat) | CDrop(i: nat)

  /** Shared memory, and after it history: the lists as sequences, the number of publications, who holds each
      bucket's lock, the chunk being deallocated in each bucket, the chunk each allocating CPU has in hand, and who
      is carrying each CPU's clean list. */
  datatype Mem = Mem(
    nodes: seq<Node>, chain: seq<Ref>, lock: seq<nat>,
    free: seq<Ref>, dirty: seq<Ref>, rinsing: seq<Ref>, clean: seq<Ref>, cl: Cleaner,
    lists: map<Place, seq<nat>>, clock: nat, holder: seq<Option<nat>>, gone: seq<Option<nat>>,
    hand: seq<Option<nat>>, mover: seq<Option<nat>>, moving: seq<Ref>)

  datatype Op = Alloc | NoAlloc | Dealloc

  datatype Pc =
    | Idle | LockRead | LockCas | Top | Head | Visit | Compare | Follow | Check | Miss
    | UnlinkRead | UnlinkStore | Marking | DirtyRead | DirtyLink | DirtyCas | Unlock
    | FreeRead | FreeNext | FreePop | CleanRead | CleanCas | FreeSet
    | FillKey | FillMark | FillNext | Publish | Unmark
    | Done(res: Ref)

  /** A CPU in dtrace_dynvar: d is the CPU whose lists it uses. */
  datatype Cpu = Cpu(pc: Pc, op: Op, key: Key, d: nat, lk: nat, start: Ref, dvar: Ref, prev: Ref, nx: Ref, cl: Ref)

  datatype State = State(m: Mem, cpus: seq<Cpu>)

  /** `yes` resolves what the model leaves open: whether an allocator whose CPU is out of chunks tries the next
      CPU or drops. */
  datatype Step =
    | Start(c: nat, op: Op, key: Key)
    | Go(c: nat, yes: bool)
    | Leave(c: nat)
    | CleanGo
    | Ack(c: nat)

  function Bucket(m: Mem, key: Key): nat {
    if |m.chain| == 0 then 0 else key.h % |m.chain|
  }

  function Cleared(k: Cpu, pc: Pc): Cpu {
    k.(pc := pc, start := Null, dvar := Null, prev := Null, nx := Null, cl := Null)
  }

  predicate Enabled(s: State, st: Step) {
    match st
    case Start(c, _, _) => c < |s.cpus| && s.cpus[c].pc.Idle?
    case Go(c, _) => c < |s.cpus| && !s.cpus[c].pc.Idle? && !s.cpus[c].pc.Done?
    case Leave(c) => c < |s.cpus| && s.cpus[c].pc.Done?
    case CleanGo => s.m.cl.CSync? ==> s.m.cl.waiting == {}
    case Ack(c) => c < |s.cpus| && s.cpus[c].pc.Idle? && s.m.cl.CSync?
  }

  // ---------------------------------------------------------------- memory updates

  /** The chunks of a whole list change places together. */
  function Rehomed(nodes: seq<Node>, p: Place, p': Place): seq<Node> {
    seq(|nodes|, v requires 0 <= v < |nodes| => if nodes[v].place == p then nodes[v].(place := p') else nodes[v])
  }

  function L(m: Mem, p: Place): seq<nat> {
    if p in m.lists then m.lists[p] else []
  }

  /** The history of moving the whole list p to p'. */
  function Moved(m: Mem, p: Place, p': Place): Mem {
    m.(nodes := Rehomed(m.nodes, p, p'), lists := m.lists[p' := L(m, p)][p := []])
  }

  /** The clean list of CPU d that was being carried is lost. */
  function Lost(m: Mem, d: nat): Mem {
    m.(nodes := Rehomed(m.nodes, Moving(d), Nowhere), lists := m.lists[Moving(d) := []])
  }

  function Without(q: seq<nat>, v: nat): seq<nat> {
    if q == [] then [] else if q[0] == v then q[1..] else [q[0]] + Without(q[1..], v)
  }

  predicate Sized(m: Mem, n: nat) {
    && |m.chain| == |m.lock| == |m.holder| == |m.gone| > 0
    && |m.free| == |m.dirty| == |m.rinsing| == |m.clean| == |m.hand| == |m.mover| == |m.moving| == n
  }

  predicate Points(m: Mem, r: Ref) {
    r.At? && r.n < |m.nodes|
  }

  function SetNode(m: Mem, v: nat, nd: Node): Mem
    requires v < |m.nodes|
  {
    m.(nodes := m.nodes[v := nd])
  }

  /** The chunk leaves the hash chain: the previous chunk, or the bucket, now leads to nx. */
  function Unlinked(m: Mem, b: nat, v: nat, prev: Ref, nx: Ref): Mem
    requires v < |m.nodes| && b < |m.chain| && b < |m.gone| && (prev.At? ==> prev.n < |m.nodes|)
  {
    var m1 := if prev.At? then SetNode(m, prev.n, m.nodes[prev.n].(next := nx)) else m.(chain := m.chain[b := nx]);
    SetNode(m1, v, m1.nodes[v].(place := Gone(b), pend := Null)).(
      gone := m.gone[b := Some(v)], lists := m.lists[Chain(b) := Without(L(m, Chain(b)), v)])
  }

  function Dirtied(m: Mem, c: nat, k: Cpu): Mem
    requires Points(m, k.dvar) && k.d < |m.dirty| && c < |m.hand| && Bucket(m, k.key) < |m.gone|
  {
    var b := Bucket(m, k.key);
    SetNode(m, k.dvar.n, m.nodes[k.dvar.n].(place := Dirty(k.d))).(
      dirty := m.dirty[k.d := k.dvar], lists := m.lists[Dirty(k.d) := [k.dvar.n] + L(m, Dirty(k.d))],
      hand := if k.op.Alloc? then m.hand[c := None] else m.hand,
      gone := if k.op.Alloc? then m.gone else m.gone[b := None])
  }

  function Popped(m: Mem, c: nat, k: Cpu): Mem
    requires Points(m, k.dvar) && k.d < |m.free| && c < |m.hand|
  {
    var q := L(m, Free(k.d));
    SetNode(m, k.dvar.n, m.nodes[k.dvar.n].(place := Fresh(c))).(
      free := m.free[k.d := k.nx], hand := m.hand[c := Some(k.dvar.n)],
      lists := m.lists[Free(k.d) := if q == [] then [] else q[1..]])
  }

  function Published(m: Mem, c: nat, k: Cpu): Mem
    requires Points(m, k.dvar) && c < |m.hand| && Bucket(m, k.key) < |m.chain|
  {
    var b := Bucket(m, k.key);
    SetNode(m, k.dvar.n, m.nodes[k.dvar.n].(place := Chain(b), stamp := m.clock + 1)).(
      chain := m.chain[b := k.dvar], clock := m.clock + 1, hand := m.hand[c := None],
      lists := m.lists[Chain(b) := [k.dvar.n] + L(m, Chain(b))])
  }

  // ---------------------------------------------------------------- dtrace_dynvar

  predicate NeedsChunk(pc: Pc) {
    match pc
    case Compare | Follow | UnlinkRead | UnlinkStore | Marking | DirtyRead | DirtyLink | DirtyCas => true
    case FreeNext | FreePop | FillKey | FillMark | FillNext | Publish | Unmark => true
    case _ => false
  }

  /** The registers CPU c relies on point into memory; the invariant shows that they always do. */
  predicate Ready(m: Mem, n: nat, c: nat, k: Cpu) {
    && Sized(m, n) && c < n && k.d < n
    && (NeedsChunk(k.pc) ==> Points(m, k.dvar))
    && (k.pc.Visit? && k.dvar.At? ==> Points(m, k.dvar))
    && (k.pc.UnlinkStore? && k.prev.At? ==> Points(m, k.prev))
  }

  /** What CPU c's next step does to shared memory. */
  function GoMem(m: Mem, n: nat, c: nat, k: Cpu): Mem
    requires Ready(m, n, c, k)
  {
    var b := Bucket(m, k.key);
    match k.pc
    case LockCas =>
      if m.lock[b] == k.lk then m.(lock := m.lock[b := k.lk + 1], holder := m.holder[b := Some(c)]) else m
    case Miss => m.(lock := m.lock[b := m.lock[b] + 1], holder := m.holder[b := None])
    case UnlinkStore =>
      if k.prev.At? || m.chain[b] == k.start then Unlinked(m, b, k.dvar.n, k.prev, k.nx) else m
    case Marking => SetNode(m, k.dvar.n, m.nodes[k.dvar.n].(mark := Unused))
    case DirtyRead => SetNode(m, k.dvar.n, m.nodes[k.dvar.n].(pend := m.dirty[k.d]))
    case DirtyLink =>
      SetNode(m, k.dvar.n, m.nodes[k.dvar.n].(next := k.nx, place := if k.op.Alloc? then Fresh(c) else Going(b)))
    case DirtyCas => if m.dirty[k.d] == k.nx then Dirtied(m, c, k) else m
    case Unlock => m.(lock := m.lock[b := m.lock[b] + 1], holder := m.holder[b := None])
    case FreePop => if m.free[k.d] == k.dvar then Popped(m, c, k) else m
    case CleanCas =>
      if m.clean[k.d] == k.cl then
        Moved(m, Clean(k.d), Moving(k.d)).(
          clean := m.clean[k.d := Null], mover := m.mover[k.d := Some(c)], moving := m.moving[k.d := k.cl])
      else m
    case FreeSet =>
      if m.free[k.d] == Null then
        Moved(m, Moving(k.d), Free(k.d)).(
          free := m.free[k.d := k.cl], mover := m.mover[k.d := None], moving := m.moving[k.d := Null])
      else Lost(m, k.d).(mover := m.mover[k.d := None], moving := m.moving[k.d := Null])
    case FillKey => SetNode(m, k.dvar.n, m.nodes[k.dvar.n].(key := k.key))
    case FillMark => SetNode(m, k.dvar.n, m.nodes[k.dvar.n].(mark := Hash(k.key.h)))
    case FillNext => SetNode(m, k.dvar.n, m.nodes[k.dvar.n].(next := k.start))
    case Publish => if m.chain[b] == k.start then Published(m, c, k) else m
    case Unmark => SetNode(m, k.dvar.n, m.nodes[k.dvar.n].(mark := Unused))
    case _ => m
  }

  /** Where CPU c's next step takes it. */
  function GoCpu(m: Mem, n: nat, c: nat, k: Cpu, yes: bool): Cpu
    requires Ready(m, n, c, k)
  {
    var b := Bucket(m, k.key);
    match k.pc
    case Idle => k
    case Done(_) => k
    case LockRead => if m.lock[b] % 2 == 1 then k else k.(pc := LockCas, lk := m.lock[b])
    case LockCas => k.(pc := if m.lock[b] == k.lk then Top else LockRead)
    case Top => k.(pc := Head, lk := m.lock[b])
    case Head => k.(pc := Visit, start := m.chain[b], dvar := m.chain[b])
    case Visit => Visited(m, k)
    case Compare =>
      if m.nodes[k.dvar.n].key != k.key then k.(pc := Follow)
      else if k.op.Dealloc? then k.(pc := UnlinkRead)
      else Cleared(k, Done(k.dvar))
    case Follow => k.(pc := Visit, prev := k.dvar, dvar := m.nodes[k.dvar.n].next)
    case Check => if m.lock[b] != k.lk then Cleared(k, Top) else Cleared(k, Done(Null))
    case Miss => Cleared(k, Done(Null))
    case UnlinkRead => k.(pc := UnlinkStore, nx := m.nodes[k.dvar.n].next)
    case UnlinkStore =>
      if k.prev.At? || m.chain[b] == k.start then Cleared(k, Marking).(dvar := k.dvar) else Cleared(k, Top)
    case Marking => k.(pc := DirtyRead)
    case DirtyRead => k.(pc := DirtyLink, nx := m.dirty[k.d])
    case DirtyLink => k.(pc := DirtyCas)
    case DirtyCas =>
      if m.dirty[k.d] != k.nx then k.(pc := DirtyRead, nx := Null)
      else if k.op.Alloc? then Cleared(k, Top).(d := c)
      else Cleared(k, Unlock)
    case Unlock => Cleared(k, Done(Null))
    case FreeRead => if m.free[k.d] == Null then k.(pc := CleanRead) else k.(pc := FreeNext, dvar := m.free[k.d])
    case FreeNext => k.(pc := FreePop, nx := m.nodes[k.dvar.n].next)
    case FreePop =>
      if m.free[k.d] == k.dvar then k.(pc := FillKey, nx := Null) else k.(pc := FreeRead, dvar := Null, nx := Null)
    case CleanRead =>
      if m.clean[k.d] != Null then k.(pc := CleanCas, cl := m.clean[k.d])
      else if yes then k.(pc := FreeRead, d := (k.d + 1) % n)
      else Cleared(k, Done(Null))
    case CleanCas => if m.clean[k.d] == k.cl then k.(pc := FreeSet) else k.(pc := FreeRead, cl := Null)
    case FreeSet => k.(pc := FreeRead, cl := Null)
    case FillKey => k.(pc := FillMark)
    case FillMark => k.(pc := FillNext)
    case FillNext => k.(pc := Publish)
    case Publish => if m.chain[b] == k.start then Cleared(k, Done(k.dvar)) else k.(pc := Unmark)
    case Unmark => k.(pc := DirtyRead)
  }

  /** The walk looks at one chunk: NULL and a free marker send it back to the top. */
  function Visited(m: Mem, k: Cpu): Cpu
    requires k.dvar.At? ==> Points(m, k.dvar)
  {
    match k.dvar
    case Null => Cleared(k, Top)
    case Sink =>
      (match k.op
       case Alloc => k.(pc := FreeRead, dvar := Null, prev := Null)
       case NoAlloc => Cleared(k, Check)
       case Dealloc => Cleared(k, Miss))
    case At(v) =>
      if m.nodes[v].mark == Hash(k.key.h) then k.(pc := Compare)
      else if m.nodes[v].mark.Unused? then Cleared(k, Top)
      else k.(pc := Follow)
  }

  // ---------------------------------------------------------------- dtrace_dynvar_clean

  function CleanMem(m: Mem, n: nat): Mem
    requires Sized(m, n)
  {
    match m.cl
    case CIdle => m.(cl := CScan(0, false))
    case CScan(i, work) =>
      if i >= n then m.(cl := if work then CSync(Below(n)) else CIdle)
      else if m.dirty[i] == Null then m.(cl := CScan(i + 1, work))
      else m.(cl := CScanClean(i, work))
    case CScanClean(i, work) =>
      if i < n && m.clean[i] == Null then m.(cl := CRead(i)) else m.(cl := CScan(i + 1, work))
    case CRead(i) => if i < n then m.(cl := CSet(i, m.dirty[i])) else m
    case CSet(i, x) => if i < n then m.(cl := CGrab(i, x), rinsing := m.rinsing[i := x]) else m
    case CGrab(i, x) =>
      if i < n && m.dirty[i] == x then Moved(m, Dirty(i), Rinse(i)).(cl := CScan(i + 1, true),
          dirty := m.dirty[i := Null])
      else m.(cl := CRead(i))
    case CSync(waiting) => m.(cl := CRefill(0))
    case CRefill(i) =>
      if i >= n then m.(cl := CIdle)
      else if m.rinsing[i] == Null then m.(cl := CRefill(i + 1))
      else Moved(m, Rinse(i), Clean(i)).(cl := CDrop(i), clean := m.clean[i := m.rinsing[i]])
    case CDrop(i) => if i < n then m.(cl := CRefill(i + 1), rinsing := m.rinsing[i := Null]) else m
  }

  // ---------------------------------------------------------------- every step

  predicate Fit(s: State, st: Step) {
    && Sized(s.m, |s.cpus|) && Enabled(s, st)
    && (st.Go? ==> Ready(s.m, |s.cpus|, st.c, s.cpus[st.c]))
  }

  function Do(s: State, st: Step): State
    requires Fit(s, st)
  {
    var n := |s.cpus|;
    match st
    case Start(c, op, key) =>
      s.(cpus := s.cpus[c := Cpu(if op.Dealloc? then LockRead else Top, op, key, c, 0, Null, Null, Null, Null, Null)])
    case Go(c, yes) =>
      State(GoMem(s.m, n, c, s.cpus[c]), s.cpus[c := GoCpu(s.m, n, c, s.cpus[c], yes)])
    case Leave(c) => s.(cpus := s.cpus[c := Cleared(s.cpus[c], Idle)])
    case CleanGo => s.(m := CleanMem(s.m, n))
    case Ack(c) => s.(m := s.m.(cl := CSync(s.m.cl.waiting - {c})))
  }
}
