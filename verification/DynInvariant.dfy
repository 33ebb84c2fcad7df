/** What every reachable state of the dynamic-variable hash satisfies. */
module DynInvariant {
  import opened Options
  import opened Counting
  import opened DynSystem

  // ---------------------------------------------------------------- lists

  /** While the cleaner is grabbing CPU i's dirty list, or has just handed over its rinsing list, the rinsing pointer
      of CPU i does not count. */
  predicate Stale(cl: Cleaner, d: nat) {
    (cl.CRead? || cl.CSet? || cl.CGrab? || cl.CDrop?) && cl.i == d
  }

  /** The pointer a list starts from. */
  function HeadOf(m: Mem, p: Place): Ref {
    match p
    case Free(d) => if d < |m.free| then m.free[d] else Null
    case Clean(d) => if d < |m.clean| then m.clean[d] else Null
    case Dirty(d) => if d < |m.dirty| then m.dirty[d] else Null
    case Rinse(d) => if d < |m.rinsing| && !Stale(m.cl, d) then m.rinsing[d] else Null
    case Moving(d) => if d < |m.moving| then m.moving[d] else Null
    case Chain(b) => if b < |m.chain| then m.chain[b] else Sink
    case _ => Null
  }

  function EndOf(p: Place): Ref {
    if p.Chain? then Sink else Null
  }

  predicate IsList(p: Place) {
    !(p.Fresh? || p.Gone? || p.Going? || p.Nowhere?)
  }

  function Nth(q: seq<nat>, i: nat, end: Ref): Ref {
    if i < |q| then At(q[i]) else end
  }

  /** The chunks of q are linked in order, all at p. */
  predicate Linked(nodes: seq<Node>, p: Place, q: seq<nat>) {
    && NoDup(q)
    && (forall i :: 0 <= i < |q| ==>
        q[i] < |nodes| && nodes[q[i]].place == p && nodes[q[i]].next == Nth(q, i + 1, EndOf(p)))
  }

  /** Newer publications come first. */
  predicate Newest(nodes: seq<Node>, q: seq<nat>) {
    forall i, j :: 0 <= i < j < |q| && q[i] < |nodes| && q[j] < |nodes| ==> nodes[q[i]].stamp > nodes[q[j]].stamp
  }

  predicate ListOk(m: Mem, p: Place) {
    var q := L(m, p);
    && (IsList(p) ==> HeadOf(m, p) == Nth(q, 0, EndOf(p)) && Linked(m.nodes, p, q))
    && (p.Chain? ==> Newest(m.nodes, q))
    && (!IsList(p) ==> q == [])
  }

  // ---------------------------------------------------------------- chunks

  predicate Swept(p: Place) {
    p.Dirty? || p.Rinse?
  }

  /** NULL, or a chunk on a dirty or rinsing list. */
  predicate Sweeping(nodes: seq<Node>, r: Ref) {
    r.Null? || (r.At? && r.n < |nodes| && Swept(nodes[r.n].place))
  }

  function StampOf(nodes: seq<Node>, r: Ref): nat {
    if r.At? && r.n < |nodes| then nodes[r.n].stamp else 0
  }

  /** The next pointer of a chunk taken off chain b still leads to what follows it there. */
  predicate Follows(nodes: seq<Node>, b: nat, v: nat)
    requires v < |nodes|
  {
    var z := nodes[v].next;
    && (z.Sink? || (z.At? && z.n < |nodes| && nodes[z.n].place == Chain(b) && nodes[z.n].stamp < nodes[v].stamp))
    && (forall y :: 0 <= y < |nodes| && nodes[y].place == Chain(b) && nodes[y].stamp < nodes[v].stamp ==>
          nodes[y].stamp <= StampOf(nodes, z))
    && (forall y :: 0 <= y < |nodes| && nodes[y].place == Chain(b) && nodes[y].stamp == nodes[v].stamp ==> y == v)
  }

  predicate MarkOk(nd: Node, nb: nat) {
    match nd.place
    case Chain(b) => nb > 0 && nd.mark == Hash(nd.key.h) && nd.key.h % nb == b
    case Gone(b) => nb > 0 && (nd.mark == Hash(nd.key.h) || nd.mark.Unused?) && nd.key.h % nb == b
    case Fresh(_) => true
    case _ => nd.mark.Unused?
  }

  predicate NodeOk(m: Mem, v: nat)
    requires v < |m.nodes|
  {
    var nd := m.nodes[v];
    && MarkOk(nd, |m.chain|)
    && nd.stamp <= m.clock && (nd.place.Chain? || nd.place.Gone? ==> nd.stamp > 0)
    && (IsList(nd.place) ==> v in L(m, nd.place))
    && (nd.place.Gone? ==> Follows(m.nodes, nd.place.b, v) && Sweeping(m.nodes, nd.pend))
    && (nd.place.Going? ==> Sweeping(m.nodes, nd.next) && Sweeping(m.nodes, nd.pend))
    && (nd.place.Gone? || nd.place.Going? ==> nd.place.b < |m.gone| && m.gone[nd.place.b] == Some(v))
    && (nd.place.Fresh? ==> nd.place.c < |m.hand| && m.hand[nd.place.c] == Some(v))
  }

  /** No key is on its chain twice. */
  predicate Unique(nodes: seq<Node>) {
    forall v, w :: 0 <= v < |nodes| && 0 <= w < |nodes| && nodes[v].place.Chain? && nodes[w].place == nodes[v].place &&
                   nodes[v].key == nodes[w].key ==>
                       v == w
  }

  // ---------------------------------------------------------------- buckets, cleaner

  predicate BucketOk(m: Mem, b: nat)
    requires b < |m.lock| && b < |m.holder| && b < |m.gone|
  {
    && (m.lock[b] % 2 == 1 <==> m.holder[b].Some?)
    && (m.gone[b].Some? ==>
          && m.holder[b].Some?
          && m.gone[b].v < |m.nodes| && (m.nodes[m.gone[b].v].place == Gone(b) ||
              m.nodes[m.gone[b].v].place == Going(b)))
  }

  /** CPU d's rinsing list waits to become its clean list. */
  predicate Pending(m: Mem, d: nat) {
    L(m, Rinse(d)) != []
  }

  predicate ListsOk(m: Mem, d: nat)
    requires Sized(m, |m.hand|) && d < |m.hand|
  {
    && (m.mover[d].Some? ==> m.clean[d] == Null && m.moving[d].At?)
    && (m.mover[d].None? ==> m.moving[d] == Null)
    && (Pending(m, d) ==> m.clean[d] == Null)
    && (m.hand[d].Some? ==> m.hand[d].v < |m.nodes| && m.nodes[m.hand[d].v].place == Fresh(d))
    && (match m.cl
        case CIdle => !Pending(m, d)
        case CScan(i, work) => (d >= i ==> !Pending(m, d)) && (Pending(m, d) ==> work)
        case CScanClean(i, work) => (d >= i ==> !Pending(m, d)) && (Pending(m, d) ==> work)
        case CRead(i) => (d >= i ==> !Pending(m, d)) && (d == i ==> m.clean[d] == Null)
        case CSet(i, _) => (d >= i ==> !Pending(m, d)) && (d == i ==> m.clean[d] == Null)
        case CGrab(i, x) => (d >= i ==> !Pending(m, d)) && (d == i ==> m.clean[d] == Null && m.rinsing[d] == x)
        case CSync(_) => true
        case CRefill(i) => d < i ==> !Pending(m, d)
        case CDrop(i) => d <= i ==> !Pending(m, d))
  }

  predicate ClOk(m: Mem, n: nat) {
    match m.cl
    case CScan(i, _) => i <= n
    case CScanClean(i, _) => i < n
    case CRead(i) => i < n
    case CSet(i, _) => i < n
    case CGrab(i, _) => i < n
    case CRefill(i) => i <= n
    case CDrop(i) => i < n
    case _ => true
  }

  ghost predicate MemOk(m: Mem, n: nat) {
    && Sized(m, n) && ClOk(m, n)
    && (forall p :: ListOk(m, p))
    && (forall v :: 0 <= v < |m.nodes| ==> NodeOk(m, v))
    && Unique(m.nodes)
    && (forall b :: 0 <= b < |m.lock| ==> BucketOk(m, b))
    && (forall d :: 0 <= d < n ==> ListsOk(m, d))
  }

  // ---------------------------------------------------------------- CPUs

  /** CPU c has been outside probe context since the cleaner put the rinsing lists aside. */
  predicate Safe(m: Mem, c: nat) {
    (m.cl.CSync? && c !in m.cl.waiting) || m.cl.CRefill? || m.cl.CDrop?
  }

  /** What a reference held by a CPU walking chain b may lead to. */
  predicate Seen(nodes: seq<Node>, b: nat, r: Ref) {
    r.At? ==>
      r.n < |nodes| && (nodes[r.n].place == Chain(b) || nodes[r.n].place == Gone(b) ||
                        nodes[r.n].place == Going(b) || Swept(nodes[r.n].place))
  }

  /** The same for a chunk once read from CPU d's free list: it may since have been taken. */
  predicate Taken(nodes: seq<Node>, d: nat, r: Ref) {
    r.At? && r.n < |nodes| && !nodes[r.n].place.Clean? && !nodes[r.n].place.Moving? && !nodes[r.n].place.Nowhere? &&
        (nodes[r.n].place.Free? ==> nodes[r.n].place.d == d)
  }

  predicate NotRinsed(nodes: seq<Node>, r: Ref) {
    r.At? && r.n < |nodes| ==> !nodes[r.n].place.Rinse?
  }

  /** Every chunk of chain b with this key that was there when the walk began is at or after r. */
  predicate Ahead(nodes: seq<Node>, b: nat, k: Cpu, r: Ref) {
    forall y :: 0 <= y < |nodes| && nodes[y].place == Chain(b) && nodes[y].key == k.key &&
                nodes[y].stamp <= StampOf(nodes, k.start) ==>
      nodes[y].stamp <= StampOf(nodes, r)
  }

  predicate Walking(pc: Pc) {
    pc.Visit? || pc.Compare? || pc.Follow? || pc.UnlinkRead? || pc.UnlinkStore?
  }

  predicate Sweeps(pc: Pc) {
    pc.DirtyRead? || pc.DirtyLink? || pc.DirtyCas?
  }

  predicate Filling(pc: Pc) {
    pc.FillKey? || pc.FillMark? || pc.FillNext? || pc.Publish? || pc.Unmark?
  }

  /** CPU c is allocating: it has found the end of the chain. */
  predicate Allocating(pc: Pc) {
    pc.FreeRead? || pc.FreeNext? || pc.FreePop? || pc.CleanRead? || pc.CleanCas? || pc.FreeSet? || Filling(pc)
  }

  predicate Holding(k: Cpu) {
    k.op.Dealloc? && !(k.pc.Idle? || k.pc.LockRead? || k.pc.LockCas? || k.pc.Done?)
  }

  predicate HasHand(k: Cpu) {
    Filling(k.pc) || (Sweeps(k.pc) && k.op.Alloc?)
  }

  predicate HasGone(k: Cpu) {
    k.pc.Marking? || (Sweeps(k.pc) && k.op.Dealloc?)
  }

  /** Which operations reach which points. */
  predicate Shape(k: Cpu) {
    && (k.pc.LockRead? || k.pc.LockCas? || k.pc.Miss? || k.pc.UnlinkRead? || k.pc.UnlinkStore? || k.pc.Marking? ||
        k.pc.Unlock? ==>
          k.op.Dealloc?)
    && (Allocating(k.pc) ==> k.op.Alloc?)
    && (Sweeps(k.pc) ==> !k.op.NoAlloc?)
    && (k.pc.Check? ==> k.op.NoAlloc?) && (k.pc.LockCas? ==> k.lk % 2 == 0)
    && (k.pc.Idle? || k.pc.LockRead? || k.pc.LockCas? || k.pc.Top? || k.pc.Head? || k.pc.Check? || k.pc.Miss? ||
        k.pc.Unlock? || k.pc.Done?
        ==> k.start == Null && k.dvar == Null && k.prev == Null && k.nx == Null)
  }

  /** The walk of chain b. */
  predicate WalkOk(m: Mem, b: nat, k: Cpu) {
    Walking(k.pc) ==>
      && Seen(m.nodes, b, k.start) && !k.start.Null? && Seen(m.nodes, b, k.dvar) && Seen(m.nodes, b, k.prev)
      && (k.pc.Visit? || k.dvar.At?) && (k.pc.UnlinkStore? || k.nx == Null)
      && (k.pc.Visit? && k.dvar.Sink? ==> Ahead(m.nodes, b, k, Sink))
      && (k.dvar.At? && (m.nodes[k.dvar.n].place == Chain(b) || m.nodes[k.dvar.n].place == Gone(b)) ==>
          Ahead(m.nodes, b, k, k.dvar))
      && (k.pc.Follow? ==> m.nodes[k.dvar.n].key != k.key)
      && (k.pc.UnlinkRead? || k.pc.UnlinkStore? ==> m.nodes[k.dvar.n].key == k.key)
  }

  /** A deallocating walk holds the bucket's lock, so the chain only grows under it. */
  predicate LockedOk(m: Mem, b: nat, c: nat, k: Cpu) {
    Holding(k) && b < |m.holder| && b < |m.gone| && b < |m.lock| ==>
      && m.holder[b] == Some(c)
      && (!k.pc.Top? ==> k.lk == m.lock[b])
      && (HasGone(k) <==> m.gone[b].Some?)
      && (Walking(k.pc) ==>
            && !k.dvar.Null? && !k.prev.Sink?
            && (k.dvar.At? ==> k.dvar.n < |m.nodes| && m.nodes[k.dvar.n].place == Chain(b))
            && (k.prev.Null? ==> k.dvar == k.start)
            && (k.prev.At? ==>
                k.prev.n < |m.nodes| && m.nodes[k.prev.n].place == Chain(b) && m.nodes[k.prev.n].next == k.dvar)
            && (k.pc.UnlinkStore? && k.dvar.At? && k.dvar.n < |m.nodes| ==> k.nx == m.nodes[k.dvar.n].next))
  }

  /** A chunk in hand, on its way to a chain or to a dirty list. */
  predicate HandOk(m: Mem, b: nat, c: nat, k: Cpu)
    requires c < |m.hand|
  {
    && (HasHand(k) <==> m.hand[c].Some?)
    && (HasHand(k) ==> k.dvar.At? && m.hand[c] == Some(k.dvar.n))
    && (HasGone(k) ==> k.dvar.At? && b < |m.gone| && m.gone[b] == Some(k.dvar.n))
    && (HasHand(k) || HasGone(k) ==> Points(m, k.dvar))
    && (k.pc.Marking? ==> Points(m, k.dvar) && m.nodes[k.dvar.n].place == Gone(b))
    && (Sweeps(k.pc) && Points(m, k.dvar) ==>
          && m.nodes[k.dvar.n].mark.Unused?
          && (!k.pc.DirtyRead? ==> m.nodes[k.dvar.n].pend == k.nx && Sweeping(m.nodes, k.nx))
          && (k.pc.DirtyCas? ==>
              m.nodes[k.dvar.n].next == k.nx && (k.op.Dealloc? ==> m.nodes[k.dvar.n].place == Going(b))))
    && (Filling(k.pc) && Points(m, k.dvar) ==>
          && (k.pc.FillKey? || k.pc.FillMark? ==> m.nodes[k.dvar.n].mark.Unused?)
          && (!k.pc.FillKey? ==> m.nodes[k.dvar.n].key == k.key)
          && (k.pc.FillNext? || k.pc.Publish? ==> m.nodes[k.dvar.n].mark == Hash(k.key.h))
          && (k.pc.Publish? ==> m.nodes[k.dvar.n].next == k.start))
  }

  /** An allocation: the chunk popped, or the clean list carried to the free list. */
  predicate AllocOk(m: Mem, b: nat, c: nat, k: Cpu)
    requires k.d < |m.clean| && k.d < |m.free| && k.d < |m.mover| && k.d < |m.moving|
  {
    && (Allocating(k.pc) ==>
        Seen(m.nodes, b, k.start) && !k.start.Null? && k.prev == Null && Ahead(m.nodes, b, k, Sink))
    && (Allocating(k.pc) && !k.pc.FreePop? ==> k.nx == Null)
    && (Allocating(k.pc) && !k.pc.FreeNext? && !k.pc.FreePop? && !Filling(k.pc) ==> k.dvar == Null)
    && (k.pc.FreeNext? || k.pc.FreePop? ==> Taken(m.nodes, k.d, k.dvar))
    && (k.pc.FreePop? && Points(m, k.dvar) && m.nodes[k.dvar.n].place == Free(k.d) ==> m.nodes[k.dvar.n].next == k.nx)
    && (k.pc.CleanCas? ==> k.cl != Null)
    && (k.pc.FreeSet? ==> m.mover[k.d] == Some(c) && m.moving[k.d] == k.cl)
  }

  /** The CPU looks at, or has in hand, a chunk that may be on its way to a dirty list. */
  predicate Watches(k: Cpu) {
    Walking(k.pc) || HasGone(k)
  }

  /** What the cleaner's wait buys: a CPU that has been outside probe context since holds no rinsing chunk, cannot
      reach one, and carries no clean list whose place a rinsing list is about to take. */
  predicate SafeOk(m: Mem, b: nat, c: nat, k: Cpu) {
    Safe(m, c) ==>
      && NotRinsed(m.nodes, k.start) && NotRinsed(m.nodes, k.dvar) && NotRinsed(m.nodes, k.prev)
      && (!k.pc.FreePop? ==> NotRinsed(m.nodes, k.nx))
      && (Watches(k) && Points(m, k.dvar) && (m.nodes[k.dvar.n].place == Gone(b) ||
          m.nodes[k.dvar.n].place == Going(b)) ==>
            NotRinsed(m.nodes, m.nodes[k.dvar.n].pend))
      && (Watches(k) && Points(m, k.dvar) && m.nodes[k.dvar.n].place == Going(b) ==>
          NotRinsed(m.nodes, m.nodes[k.dvar.n].next))
      && (k.pc.CleanCas? || k.pc.FreeSet? ==> !Pending(m, k.d))
  }

  /** Between calls nothing is held. */
  predicate CpuOk(m: Mem, n: nat, c: nat, k: Cpu) {
    var b := Bucket(m, k.key);
    && Sized(m, n) && c < n && k.d < n && Shape(k)
    && WalkOk(m, b, k) && LockedOk(m, b, c, k) && HandOk(m, b, c, k) && AllocOk(m, b, c, k) && SafeOk(m, b, c, k)
  }

  /** A held lock belongs to a CPU deallocating in its bucket, and a carried clean list to a CPU carrying it. */
  predicate HolderOk(m: Mem, cpus: seq<Cpu>) {
    && (forall b :: 0 <= b < |m.holder| && m.holder[b].Some? ==>
          m.holder[b].v < |cpus| && Holding(cpus[m.holder[b].v]) && Bucket(m, cpus[m.holder[b].v].key) == b)
    && (forall d :: 0 <= d < |m.mover| && m.mover[d].Some? ==>
          m.mover[d].v < |cpus| && cpus[m.mover[d].v].pc.FreeSet? && cpus[m.mover[d].v].d == d)
  }

  ghost predicate Inv(s: State) {
    && MemOk(s.m, |s.cpus|) && HolderOk(s.m, s.cpus)
    && (forall c :: 0 <= c < |s.cpus| ==> CpuOk(s.m, |s.cpus|, c, s.cpus[c]))
  }
}
