/**
 What every reachable state of the cyclic protocol satisfies: the queue each soft level still has to
 consume, the handshake of a resize, the stash of a removal, and the ledger of expiries against calls.
 */
module CyclicInvariant {
  import opened CyclicSystem
  import opened Counting

  /** Two soft levels of two buffers each. */
  predicate Shaped(s: State) {
    && |s.cpu.arrays| > 0 && |s.lvl| == 2
    && forall l :: 0 <= l < 2 ==> |s.lvl[l].b| == 2 && s.lvl[l].hard < 2 && s.lvl[l].soft < 2
  }

  // ---------------------------------------------------------------- the producer/consumer queue

  /** The entries of a buffer from absolute index `from` up to the producer index. */
  function Live(p: Pc, from: nat): seq<nat>
    requires from <= p.prod && |p.buf| > 0
  {
    seq<nat>(p.prod - from, i requires 0 <= i < p.prod - from => Entry(p, from + i))
  }

  /** The first entry not yet consumed: one past the consumer index once the entry there is finished with but
      the index has not been stored. */
  function Front(lv: Level): nat
    requires lv.soft < |lv.b|
  {
    lv.b[lv.soft].cons + if lv.th.pc.StoreCons? then 1 else 0
  }

  predicate BufShape(lv: Level) {
    && |lv.b| == 2 && lv.hard < 2 && lv.soft < 2
    && 0 < |lv.b[lv.hard].buf| && 0 < |lv.b[lv.soft].buf|
    && Front(lv) <= lv.b[lv.soft].prod
  }

  predicate BufOk(lv: Level, n: nat, cur: nat) {
    && BufShape(lv)
    && lv.b[lv.hard].live && lv.b[lv.soft].live
    && n == |lv.b[lv.hard].buf|
    && lv.b[lv.hard].gen == cur
    && (lv.soft != lv.hard ==> lv.b[lv.hard].cons == 0 && lv.b[lv.soft].gen + 1 == cur && 2 * |lv.b[lv.soft].buf| == n)
  }

  /** Everything level `lv` has still to consume, oldest first, across both of its buffers. */
  function Queue(lv: Level): seq<nat>
    requires BufShape(lv)
  {
    var older := Live(lv.b[lv.soft], Front(lv));
    if lv.soft == lv.hard then older else older + Live(lv.b[lv.hard], 0)
  }

  /** Slot k's expiries have been stashed by a removal that is still waiting for them to be delivered. */
  predicate Stashed(c: Cpu, m: Mod, k: nat) {
    (m.RCheck? || m.RWait?) && m.k == k && c.rpend > 0 && c.sem == 0
  }

  /** Slot k has undelivered expiries. */
  predicate Pending(c: Cpu, m: Mod, k: nat)
    requires |c.arrays| > 0 && k < |Cyc(c)|
  {
    Cyc(c)[k].pend > 0 || Stashed(c, m, k)
  }

  /** q holds exactly the slots of level l with undelivered expiries, each once. */
  predicate Exact(q: seq<nat>, l: nat, c: Cpu, m: Mod)
    requires |c.arrays| > 0
  {
    && NoDup(q)
    && (forall k :: k in q ==> k < |Cyc(c)| && Cyc(c)[k].level == l && Pending(c, m, k))
    && (forall k :: 0 <= k < |Cyc(c)| && Cyc(c)[k].level == l && Pending(c, m, k) ==> k in q)
  }

  /** What is left in a buffer a resize has retired refers to the old, smaller array. */
  predicate OlderOk(lv: Level)
    requires BufShape(lv)
  {
    lv.soft != lv.hard ==> forall k :: k in Live(lv.b[lv.soft], Front(lv)) ==> k < |lv.b[lv.soft].buf|
  }

  predicate QueueOk(lv: Level, l: nat, c: Cpu, m: Mod)
    requires |c.arrays| > 0 && BufOk(lv, |Cyc(c)|, Cur(c))
  {
    Exact(Queue(lv), l, c, m) && OlderOk(lv)
  }

  // ---------------------------------------------------------------- the activation of one soft level

  predicate InBuf(pc: At) {
    !(pc.Idle? || pc.Top? || pc.Load? || pc.AckRead? || pc.AckCas? || pc.Post?)
  }

  /** The activation has a current slot. */
  predicate Proc(pc: At) {
    pc.ReadHandler? || HasHandler(pc)
  }

  predicate HasHandler(pc: At) {
    pc.Call? || pc.InHandler? || Returned(pc) || pc.RemCall? || pc.RemIn?
  }

  /** The handler has returned but the call has not been taken off the pending count. */
  predicate Returned(pc: At) {
    pc.Reread? || pc.ReadState? || pc.Recapture? || pc.Cas? || pc.RemRead?
  }

  predicate InRemove(pc: At) {
    pc.RemRead? || pc.RemCall? || pc.RemIn?
  }

  predicate Busy(t: Thread) {
    !t.pc.Idle? && !t.pc.Post?
  }

  /** The activation's locals agree with its level's buffers. */
  predicate LocalOk(lv: Level)
    requires |lv.b| == 2 && lv.soft < 2 && |lv.b[lv.soft].buf| > 0
  {
    var t, p := lv.th, lv.b[lv.soft];
    && (InBuf(t.pc) ==> t.soft == lv.soft && t.cons == p.cons && t.size == |p.buf| && t.bgen == p.gen)
    && (t.pc.Load? ==> t.soft == lv.soft)
    && (t.pc.ReadSlot? || t.pc.StoreCons? || Proc(t.pc) ==> t.cons < p.prod)
    && (Proc(t.pc) ==> t.ndx == Entry(p, t.cons))
    && (t.pc.Grow? || t.pc.SetSoft? ==> lv.soft != lv.hard)
    && (t.pc.Grow? || t.pc.SetSoft? || (t.pc.CheckHard? && lv.soft != lv.hard) ==> t.cons == p.prod)
    && (t.pc.AckRead? || t.pc.AckCas? ==> t.resized)
    && (t.pc.Post? ==> t.lev <= 1)
    && (t.pc.RemIn? ==> t.left > 0)
  }

  /** The activation's cached array is the installed one, or the one a resize has just zeroed. */
  predicate Stale(t: Thread, lv: Level, c: Cpu, m: Mod)
    requires |c.arrays| > 0
  {
    t.arr + 1 == Cur(c) && m.EWait? && lv.soft != lv.hard
  }

  predicate ThreadOk(lv: Level, c: Cpu, m: Mod)
    requires |c.arrays| > 0
  {
    var t := lv.th;
    && (Busy(t) ==> t.arr == Cur(c) || Stale(t, lv, c, m))
    && (Proc(t.pc) ==> t.ndx < |Cyc(c)|)
    && (HasHandler(t.pc) ==> t.reg == Cyc(c)[t.ndx].reg)
    && (t.pc.ReadState? ==> t.arr != Cur(c) || Stashed(c, m, t.ndx))
    && (t.pc.Recapture? ==> t.arr != Cur(c))
    && (t.pc.SetSoft? ==> t.arr == Cur(c))
    && (InRemove(t.pc) ==> t.arr == Cur(c) && Stashed(c, m, t.ndx))
    && (t.pc.Cas? ==> 0 < t.pend && (t.arr == Cur(c) ==> Stashed(c, m, t.ndx) || t.pend <= Cyc(c)[t.ndx].pend))
    && (Busy(t) && t.intrResized && !t.resized ==> lv.soft != lv.hard && t.arr == Cur(c))
  }

  // ---------------------------------------------------------------- resize and removal

  /** Level `lv` has acknowledged the latest resize. */
  predicate Acked(lv: Level, c: Cpu)
    requires |c.arrays| > 0
  {
    lv.acks == Cur(c)
  }

  predicate HandOk(lv: Level, c: Cpu, m: Mod)
    requires |c.arrays| > 0
  {
    && (Acked(lv, c) || (lv.acks + 1 == Cur(c) && m.EWait?))
    && (lv.soft != lv.hard ==> !Acked(lv, c) && !(Busy(lv.th) && lv.th.resized))
    && (lv.soft == lv.hard && !Acked(lv, c) ==> Busy(lv.th) && lv.th.resized)
    && (Busy(lv.th) && lv.th.resized ==> !Acked(lv, c))
  }

  function B(p: bool): nat { if p then 1 else 0 }

  /** The activation is about to post the semaphore for a resize. */
  predicate LastPost(lv: Level) {
    lv.th.pc.Post? && lv.th.lev == 1
  }

  predicate SemOk(c: Cpu, m: Mod, l0: Level, l1: Level)
    requires |c.arrays| > 0
  {
    if m.EWait? then
      && c.levels == B(Acked(l0, c)) + B(Acked(l1, c))
      && c.sem + B(LastPost(l0)) + B(LastPost(l1)) == B(Acked(l0, c) && Acked(l1, c))
      && c.posts + 1 == Cur(c) + c.sem
    else
      && !LastPost(l0) && !LastPost(l1) && c.posts == Cur(c)
      && (c.sem > 0 ==> c.sem == 1 && (m.RCheck? || m.RWait?) && c.rpend > 0)
  }

  /** A resize's new buffer, allocated and not yet switched to. */
  predicate Fresh(lv: Level, c: Cpu)
    requires |c.arrays| > 0
  {
    |lv.b| == 2 && lv.hard < 2 && lv.b[1 - lv.hard].prod == lv.b[1 - lv.hard].cons == 0 && lv.b[1 - lv.hard].live
    && |lv.b[1 - lv.hard].buf| == 2 * |Cyc(c)| && lv.b[1 - lv.hard].gen == Cur(c) + 1
  }

  predicate ModOk(c: Cpu, m: Mod, l0: Level, l1: Level)
    requires |c.arrays| > 0
  {
    && c.state == (match m
                   case MIdle => Online
                   case EAlloc => Expanding case EXcall => Expanding case EWait => Expanding
                   case EFree => Expanding case EDone => Expanding
                   case _ => Removing)
    && (m.EXcall? ==> c.levels == 0 && Fresh(l0, c) && Fresh(l1, c))
    && (if m.EWait? || m.EFree? then c.freed + 1 == Cur(c) else c.freed == Cur(c))
    && (m.EFree? ==> c.levels == 2)
    && (c.rpend > 0 ==> m.RCheck? || m.RWait? || m.RClear?)
    && (m.RWait? ==> c.rpend > 0)
    && (m.RXcall? ==> m.k < |Cyc(c)| && !Cyc(c)[m.k].free)
    && (m.RCheck? || m.RWait? || m.RClear? || m.RDone? ==> m.k < |Cyc(c)| && Cyc(c)[m.k].free && 0 <= Cyc(c)[m.k].reg)
    && ((m.RCheck? || m.RWait?) && c.rpend > 0 ==> Cyc(c)[m.k].level < HIGH)
  }

  predicate CycOk(y: seq<Cyclic>) {
    forall k :: 0 <= k < |y| ==>
      && y[k].level <= HIGH && -1 <= y[k].reg
      && (y[k].free || y[k].level == HIGH ==> y[k].pend == 0)
      && (!y[k].free ==> 0 <= y[k].reg)
  }

  /** The array a resize has just replaced. */
  function Prev(c: Cpu): seq<Cyclic>
    requires |c.arrays| > 1
  {
    c.arrays[|c.arrays| - 2]
  }

  /** `before` is a zeroed copy of the lower half of `y`. */
  predicate Halved(before: seq<Cyclic>, y: seq<Cyclic>) {
    && 2 * |before| == |y|
    && forall k :: 0 <= k < |before| ==> before[k].pend == 0 && before[k].reg == y[k].reg
  }

  predicate OldOk(c: Cpu, m: Mod)
    requires |c.arrays| > 0
  {
    m.EWait? ==> |c.arrays| > 1 && Halved(Prev(c), Cyc(c))
  }

  // ---------------------------------------------------------------- the ledger

  /** Expiries of slot k that no completed handler call has answered yet. */
  function Debt(c: Cpu, m: Mod, lvl: seq<Level>, k: nat): int
    requires |c.arrays| > 0 && k < |Cyc(c)| && |lvl| == 2
  {
    var base := if Stashed(c, m, k) then c.rpend else Cyc(c)[k].pend;
    if Cyc(c)[k].level >= HIGH then base
    else
      var t := lvl[Cyc(c)[k].level].th;
      if t.ndx == k && (t.pc.RemCall? || t.pc.RemIn?) then t.left
      else if t.ndx == k && Returned(t.pc) then base - 1
      else base
  }

  predicate LedgerOk(c: Cpu, m: Mod, lvl: seq<Level>, exp: seq<nat>, calls: seq<nat>)
    requires |c.arrays| > 0 && |lvl| == 2
  {
    var y := Cyc(c);
    && |exp| == |calls|
    && (forall k :: 0 <= k < |y| && 0 <= y[k].reg ==>
          y[k].reg < |exp| && exp[y[k].reg] == calls[y[k].reg] + Debt(c, m, lvl, k))
    && (forall j, k :: 0 <= j < k < |y| && 0 <= y[j].reg ==> y[j].reg != y[k].reg)
    && (forall r :: 0 <= r < |exp| && exp[r] != calls[r] ==> Holds(y, r))
  }

  /** Some slot still holds registration r. */
  predicate Holds(y: seq<Cyclic>, r: int) {
    exists k :: 0 <= k < |y| && y[k].reg == r
  }

  // ---------------------------------------------------------------- no lost wakeup

  /** The running activation of `lv` will look at the producer index again. */
  predicate WillDrain(lv: Level) {
    Busy(lv.th) && !lv.th.pc.AckRead? && !lv.th.pc.AckCas? && (lv.th.pc.CheckHard? ==> lv.soft != lv.hard)
  }

  predicate WakeOk(lv: Level, l: nat, c: Cpu, m: Mod, lock: Level)
    requires |c.arrays| > 0 && BufOk(lv, |Cyc(c)|, Cur(c))
  {
    && (Queue(lv) != [] ==> lv.posted || WillDrain(lv))
    && (!Acked(lv, c) ==>
        lv.posted || Busy(lv.th) || (l == LOW && (!Acked(lock, c) || (lock.th.pc.Post? && lock.th.lev == 0))))
  }

  // ---------------------------------------------------------------- the invariant

  predicate ActOk(lv: Level, c: Cpu, m: Mod)
    requires |c.arrays| > 0 && BufShape(lv)
  {
    LocalOk(lv) && ThreadOk(lv, c, m) && HandOk(lv, c, m)
  }

  predicate LevelOk(lv: Level, l: nat, c: Cpu, m: Mod, lock: Level)
    requires |c.arrays| > 0
  {
    && BufOk(lv, |Cyc(c)|, Cur(c)) && QueueOk(lv, l, c, m)
    && ActOk(lv, c, m) && WakeOk(lv, l, c, m, lock)
  }

  predicate Inv(s: State) {
    && |s.cpu.arrays| > 0 && |s.lvl| == 2
    && LevelOk(s.lvl[0], 0, s.cpu, s.mod, s.lvl[1])
    && LevelOk(s.lvl[1], 1, s.cpu, s.mod, s.lvl[1])
    && SemOk(s.cpu, s.mod, s.lvl[0], s.lvl[1])
    && ModOk(s.cpu, s.mod, s.lvl[0], s.lvl[1])
    && CycOk(Cyc(s.cpu)) && OldOk(s.cpu, s.mod)
    && LedgerOk(s.cpu, s.mod, s.lvl, s.exp, s.calls)
  }

  lemma InitInv()
    ensures Inv(Init())
  {
  }
}
