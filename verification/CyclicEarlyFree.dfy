/** A resize that frees the old array and buffers without waiting: exactly when a softint can come to read them. */
module CyclicEarlyFree {
  import opened CyclicSystem
  import opened CyclicInvariant
  import opened CyclicWrites
  import opened CyclicNoWait

  /** The old array and buffers are freed while the resize may not have been acknowledged. */
  function FreedEarly(s: State): State
    requires |s.cpu.arrays| > 0 && |s.lvl| == 2 && forall l :: 0 <= l < 2 ==> |s.lvl[l].b| == 2 && s.lvl[l].hard < 2
  {
    s.(cpu := s.cpu.(freed := Cur(s.cpu)), lvl := [Freed(s.lvl[0]), Freed(s.lvl[1])], mod := EDone)
  }

  /** The level has switched buffers, or has consumed all of the old one. */
  predicate Drained(lv: Level) {
    lv.soft == lv.hard || (lv.soft < |lv.b| && Front(lv) == lv.b[lv.soft].prod)
  }

  // ---------------------------------------------------------------- what follows, up to the next resize

  /** Any step but the start of another resize; waits are passed. */
  predicate LinuxEnabled(s: State, st: Step) {
    !st.ExpandBegin? && if st.Modify? && s.mod.RWait? then Shaped(s) else Enabled(s, st)
  }

  function LinuxDo(s: State, st: Step): State
    requires LinuxEnabled(s, st)
  {
    if st.Modify? && s.mod.RWait? then PassWait(s) else Do(s, st)
  }

  ghost predicate LinuxRun(tr: seq<State>, ss: seq<Step>) {
    && |tr| == |ss| + 1
    && forall i :: 0 <= i < |ss| ==> LinuxEnabled(tr[i], ss[i]) && tr[i + 1] == LinuxDo(tr[i], ss[i])
  }

  /** The activation at level l is about to read freed memory or outside an array. */
  predicate Astray(s: State, l: nat) {
    l < |s.lvl| && !s.lvl[l].th.pc.Idle? && !SoftEnabled(s.cpu, s.lvl[l], |s.calls|)
  }

  ghost predicate GoesAstray(s: State, tr: seq<State>, ss: seq<Step>, l: nat) {
    LinuxRun(tr, ss) && tr[0] == s && Astray(tr[|ss|], l)
  }

  // ---------------------------------------------------------------- drained buffers: no activation ever goes astray

  predicate SlotOk(c: Cpu, regs: nat, k: nat)
    requires |c.arrays| > 0
  {
    k < |Cyc(c)| && 0 <= Cyc(c)[k].reg < regs
  }

  /** Whatever is still to be read from the active buffer is a slot that has been in use. */
  predicate EntriesOk(lv: Level, c: Cpu, regs: nat)
    requires |c.arrays| > 0 && |lv.b| == 2 && lv.hard < 2 && lv.soft < 2
  {
    && 0 < |lv.b[lv.hard].buf| && lv.b[lv.hard].live && Front(lv) <= lv.b[lv.soft].prod
    && (lv.soft != lv.hard ==> lv.b[lv.hard].cons == 0)
    && forall i :: (if lv.soft == lv.hard then Front(lv) else 0) <= i < lv.b[lv.hard].prod ==>
        SlotOk(c, regs, Entry(lv.b[lv.hard], i))
  }

  predicate LocalsOk(lv: Level, c: Cpu, regs: nat)
    requires |c.arrays| > 0 && |lv.b| == 2 && lv.hard < 2 && lv.soft < 2
  {
    var t, p := lv.th, lv.b[lv.soft];
    && (InBuf(t.pc) ==> t.soft == lv.soft && t.cons == p.cons && t.size == |p.buf| && t.bgen == p.gen)
    && (t.pc.Load? ==> t.soft == lv.soft)
    && (t.pc.ReadSlot? || Proc(t.pc) ==> lv.soft == lv.hard && t.cons < p.prod)
    && (t.pc.Grow? || t.pc.SetSoft? ==> lv.soft != lv.hard)
    && (Busy(t) && (lv.soft == lv.hard || t.pc.SetSoft?) ==> t.arr == Cur(c))
    && (Proc(t.pc) ==> SlotOk(c, regs, t.ndx))
    && (HasHandler(t.pc) ==> 0 <= t.reg < regs)
    && (t.pc.RemIn? ==> t.left > 0)
  }

  predicate LevelSafe(lv: Level, c: Cpu, regs: nat)
    requires |c.arrays| > 0
  {
    |lv.b| == 2 && lv.hard < 2 && lv.soft < 2 && EntriesOk(lv, c, regs) && LocalsOk(lv, c, regs) && Drained(lv)
  }

  predicate Safe(s: State) {
    && |s.cpu.arrays| > 0 && |s.lvl| == 2 && s.cpu.freed == Cur(s.cpu) && |s.exp| == |s.calls|
    && !s.mod.EAlloc? && !s.mod.EXcall? && !s.mod.EWait? && !s.mod.EFree?
    && LevelSafe(s.lvl[0], s.cpu, |s.calls|) && LevelSafe(s.lvl[1], s.cpu, |s.calls|)
  }

  lemma SafeAccess(s: State, l: nat)
    requires Safe(s)
    ensures !Astray(s, l)
  {
    hide EntriesOk;
    if l < 2 {
      assert LevelSafe(s.lvl[l], s.cpu, |s.calls|);
      BufferLive(s.lvl[l], s.cpu, |s.calls|);
    }
  }

  lemma BufferLive(lv: Level, c: Cpu, regs: nat)
    requires |c.arrays| > 0 && LevelSafe(lv, c, regs)
    ensures lv.b[lv.hard].live && 0 < |lv.b[lv.hard].buf|
  {
  }

  /** A change of the shared state that a level does not notice. */
  predicate SameSlots(c: Cpu, regs: nat, c': Cpu, regs': nat) {
    && |c.arrays| == |c'.arrays| > 0 && |Cyc(c')| == |Cyc(c)| && regs <= regs'
    && forall k :: 0 <= k < |Cyc(c)| && SlotOk(c, regs, k) ==> SlotOk(c', regs', k)
  }

  lemma LevelStays(lv: Level, c: Cpu, regs: nat, c': Cpu, regs': nat)
    requires |c.arrays| > 0 && LevelSafe(lv, c, regs) && SameSlots(c, regs, c', regs')
    ensures LevelSafe(lv, c', regs') && LevelSafe(lv.(posted := true), c', regs')
  {
    hide Entry;
  }

  lemma SameArrays(lv: Level, c: Cpu, regs: nat, c': Cpu)
    requires |c.arrays| > 0 && LevelSafe(lv, c, regs) && c'.arrays == c.arrays
    ensures LevelSafe(lv, c', regs)
  {
    hide Entry;
  }

  lemma PushedEntry(p: Pc, k: nat, i: nat)
    requires |p.buf| > 0 && i <= p.prod
    ensures Entry(Push(p, k), i) == k || (i < p.prod && Entry(Push(p, k), i) == Entry(p, i))
  {
  }

  lemma PushedLevel(lv: Level, c: Cpu, regs: nat, k: nat)
    requires |c.arrays| > 0 && LevelSafe(lv, c, regs) && SlotOk(c, regs, k)
    ensures |lv.b[lv.hard].buf| > 0
    ensures LevelSafe(lv.(b := lv.b[lv.hard := Push(lv.b[lv.hard], k)], posted := true), c, regs)
  {
    hide Entry;
    var p := lv.b[lv.hard];
    var lv' := lv.(b := lv.b[lv.hard := Push(p, k)], posted := true);
    forall i | (if lv.soft == lv.hard then Front(lv) else 0) <= i < lv'.b[lv.hard].prod
      ensures SlotOk(c, regs, Entry(lv'.b[lv.hard], i))
    {
      PushedEntry(p, k, i);
    }
  }

  lemma ExpireSafe(s: State, k: nat)
    requires Safe(s) && Enabled(s, Expire(k))
    ensures Safe(DoExpire(s, k))
  {
    hide LevelSafe, Push;
    var s' := DoExpire(s, k);
    var y, c, c' := Cyc(s.cpu)[k], s.cpu, s'.cpu;
    assert SameSlots(c, |s.calls|, c', |s'.calls|);
    forall l | 0 <= l < 2
      ensures LevelSafe(s'.lvl[l], c', |s'.calls|)
    {
      if y.level == l && y.pend == 0 {
        PushedLevel(s.lvl[l], c, |s.calls|, k);
        LevelStays(s.lvl[l].(b := s.lvl[l].b[s.lvl[l].hard := Push(s.lvl[l].b[s.lvl[l].hard], k)], posted := true), c,
            |s.calls|, c', |s'.calls|);
      } else {
        LevelStays(s.lvl[l], c, |s.calls|, c', |s'.calls|);
      }
    }
  }

  // ---------------------------------------------------------------- the activation's own steps

  /** New locals, and at most the current entry finished with. */
  lemma NewLocals(lv: Level, c: Cpu, regs: nat, t: Thread)
    requires |c.arrays| > 0 && LevelSafe(lv, c, regs) && LocalsOk(lv.(th := t), c, regs)
    requires t.pc.StoreCons? == lv.th.pc.StoreCons? || (t.pc.StoreCons? && Proc(lv.th.pc))
    ensures LevelSafe(lv.(th := t), c, regs)
  {
    hide Entry, SlotOk;
  }

  lemma HandlerLocals(lv: Level, c: Cpu, regs: nat)
    requires |c.arrays| > 0 && LevelSafe(lv, c, regs) && c.freed == Cur(c) && SoftEnabled(c, lv, regs) &&
        OnlyReads(c, lv)
    requires Proc(lv.th.pc) && (lv.th.pc.Recapture? ==> SlotOk(c, regs, Entry(lv.b[lv.hard], lv.th.cons)))
    ensures LocalsOk(lv.(th := Look(c, lv, regs)), c, regs)
  {
    hide Entry, EntriesOk, Drained;
  }

  lemma ScanLocals(lv: Level, c: Cpu, regs: nat)
    requires |c.arrays| > 0 && LevelSafe(lv, c, regs) && c.freed == Cur(c) && SoftEnabled(c, lv, regs) &&
        OnlyReads(c, lv)
    requires !Proc(lv.th.pc) && (lv.th.pc.ReadSlot? ==> SlotOk(c, regs, Entry(lv.b[lv.hard], lv.th.cons)))
    requires Front(lv) <= lv.b[lv.soft].prod
    ensures LocalsOk(lv.(th := Look(c, lv, regs)), c, regs)
  {
    hide Entry, EntriesOk, SlotOk;
  }

  lemma LookLocals(lv: Level, c: Cpu, regs: nat)
    requires |c.arrays| > 0 && LevelSafe(lv, c, regs) && c.freed == Cur(c) && SoftEnabled(c, lv, regs) &&
        OnlyReads(c, lv)
    requires lv.th.pc.ReadSlot? || lv.th.pc.Recapture? ==> SlotOk(c, regs, Entry(lv.b[lv.hard], lv.th.cons))
    requires Front(lv) <= lv.b[lv.soft].prod
    ensures LocalsOk(lv.(th := Look(c, lv, regs)), c, regs)
  {
    hide Look, OnlyReads, SoftEnabled, LevelSafe, LocalsOk, Entry, SlotOk;
    if Proc(lv.th.pc) {
      HandlerLocals(lv, c, regs);
    } else {
      ScanLocals(lv, c, regs);
    }
  }

  lemma LookSafe(lv: Level, c: Cpu, regs: nat)
    requires |c.arrays| > 0 && LevelSafe(lv, c, regs) && c.freed == Cur(c) && SoftEnabled(c, lv, regs) &&
        OnlyReads(c, lv)
    ensures LevelSafe(lv.(th := Look(c, lv, regs)), c, regs)
  {
    hide Look, SlotOk, OnlyReads, SoftEnabled, Entry;
    LookPc(lv, c, regs);
    LookLocals(lv, c, regs);
    NewLocals(lv, c, regs, Look(c, lv, regs));
  }

  lemma LookPc(lv: Level, c: Cpu, regs: nat)
    requires |c.arrays| > 0 && |lv.b| == 2 && SoftEnabled(c, lv, regs) && OnlyReads(c, lv)
    ensures !Look(c, lv, regs).pc.StoreCons? && !lv.th.pc.StoreCons?
  {
  }

  lemma StoredLevel(lv: Level, c: Cpu, regs: nat)
    requires |c.arrays| > 0 && LevelSafe(lv, c, regs) && lv.th.pc.StoreCons?
    ensures var t := lv.th;
            LevelSafe(lv.(b := lv.b[t.soft := lv.b[t.soft].(cons := t.cons + 1)],
                th := t.(pc := Check, cons := t.cons + 1)), c, regs)
  {
    hide SlotOk;
    var t := lv.th;
    var lv' := lv.(b := lv.b[t.soft := lv.b[t.soft].(cons := t.cons + 1)], th := t.(pc := Check, cons := t.cons + 1));
    assert forall i :: 0 <= i < lv.b[lv.hard].prod ==> Entry(lv'.b[lv.hard], i) == Entry(lv.b[lv.hard], i);
  }

  lemma SwitchedLevel(lv: Level, c: Cpu, regs: nat)
    requires |c.arrays| > 0 && LevelSafe(lv, c, regs) && lv.th.pc.SetSoft?
    ensures LevelSafe(lv.(soft := lv.hard, th := lv.th.(pc := Top, resized := true)), c, regs)
  {
    hide Entry, SlotOk;
  }

  lemma AckedLevel(lv: Level, c: Cpu, regs: nat, acks: nat, posted: bool)
    requires |c.arrays| > 0 && LevelSafe(lv, c, regs)
    ensures LevelSafe(lv.(acks := acks, posted := posted), c, regs)
  {
    hide Entry, SlotOk;
  }

  lemma CountSafe(s: State, l: nat)
    requires Safe(s) && Enabled(s, Soft(l)) &&
        (s.lvl[l].th.pc.InHandler? || s.lvl[l].th.pc.RemCall? || s.lvl[l].th.pc.RemIn?)
    requires !OnlyReads(s.cpu, s.lvl[l])
    ensures Safe(DoSoft(s, l))
  {
    hide EntriesOk, Drained, SlotOk;
    var s' := DoSoft(s, l);
    SameArrays(s.lvl[0], s.cpu, |s.calls|, s'.cpu);
    SameArrays(s.lvl[1], s.cpu, |s.calls|, s'.cpu);
    NewLocals(s.lvl[l], s'.cpu, |s.calls|, s'.lvl[l].th);
  }

  lemma CasSafe(s: State, l: nat)
    requires Safe(s) && Enabled(s, Soft(l)) && s.lvl[l].th.pc.Cas? && !OnlyReads(s.cpu, s.lvl[l])
    ensures Safe(DoSoft(s, l))
  {
    hide EntriesOk, Drained;
    var s' := DoSoft(s, l);
    assert SameSlots(s.cpu, |s.calls|, s'.cpu, |s.calls|);
    LevelStays(s.lvl[0], s.cpu, |s.calls|, s'.cpu, |s.calls|);
    LevelStays(s.lvl[1], s.cpu, |s.calls|, s'.cpu, |s.calls|);
    NewLocals(s.lvl[l], s'.cpu, |s.calls|, s'.lvl[l].th);
  }

  lemma AckSafe(s: State, l: nat)
    requires Safe(s) && Enabled(s, Soft(l)) && (s.lvl[l].th.pc.AckCas? || s.lvl[l].th.pc.Post?) &&
        !OnlyReads(s.cpu, s.lvl[l])
    ensures Safe(DoSoft(s, l))
  {
    hide EntriesOk, Drained, SlotOk;
    var s' := DoSoft(s, l);
    forall j | 0 <= j < 2
      ensures LevelSafe(s'.lvl[j], s'.cpu, |s.calls|)
    {
      SameArrays(s.lvl[j], s.cpu, |s.calls|, s'.cpu);
      NewLocals(s.lvl[j], s'.cpu, |s.calls|, s'.lvl[j].th);
      AckedLevel(s.lvl[j].(th := s'.lvl[j].th), s'.cpu, |s.calls|, s'.lvl[j].acks, s'.lvl[j].posted);
    }
  }

  lemma BufferSafe(s: State, l: nat)
    requires Safe(s) && Enabled(s, Soft(l)) && (s.lvl[l].th.pc.StoreCons? || s.lvl[l].th.pc.SetSoft?)
    ensures Safe(DoSoft(s, l))
  {
    hide LevelSafe;
    if s.lvl[l].th.pc.StoreCons? {
      StoredLevel(s.lvl[l], s.cpu, |s.calls|);
    } else {
      SwitchedLevel(s.lvl[l], s.cpu, |s.calls|);
    }
  }

  lemma SoftSafe(s: State, l: nat)
    requires Safe(s) && Enabled(s, Soft(l))
    ensures Safe(DoSoft(s, l))
  {
    hide LevelSafe, Look;
    if OnlyReads(s.cpu, s.lvl[l]) {
      LookSafe(s.lvl[l], s.cpu, |s.calls|);
    } else {
      match s.lvl[l].th.pc
      case InHandler => CountSafe(s, l);
      case RemCall => CountSafe(s, l);
      case RemIn => CountSafe(s, l);
      case Cas => CasSafe(s, l);
      case AckCas => AckSafe(s, l);
      case Post => AckSafe(s, l);
      case StoreCons => BufferSafe(s, l);
      case SetSoft => BufferSafe(s, l);
    }
  }

  // ---------------------------------------------------------------- everybody else's steps

  lemma BeginSafe(s: State, l: nat)
    requires Safe(s) && Enabled(s, Begin(l))
    ensures Safe(Do(s, Begin(l)))
  {
    hide EntriesOk, Drained, SlotOk;
    var t := IDLE_THREAD.(pc := Top, arr := Cur(s.cpu));
    NewLocals(s.lvl[l], s.cpu, |s.calls|, t);
    AckedLevel(s.lvl[l].(th := t), s.cpu, |s.calls|, s.lvl[l].acks, false);
  }

  lemma ModSafe(s: State, st: Step)
    requires Safe(s) && LinuxEnabled(s, st) && (st.Add? || st.RemoveBegin? || st.Modify?)
    ensures Safe(LinuxDo(s, st))
  {
    hide LevelSafe;
    var s' := LinuxDo(s, st);
    assert SameSlots(s.cpu, |s.calls|, s'.cpu, |s'.calls|);
    LevelStays(s.lvl[0], s.cpu, |s.calls|, s'.cpu, |s'.calls|);
    LevelStays(s.lvl[1], s.cpu, |s.calls|, s'.cpu, |s'.calls|);
  }

  lemma SafeStep(s: State, st: Step)
    requires Safe(s) && LinuxEnabled(s, st)
    ensures Safe(LinuxDo(s, st))
  {
    hide Safe, DoExpire, DoSoft, Enabled;
    match st
    case Expire(k) => ExpireSafe(s, k);
    case Soft(l) => SoftSafe(s, l);
    case Begin(l) => BeginSafe(s, l);
    case _ => ModSafe(s, st);
  }

  lemma {:induction false} SafeRun(tr: seq<State>, ss: seq<Step>, i: nat)
    requires LinuxRun(tr, ss) && Safe(tr[0]) && i < |tr|
    ensures Safe(tr[i])
  {
    hide Safe, LinuxEnabled, LinuxDo;
    if i > 0 {
      SafeRun(tr, ss, i - 1);
      SafeStep(tr[i - 1], ss[i - 1]);
    }
  }

  // ---------------------------------------------------------------- from the invariant

  lemma QueuedOk(s: State, l: nat, k: nat)
    requires Inv(s) && s.mod.EWait? && l < 2 && k in Queue(s.lvl[l])
    ensures SlotOk(s.cpu, |s.calls|, k)
  {
    hide ActOk, WakeOk, SemOk, ModOk, OldOk, Queue, BufShape, Debt;
    assert Pending(s.cpu, s.mod, k);
  }

  lemma DrainedEntries(s: State, l: nat)
    requires Shaped(s) && Inv(s) && s.mod.EWait? && l < 2 && Drained(s.lvl[l])
    ensures EntriesOk(Freed(s.lvl[l]), s.cpu, |s.calls|)
  {
    hide ActOk, WakeOk, SemOk, ModOk, OldOk, CycOk, LedgerOk, Entry, SlotOk, QueueOk, Queue, Live;
    var lv := s.lvl[l];
    var p := lv.b[lv.hard];
    forall i | (if lv.soft == lv.hard then Front(lv) else 0) <= i < p.prod
      ensures SlotOk(s.cpu, |s.calls|, Entry(p, i))
    {
      EntryQueued(lv, i);
      QueuedOk(s, l, Entry(p, i));
    }
  }

  lemma EntryQueued(lv: Level, i: nat)
    requires BufShape(lv) && Drained(lv) && (if lv.soft == lv.hard then Front(lv) else 0) <= i < lv.b[lv.hard].prod
    ensures Entry(lv.b[lv.hard], i) in Queue(lv)
  {
    hide Entry;
    var p, from := lv.b[lv.hard], if lv.soft == lv.hard then Front(lv) else 0;
    assert Live(p, from)[i - from] == Entry(p, i);
    assert Queue(lv) == Live(p, from);
  }

  lemma DrainedLocals(s: State, l: nat)
    requires Shaped(s) && Inv(s) && s.mod.EWait? && l < 2 && Drained(s.lvl[l])
    ensures LocalsOk(Freed(s.lvl[l]), s.cpu, |s.calls|)
  {
    hide WakeOk, SemOk, ModOk, OldOk, CycOk, LedgerOk, Entry, SlotOk, Queue, QueueOk;
    var lv := s.lvl[l];
    if Proc(lv.th.pc) {
      Current(lv, l, s.cpu, s.mod);
      CurrentQueued(lv);
      QueuedOk(s, l, lv.th.ndx);
      SlotReg(s, lv.th.ndx);
    }
  }

  lemma SlotReg(s: State, k: nat)
    requires |s.cpu.arrays| > 0 && SlotOk(s.cpu, |s.calls|, k)
    ensures k < |Cyc(s.cpu)| && 0 <= Cyc(s.cpu)[k].reg < |s.calls|
  {
  }

  lemma CurrentQueued(lv: Level)
    requires BufShape(lv) && LocalOk(lv) && Proc(lv.th.pc)
    ensures lv.th.ndx in Queue(lv)
  {
    assert Live(lv.b[lv.soft], Front(lv))[0] == lv.th.ndx;
    assert Queue(lv)[0] == lv.th.ndx;
  }

  lemma DrainedSafe(s: State)
    requires Shaped(s) && Inv(s) && s.mod.EWait? && Drained(s.lvl[0]) && Drained(s.lvl[1])
    ensures Safe(FreedEarly(s))
  {
    hide ActOk, WakeOk, SemOk, ModOk, OldOk, CycOk, Entry, SlotOk, QueueOk, EntriesOk, LocalsOk, Debt;
    DrainedEntries(s, 0);
    DrainedEntries(s, 1);
    DrainedLocals(s, 0);
    DrainedLocals(s, 1);
    SameView(s.cpu, Freed(s.lvl[0]), |s.calls|);
    SameView(s.cpu, Freed(s.lvl[1]), |s.calls|);
  }

  lemma SameView(c: Cpu, lv: Level, regs: nat)
    requires |c.arrays| > 0 && |lv.b| == 2 && lv.hard < 2 && lv.soft < 2 && EntriesOk(lv, c, regs) &&
        LocalsOk(lv, c, regs) && Drained(lv)
    ensures LevelSafe(lv, c.(freed := Cur(c)), regs)
  {
    hide Entry;
  }

  // ---------------------------------------------------------------- otherwise one can be led astray

  /** Left to itself, the activation of a level comes to read the old buffer or the old array. */
  predicate DoomedLevel(lv: Level, c: Cpu, regs: nat)
    requires |c.arrays| > 0 && |lv.b| == 2 && lv.soft < 2
  {
    && lv.soft != lv.hard && !lv.b[lv.soft].live && Front(lv) < lv.b[lv.soft].prod
    && var t := lv.th;
       && (InBuf(t.pc) ==> t.soft == lv.soft && t.cons == lv.b[lv.soft].cons) && (t.pc.Load? ==> t.soft == lv.soft)
       && !t.pc.CheckHard? && !t.pc.Grow? && !t.pc.SetSoft? && !t.pc.AckRead? && !t.pc.AckCas? && !InRemove(t.pc)
       && (Proc(t.pc) ==> SlotOk(c, regs, t.ndx) && t.arr <= Cur(c))
       && (Proc(t.pc) && t.arr == Cur(c) ==> Cyc(c)[t.ndx].pend == 0 && c.state.Online?)
       && (HasHandler(t.pc) ==> 0 <= t.reg < regs)
       && (t.pc.Cas? ==> t.pend != 0) && (t.pc.ReadState? ==> !c.state.Removing?)
  }

  predicate Doomed(s: State, l: nat) {
    Shaped(s) && l < 2 && s.cpu.freed == Cur(s.cpu) && DoomedLevel(s.lvl[l], s.cpu, |s.calls|)
  }

  function Left(pc: At): nat {
    match pc
    case Post => 9 case Idle => 8 case Top => 7 case Load => 6 case StoreCons => 6 case Check => 5
    case ReadHandler => 6 case Call => 5 case InHandler => 4 case Cas => 4 case Reread => 3 case ReadState => 2
    case _ => 0
  }

  function Next(s: State, l: nat): Step
    requires l < |s.lvl|
  {
    if s.lvl[l].th.pc.Idle? then Begin(l) else Soft(l)
  }

  lemma LookDoomed(lv: Level, c: Cpu, regs: nat)
    requires |c.arrays| > 0 && |lv.b| == 2 && lv.soft < 2 && DoomedLevel(lv, c, regs) && c.freed == Cur(c)
    requires SoftEnabled(c, lv, regs) && OnlyReads(c, lv)
    ensures DoomedLevel(lv.(th := Look(c, lv, regs)), c, regs) && Left(Look(c, lv, regs).pc) < Left(lv.th.pc)
  {
    hide Entry;
  }

  lemma WhichWrites(lv: Level, c: Cpu, regs: nat)
    requires |c.arrays| > 0 && |lv.b| == 2 && lv.soft < 2 && DoomedLevel(lv, c, regs) && c.freed == Cur(c)
    requires SoftEnabled(c, lv, regs) && !OnlyReads(c, lv)
    ensures lv.th.pc.Post? || lv.th.pc.StoreCons? || lv.th.pc.InHandler?
  {
  }

  lemma PostDoomed(s: State, l: nat)
    requires Doomed(s, l) && s.lvl[l].th.pc.Post?
    ensures Enabled(s, Next(s, l)) && Doomed(Do(s, Next(s, l)), l)
    ensures Left(Do(s, Next(s, l)).lvl[l].th.pc) < Left(s.lvl[l].th.pc)
  {
    hide SlotOk;
  }

  lemma IdleDoomed(s: State, l: nat)
    requires Doomed(s, l) && s.lvl[l].th.pc.Idle?
    ensures Enabled(s, Next(s, l)) && Doomed(Do(s, Next(s, l)), l)
    ensures Left(Do(s, Next(s, l)).lvl[l].th.pc) < Left(s.lvl[l].th.pc)
  {
    hide SlotOk;
  }

  lemma StoreDoomed(s: State, l: nat)
    requires Doomed(s, l) && s.lvl[l].th.pc.StoreCons?
    ensures Enabled(s, Next(s, l)) && Doomed(Do(s, Next(s, l)), l)
    ensures Left(Do(s, Next(s, l)).lvl[l].th.pc) < Left(s.lvl[l].th.pc)
  {
    hide SlotOk;
  }

  lemma ReturnDoomed(s: State, l: nat)
    requires Doomed(s, l) && s.lvl[l].th.pc.InHandler?
    ensures Enabled(s, Next(s, l)) && Doomed(Do(s, Next(s, l)), l)
    ensures Left(Do(s, Next(s, l)).lvl[l].th.pc) < Left(s.lvl[l].th.pc)
  {
  }

  lemma DoomedStep(s: State, l: nat)
    requires Doomed(s, l) && !Astray(s, l)
    ensures Enabled(s, Next(s, l)) && Doomed(Do(s, Next(s, l)), l)
    ensures Left(Do(s, Next(s, l)).lvl[l].th.pc) < Left(s.lvl[l].th.pc)
  {
    hide DoomedLevel, Look, SoftEnabled, Left, OnlyReads;
    var c, lv, t := s.cpu, s.lvl[l], s.lvl[l].th;
    if t.pc.Idle? {
      IdleDoomed(s, l);
    } else if OnlyReads(c, lv) {
      LookDoomed(lv, c, |s.calls|);
    } else {
      WhichWrites(lv, c, |s.calls|);
      if t.pc.Post? {
        PostDoomed(s, l);
      } else if t.pc.StoreCons? {
        StoreDoomed(s, l);
      } else {
        ReturnDoomed(s, l);
      }
    }
  }

  lemma {:induction false} LedAstray(s: State, l: nat) returns (tr: seq<State>, ss: seq<Step>)
    requires Doomed(s, l)
    ensures GoesAstray(s, tr, ss, l)
    decreases Left(s.lvl[l].th.pc)
  {
    hide Doomed, Do, Enabled, SoftEnabled;
    DoomedAt(s, l);
    if Astray(s, l) {
      tr, ss := [s], [];
    } else {
      DoomedStep(s, l);
      var s' := Do(s, Next(s, l));
      tr, ss := LedAstray(s', l);
      tr, ss := Prepended(s, Next(s, l), tr, ss, l);
    }
  }

  lemma DoomedAt(s: State, l: nat)
    requires Doomed(s, l)
    ensures l < |s.lvl|
  {
  }

  lemma Prepended(s: State, st: Step, tr: seq<State>, ss: seq<Step>, l: nat) returns (tr': seq<State>, ss': seq<Step>)
    requires LinuxEnabled(s, st) && GoesAstray(LinuxDo(s, st), tr, ss, l)
    ensures GoesAstray(s, tr', ss', l)
  {
    hide LinuxEnabled, LinuxDo, Astray;
    tr', ss' := [s] + tr, [st] + ss;
    forall i | 0 <= i < |ss'|
      ensures LinuxEnabled(tr'[i], ss'[i]) && tr'[i + 1] == LinuxDo(tr'[i], ss'[i])
    {
      if i > 0 {
        assert tr'[i] == tr[i - 1] && ss'[i] == ss[i - 1] && tr'[i + 1] == tr[i];
      }
    }
  }

  /** After the free, a removal of slot k from start to end, which does not wait. */
  function Removed(s: State, k: nat): State
    requires |s.cpu.arrays| > 0 && k < |Cyc(s.cpu)|
  {
    s.(cpu := SetCyc(s.cpu, k, Cyc(s.cpu)[k].(free := true, pend := 0)).(state := Online, rpend := 0), mod := MIdle)
  }

  /** Where the removal stands. */
  function Removal(s: State, k: nat, m: Mod): State
    requires |s.cpu.arrays| > 0 && k < |Cyc(s.cpu)|
  {
    var y := Cyc(s.cpu)[k];
    var gone := m.RCheck? || m.RWait? || m.RClear? || m.RDone?;
    var c := if gone then SetCyc(s.cpu, k, y.(free := true, pend := 0)) else s.cpu;
    s.(cpu := c.(state := if m.MIdle? then Online else Removing, rpend := if m.RCheck? || m.RWait? || m.RClear?
        then y.pend else 0), mod := m)
  }

  lemma RemovalSteps(s: State, k: nat)
    requires Shaped(s) && s.mod.EDone? && k < |Cyc(s.cpu)| && !Cyc(s.cpu)[k].free && Cyc(s.cpu)[k].pend > 0 &&
        s.cpu.rpend == 0
    ensures LinuxEnabled(s, Modify) && LinuxDo(s, Modify) == Removal(s, k, MIdle)
    ensures var s1 := Removal(s, k, MIdle);
        LinuxEnabled(s1, RemoveBegin(k, true)) &&
        LinuxDo(s1, RemoveBegin(k, true)) == Removal(s, k, RXcall(k, true))
    ensures var s1 := Removal(s, k, RXcall(k, true));
        LinuxEnabled(s1, Modify) && LinuxDo(s1, Modify) == Removal(s, k, RCheck(k, true))
  {
  }

  lemma RemovalPasses(s: State, k: nat)
    requires Shaped(s) && k < |Cyc(s.cpu)| && Cyc(s.cpu)[k].pend > 0
    ensures var s1 := Removal(s, k, RCheck(k, true));
        LinuxEnabled(s1, Modify) && LinuxDo(s1, Modify) == Removal(s, k, RWait(k))
    ensures var s1 := Removal(s, k, RWait(k));
        LinuxEnabled(s1, Modify) && LinuxDo(s1, Modify) == Removal(s, k, RClear(k))
    ensures var s1 := Removal(s, k, RClear(k));
        LinuxEnabled(s1, Modify) && LinuxDo(s1, Modify) == Removal(s, k, RDone(k))
    ensures var s1 := Removal(s, k, RDone(k)); LinuxEnabled(s1, Modify) && LinuxDo(s1, Modify) == Removed(s, k)
  {
  }

  lemma AfterRemoval(s: State, k: nat, l: nat)
    requires Shaped(s) && s.mod.EDone? && k < |Cyc(s.cpu)| && !Cyc(s.cpu)[k].free && Cyc(s.cpu)[k].pend > 0 &&
        s.cpu.rpend == 0
    requires Doomed(Removed(s, k), l)
    ensures exists tr, ss :: GoesAstray(s, tr, ss, l)
  {
    hide Doomed, LinuxEnabled, LinuxDo, GoesAstray, Removal, Removed;
    RemovalSteps(s, k);
    RemovalPasses(s, k);
    var tr, ss := LedAstray(Removed(s, k), l);
    tr, ss := Prepended(Removal(s, k, RDone(k)), Modify, tr, ss, l);
    tr, ss := Prepended(Removal(s, k, RClear(k)), Modify, tr, ss, l);
    tr, ss := Prepended(Removal(s, k, RWait(k)), Modify, tr, ss, l);
    tr, ss := Prepended(Removal(s, k, RCheck(k, true)), Modify, tr, ss, l);
    tr, ss := Prepended(Removal(s, k, RXcall(k, true)), Modify, tr, ss, l);
    tr, ss := Prepended(Removal(s, k, MIdle), RemoveBegin(k, true), tr, ss, l);
    tr, ss := Prepended(s, Modify, tr, ss, l);
  }

  /** What the invariant says of a level with entries left in its old buffer. */
  predicate Behind(lv: Level, c: Cpu, regs: nat)
    requires |c.arrays| > 0
  {
    && |lv.b| == 2 && lv.hard < 2 && lv.soft < 2 && lv.soft != lv.hard && Front(lv) < lv.b[lv.soft].prod
    && var t := lv.th;
       && (InBuf(t.pc) ==> t.soft == lv.soft && t.cons == lv.b[lv.soft].cons) && (t.pc.Load? ==> t.soft == lv.soft)
       && !t.pc.CheckHard? && !t.pc.Grow? && !t.pc.SetSoft? && !t.pc.AckRead? && !t.pc.AckCas? && !InRemove(t.pc)
       && (Proc(t.pc) ==> SlotOk(c, regs, t.ndx) && t.arr <= Cur(c) && Cyc(c)[t.ndx].pend > 0 && !Cyc(c)[t.ndx].free)
       && (HasHandler(t.pc) ==> 0 <= t.reg < regs) && (t.pc.Cas? ==> t.pend != 0) &&
           (t.pc.ReadState? ==> t.arr != Cur(c))
  }

  lemma UndrainedBehind(s: State, l: nat)
    requires Inv(s) && s.mod.EWait? && l < 2 && !Drained(s.lvl[l])
    ensures Behind(s.lvl[l], s.cpu, |s.calls|)
  {
    hide WakeOk, SemOk, OldOk, LedgerOk, Entry, Queue, QueueOk, CycOk;
    var lv, t := s.lvl[l], s.lvl[l].th;
    if Proc(t.pc) {
      Current(lv, l, s.cpu, s.mod);
      CurrentQueued(lv);
      QueuedOk(s, l, t.ndx);
      PendingUsed(s, t.ndx);
    }
  }

  lemma BehindDoomed(s: State, l: nat)
    requires Shaped(s) && l < 2 && Behind(s.lvl[l], s.cpu, |s.calls|) && !s.cpu.state.Removing?
    requires Proc(s.lvl[l].th.pc) ==> s.lvl[l].th.arr != Cur(s.cpu)
    ensures Doomed(FreedEarly(s), l)
  {
  }

  lemma RemovedDoomed(s: State, l: nat)
    requires Shaped(s) && l < 2 && Behind(s.lvl[l], s.cpu, |s.calls|) && !s.cpu.state.Removing?
    requires Proc(s.lvl[l].th.pc) && s.lvl[l].th.arr == Cur(s.cpu)
    ensures Doomed(Removed(FreedEarly(s), s.lvl[l].th.ndx), l)
  {
  }

  lemma PendingUsed(s: State, k: nat)
    requires Inv(s) && s.mod.EWait? && k < |Cyc(s.cpu)| && Pending(s.cpu, s.mod, k)
    ensures Cyc(s.cpu)[k].pend > 0 && !Cyc(s.cpu)[k].free && s.cpu.rpend == 0
  {
    hide LevelOk, SemOk, OldOk, LedgerOk;
  }

  /** If the old array and buffers are freed now, some activation, present or later, can come to read freed memory
      before the next resize if and only if a level has entries left in its old buffer. */
  lemma ExpandExact(s: State)
    requires Inv(s) && s.mod.EWait?
    ensures (exists tr, ss, l :: GoesAstray(FreedEarly(s), tr, ss, l)) <==> !(Drained(s.lvl[0]) && Drained(s.lvl[1]))
    ensures s.cpu.sem > 0 ==> Drained(s.lvl[0]) && Drained(s.lvl[1])
  {
    hide LevelOk, SemOk, ModOk, CycOk, OldOk, LedgerOk, GoesAstray, Drained, FreedEarly, Doomed, Removed;
    EWaitShape(s);
    if Drained(s.lvl[0]) && Drained(s.lvl[1]) {
      DrainedSafe(s);
      forall tr, ss, l
        ensures !GoesAstray(FreedEarly(s), tr, ss, l)
      {
        NeverAstray(FreedEarly(s), tr, ss, l);
      }
    } else {
      var l := if Drained(s.lvl[0]) then 1 else 0;
      Undrained(s, l);
    }
  }

  lemma EWaitShape(s: State)
    requires Inv(s) && s.mod.EWait?
    ensures forall l :: 0 <= l < 2 ==> |s.lvl[l].b| == 2 && s.lvl[l].hard < 2 && s.lvl[l].soft < 2
    ensures s.cpu.sem > 0 ==> Drained(s.lvl[0]) && Drained(s.lvl[1])
  {
    hide QueueOk, WakeOk, CycOk, OldOk, LedgerOk, LocalOk, ThreadOk;
  }

  lemma NeverAstray(s: State, tr: seq<State>, ss: seq<Step>, l: nat)
    requires Safe(s)
    ensures !GoesAstray(s, tr, ss, l)
  {
    hide Safe, Astray, LinuxEnabled, LinuxDo;
    if GoesAstray(s, tr, ss, l) {
      SafeRun(tr, ss, |ss|);
      SafeAccess(tr[|ss|], l);
    }
  }

  lemma Undrained(s: State, l: nat)
    requires Shaped(s) && Inv(s) && s.mod.EWait? && l < 2 && !Drained(s.lvl[l])
    ensures exists tr, ss :: GoesAstray(FreedEarly(s), tr, ss, l)
  {
    hide LevelOk, SemOk, CycOk, OldOk, LedgerOk, GoesAstray, Drained, Doomed, Removed, InBuf;
    EWaitShape(s);
    UndrainedBehind(s, l);
    var t, s' := s.lvl[l].th, FreedEarly(s);
    if Proc(t.pc) && t.arr == Cur(s.cpu) {
      RemovedDoomed(s, l);
      AfterRemoval(s', t.ndx, l);
    } else {
      BehindDoomed(s, l);
      var tr, ss := LedAstray(s', l);
    }
  }
}
