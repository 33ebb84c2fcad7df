/** A state beside the same state with the expiries of some slots forgotten: every step takes both the same way. */
module CyclicKin {
  import opened CyclicSystem
  import opened CyclicInvariant
  import opened CyclicWrites
  import opened CyclicExpand

  // ---------------------------------------------------------------- a state with its stranded slots forgotten

  /** A slot and the same slot in the state where nothing of it is pending. */
  predicate KinSlot(y: Cyclic, z: Cyclic, lost: bool) {
    if lost then y == z.(pend := y.pend) && y.pend > 0 && z.pend == 0 && !z.free && z.level < HIGH else y == z
  }

  predicate KinCpu(c: Cpu, d: Cpu, lost: set<nat>) {
    && |c.arrays| == |d.arrays| > 0 && c == d.(arrays := c.arrays)
    && (forall a :: 0 <= a < Cur(c) ==> c.arrays[a] == d.arrays[a])
    && |Cyc(c)| == |Cyc(d)| && (forall k :: k in lost ==> k < |Cyc(c)|)
    && (forall k :: 0 <= k < |Cyc(c)| ==> KinSlot(Cyc(c)[k], Cyc(d)[k], k in lost))
  }

  /** The activation is past its last look at the producer index of the buffer it is about to leave. */
  predicate Leaving(pc: At) { pc.CheckHard? || pc.Grow? || pc.SetSoft? }

  /** The buffers agree, but for the producer index of one that is left or being left. */
  predicate KinLevel(lv: Level, mv: Level, m: Mod) {
    && |lv.b| == 2 == |mv.b| && lv == mv.(b := lv.b) && lv.hard < 2 && lv.soft < 2 && lv.b[lv.hard] == mv.b[lv.hard]
    && var p, q := lv.b[1 - lv.hard], mv.b[1 - lv.hard];
    p == q.(prod := p.prod) && q.prod <= p.prod && (p != q ==> !m.EXcall? && (lv.soft == lv.hard || Leaving(lv.th.pc)))
  }

  predicate Concerns(m: Mod, k: nat) {
    (m.RXcall? || m.RCheck? || m.RWait? || m.RClear? || m.RDone?) && m.k == k
  }

  /** h is s with the expiries of the slots `lost` forgotten, as if they had never been queued. */
  predicate Kin(s: State, h: State, lost: set<nat>) {
    && KinCpu(s.cpu, h.cpu, lost) && |s.lvl| == 2 == |h.lvl|
    && KinLevel(s.lvl[0], h.lvl[0], s.mod) && KinLevel(s.lvl[1], h.lvl[1], s.mod)
    && s.mod == h.mod && s.calls == h.calls && |s.exp| == |h.exp|
    && (forall k :: k in lost ==> !Concerns(s.mod, k))
  }

  lemma Alike(s: State, h: State, lost: set<nat>)
    requires Kin(s, h, lost)
    ensures Shaped(s) && Shaped(h) && |h.cpu.arrays| == |s.cpu.arrays| && |Cyc(h.cpu)| == |Cyc(s.cpu)|
  {
  }

  // ---------------------------------------------------------------- steps of a soft interrupt

  /** No activation is working on a lost slot. */
  lemma NotLost(s: State, h: State, lost: set<nat>, l: nat)
    requires Inv(h) && Kin(s, h, lost) && l < 2 && Proc(h.lvl[l].th.pc)
    ensures h.lvl[l].th.ndx !in lost
  {
    hide WakeOk, ThreadOk, HandOk, SemOk, ModOk, OldOk, LedgerOk, CycOk, Queue, Exact;
    Current(h.lvl[l], l, h.cpu, h.mod);
  }

  lemma SameSlot(c: Cpu, d: Cpu, lost: set<nat>, a: nat, k: nat)
    requires KinCpu(c, d, lost)
    ensures Points(c, a, k) <==> Points(d, a, k)
    ensures Points(c, a, k) && k !in lost ==> c.arrays[a][k] == d.arrays[a][k]
  {
  }

  /** What the activation at level l relies on. */
  predicate Stands(lv: Level, lost: set<nat>) {
    && (Proc(lv.th.pc) ==> lv.th.ndx !in lost)
    && (InBuf(lv.th.pc) || lv.th.pc.Load? ==> lv.th.soft == lv.soft)
  }

  lemma StandsIn(s: State, h: State, lost: set<nat>, l: nat)
    requires Inv(h) && Kin(s, h, lost) && l < 2
    ensures Stands(s.lvl[l], lost)
  {
    hide WakeOk, ThreadOk, HandOk, SemOk, ModOk, OldOk, LedgerOk, CycOk, QueueOk;
    if Proc(h.lvl[l].th.pc) {
      NotLost(s, h, lost, l);
    }
  }

  lemma SameEnabled(c: Cpu, d: Cpu, lost: set<nat>, lv: Level, mv: Level, m: Mod, regs: nat)
    requires KinCpu(c, d, lost) && KinLevel(lv, mv, m) && Stands(lv, lost) && SoftEnabled(c, lv, regs)
    ensures SoftEnabled(d, mv, regs) && OnlyReads(c, lv) == OnlyReads(d, mv)
  {
    SameSlot(c, d, lost, lv.th.arr, lv.th.ndx);
    hide KinCpu;
  }

  /** Equal loads give equal locals. */
  lemma EqualLook(c: Cpu, d: Cpu, lv: Level, mv: Level, regs: nat)
    requires |c.arrays| == |d.arrays| > 0 && c == d.(arrays := c.arrays)
    requires |lv.b| == 2 == |mv.b| && lv == mv.(b := lv.b)
    requires var t := lv.th;
      && (Proc(t.pc) && Points(c, t.arr, t.ndx) && Points(d, t.arr, t.ndx) ==>
            c.arrays[t.arr][t.ndx] == d.arrays[t.arr][t.ndx])
      && ((InBuf(t.pc) && !Leaving(t.pc)) || t.pc.Load? ==> t.soft < 2 && lv.b[t.soft] == mv.b[t.soft])
    requires SoftEnabled(c, lv, regs) && SoftEnabled(d, mv, regs) && OnlyReads(c, lv) && OnlyReads(d, mv)
    ensures Look(c, lv, regs) == Look(d, mv, regs)
  {
  }

  lemma SameBuffer(lv: Level, mv: Level, m: Mod, lost: set<nat>)
    requires KinLevel(lv, mv, m) && Stands(lv, lost) && ((InBuf(lv.th.pc) && !Leaving(lv.th.pc)) || lv.th.pc.Load?)
    ensures lv.th.soft < 2 && lv.b[lv.th.soft] == mv.b[lv.th.soft]
  {
  }

  lemma SameLook(c: Cpu, d: Cpu, lost: set<nat>, lv: Level, mv: Level, m: Mod, regs: nat)
    requires KinCpu(c, d, lost) && KinLevel(lv, mv, m) && Stands(lv, lost)
    requires SoftEnabled(c, lv, regs) && SoftEnabled(d, mv, regs) && OnlyReads(c, lv) && OnlyReads(d, mv)
    ensures Look(c, lv, regs) == Look(d, mv, regs)
  {
    hide SoftEnabled, OnlyReads, Look, InBuf, Proc;
    SameSlot(c, d, lost, lv.th.arr, lv.th.ndx);
    if (InBuf(lv.th.pc) && !Leaving(lv.th.pc)) || lv.th.pc.Load? {
      SameBuffer(lv, mv, m, lost);
    }
    hide KinSlot, Leaving;
    EqualLook(c, d, lv, mv, regs);
  }

  lemma LookStays(c: Cpu, lv: Level, mv: Level, m: Mod, lost: set<nat>, regs: nat)
    requires |c.arrays| > 0 && KinLevel(lv, mv, m) && Stands(lv, lost) && SoftEnabled(c, lv, regs) && OnlyReads(c, lv)
    ensures KinLevel(lv.(th := Look(c, lv, regs)), mv.(th := Look(c, lv, regs)), m)
  {
  }

  lemma ReadKin(s: State, h: State, lost: set<nat>, l: nat)
    requires Kin(s, h, lost) && Enabled(s, Soft(l)) && Enabled(h, Soft(l)) && Stands(s.lvl[l], lost)
    requires OnlyReads(s.cpu, s.lvl[l]) && OnlyReads(h.cpu, h.lvl[l])
    ensures Kin(DoSoft(s, l), DoSoft(h, l), lost)
  {
    hide Look, KinCpu, SoftEnabled, OnlyReads, KinLevel, Stands;
    SameLook(s.cpu, h.cpu, lost, s.lvl[l], h.lvl[l], s.mod, |s.calls|);
    LookStays(s.cpu, s.lvl[l], h.lvl[l], s.mod, lost, |s.calls|);
  }

  /** The level after a store. */
  function Stored(lv: Level): Level
    requires lv.th.soft < |lv.b| || !lv.th.pc.StoreCons?
  {
    var t := lv.th;
    match t.pc
    case InHandler => lv.(th := t.(pc := Reread))
    case RemIn => lv.(th := t.(pc := RemCall, left := if t.left > 0 then t.left - 1 else 0))
    case RemCall => lv.(th := t.(pc := StoreCons))
    case StoreCons =>
      lv.(b := lv.b[t.soft := lv.b[t.soft].(cons := t.cons + 1)], th := t.(pc := Check, cons := t.cons + 1))
    case SetSoft => lv.(soft := lv.hard, th := t.(pc := Top, resized := true))
    case AckCas => lv.(acks := lv.acks + 1, th := t.(pc := Post))
    case Post => lv.(th := t.(pc := Idle))
    case _ => lv
  }

  /** The scalars of the CPU after it. */
  function StoredCpu(c: Cpu, t: Thread): Cpu {
    match t.pc
    case RemCall => c.(sem := c.sem + 1)
    case AckCas => c.(levels := t.lev + 1)
    case Post => if t.lev == 1 then c.(sem := c.sem + 1, posts := c.posts + 1) else c
    case _ => c
  }

  lemma StoreForm(s: State, l: nat)
    requires Enabled(s, Soft(l)) && !OnlyReads(s.cpu, s.lvl[l]) && !s.lvl[l].th.pc.Cas?
    ensures s.lvl[l].th.soft < |s.lvl[l].b| || !s.lvl[l].th.pc.StoreCons?
    ensures s.lvl[l].th.pc.InHandler? || s.lvl[l].th.pc.RemIn? ==> 0 <= s.lvl[l].th.reg < |s.calls|
    ensures var t := s.lvl[l].th; var s1 := s.(cpu := StoredCpu(s.cpu, t), lvl := s.lvl[l := Stored(s.lvl[l])]);
        DoSoft(s, l) ==
        if t.pc.InHandler? || t.pc.RemIn? then s1.(calls := s.calls[t.reg := s.calls[t.reg] + 1])
        else if t.pc.Post? && t.lev != 1 && l == 1 then s1.(lvl := s1.lvl[0 := s1.lvl[0].(posted := true)])
        else s1
  {
  }

  lemma SameThread(lv: Level, mv: Level, m: Mod)
    requires KinLevel(lv, mv, m)
    ensures lv == mv.(b := lv.b) && |lv.b| == 2 == |mv.b|
  {
  }

  lemma ThreadKin(lv: Level, mv: Level, m: Mod, t: Thread, acks: nat)
    requires KinLevel(lv, mv, m) && !Leaving(lv.th.pc)
    ensures KinLevel(lv.(th := t, acks := acks), mv.(th := t, acks := acks), m)
  {
  }

  lemma PostedKin(lv: Level, mv: Level, m: Mod, posted: bool)
    requires KinLevel(lv, mv, m)
    ensures KinLevel(lv.(posted := posted), mv.(posted := posted), m)
  {
  }

  lemma ConsKin(lv: Level, mv: Level, m: Mod, cons: nat, t: Thread)
    requires KinLevel(lv, mv, m) && !Leaving(lv.th.pc)
    ensures KinLevel(lv.(b := lv.b[lv.soft := lv.b[lv.soft].(cons := cons)], th := t),
                     mv.(b := mv.b[lv.soft := mv.b[lv.soft].(cons := cons)], th := t), m)
  {
  }

  lemma SwitchKin(lv: Level, mv: Level, m: Mod, t: Thread)
    requires KinLevel(lv, mv, m)
    ensures KinLevel(lv.(soft := lv.hard, th := t), mv.(soft := mv.hard, th := t), m)
  {
  }

  lemma StoredKin(lv: Level, mv: Level, m: Mod, lost: set<nat>)
    requires KinLevel(lv, mv, m) && Stands(lv, lost) && (lv.th.soft < |lv.b| || !lv.th.pc.StoreCons?)
    ensures |mv.b| == |lv.b| && lv.th == mv.th && KinLevel(Stored(lv), Stored(mv), m)
  {
    hide KinLevel;
    SameThread(lv, mv, m);
    if lv.th.pc.StoreCons? {
      ConsKin(lv, mv, m, lv.th.cons + 1, Stored(lv).th);
    } else if lv.th.pc.SetSoft? {
      SwitchKin(lv, mv, m, Stored(lv).th);
    } else if !Leaving(lv.th.pc) {
      ThreadKin(lv, mv, m, Stored(lv).th, Stored(lv).acks);
    }
  }

  /** A store other than to a pending count. */
  lemma WriteKin(s: State, h: State, lost: set<nat>, l: nat)
    requires Kin(s, h, lost) && Enabled(s, Soft(l)) && Enabled(h, Soft(l)) && Stands(s.lvl[l], lost)
    requires !OnlyReads(s.cpu, s.lvl[l]) && !OnlyReads(h.cpu, h.lvl[l]) && !s.lvl[l].th.pc.Cas?
    ensures Kin(DoSoft(s, l), DoSoft(h, l), lost)
  {
    hide KinSlot, DoSoft, OnlyReads, SoftEnabled, Stands, Stored, KinLevel;
    SameThread(s.lvl[l], h.lvl[l], s.mod);
    StoreForm(s, l);
    StoreForm(h, l);
    StoredKin(s.lvl[l], h.lvl[l], s.mod, lost);
    if l == 1 {
      PostedKin(s.lvl[0], h.lvl[0], s.mod, true);
    }
  }

  lemma CasKin(s: State, h: State, lost: set<nat>, l: nat)
    requires Kin(s, h, lost) && Enabled(s, Soft(l)) && Enabled(h, Soft(l)) && Stands(s.lvl[l], lost)
    requires !OnlyReads(s.cpu, s.lvl[l]) && !OnlyReads(h.cpu, h.lvl[l]) && s.lvl[l].th.pc.Cas?
    ensures Kin(DoSoft(s, l), DoSoft(h, l), lost)
  {
    hide KinLevel, DoSoft, OnlyReads, SoftEnabled;
    var t := s.lvl[l].th;
    SameSlot(s.cpu, h.cpu, lost, t.arr, t.ndx);
    SameThread(s.lvl[l], h.lvl[l], s.mod);
    CasForm(s, l);
    CasForm(h, l);
    hide KinCpu;
    var y := s.cpu.arrays[t.arr][t.ndx].(pend := Less(t.pend));
    CasCpuKin(s.cpu, h.cpu, lost, t.arr, t.ndx, y);
    ThreadKin(s.lvl[l], h.lvl[l], s.mod, t.(pc := if Int32(Less(t.pend)) > 0 then Call else StoreCons), s.lvl[l].acks);
  }

  function Less(pend: nat): nat { if pend == 0 then UINT32_MAX else pend - 1 }

  lemma CasForm(s: State, l: nat)
    requires Enabled(s, Soft(l)) && !OnlyReads(s.cpu, s.lvl[l]) && s.lvl[l].th.pc.Cas?
    ensures Points(s.cpu, s.lvl[l].th.arr, s.lvl[l].th.ndx)
    ensures
      var c, t := s.cpu, s.lvl[l].th;
      var y := c.arrays[t.arr][t.ndx].(pend := Less(t.pend));
      DoSoft(s, l) == s.(
        lvl := s.lvl[l := s.lvl[l].(th := t.(pc := if Int32(Less(t.pend)) > 0 then Call else StoreCons))],
        cpu := c.(arrays := c.arrays[t.arr := c.arrays[t.arr][t.ndx := y]]))
  {
  }

  lemma CasCpuKin(c: Cpu, d: Cpu, lost: set<nat>, a: nat, k: nat, y: Cyclic)
    requires KinCpu(c, d, lost) && Points(c, a, k) && Points(d, a, k) && k !in lost
    ensures KinCpu(c.(arrays := c.arrays[a := c.arrays[a][k := y]]),
                   d.(arrays := d.arrays[a := d.arrays[a][k := y]]), lost)
  {
  }

  lemma SoftKin(s: State, h: State, lost: set<nat>, l: nat)
    requires Inv(h) && Kin(s, h, lost) && Enabled(s, Soft(l))
    ensures Enabled(h, Soft(l)) && Kin(DoSoft(s, l), DoSoft(h, l), lost)
  {
    hide Inv, DoSoft, SoftEnabled, OnlyReads, KinCpu, Stands;
    Alike(s, h, lost);
    StandsIn(s, h, lost, l);
    SameEnabled(s.cpu, h.cpu, lost, s.lvl[l], h.lvl[l], s.mod, |s.calls|);
    if OnlyReads(s.cpu, s.lvl[l]) {
      ReadKin(s, h, lost, l);
    } else if s.lvl[l].th.pc.Cas? {
      CasKin(s, h, lost, l);
    } else {
      WriteKin(s, h, lost, l);
    }
  }

  // ---------------------------------------------------------------- everybody else's steps

  lemma BeginKin(s: State, h: State, lost: set<nat>, l: nat)
    requires Kin(s, h, lost) && Enabled(s, Begin(l))
    ensures Enabled(h, Begin(l)) && Kin(Do(s, Begin(l)), Do(h, Begin(l)), lost)
  {
    hide KinSlot;
    var t := IDLE_THREAD.(pc := Top, arr := Cur(s.cpu));
    ThreadKin(s.lvl[l], h.lvl[l], s.mod, t, s.lvl[l].acks);
    PostedKin(s.lvl[l].(th := t), h.lvl[l].(th := t), s.mod, false);
  }

  lemma SlotKin(c: Cpu, d: Cpu, lost: set<nat>, k: nat, y: Cyclic, z: Cyclic)
    requires KinCpu(c, d, lost) && k < |Cyc(c)| && KinSlot(y, z, k in lost)
    ensures KinCpu(SetCyc(c, k, y), SetCyc(d, k, z), lost)
  {
  }

  lemma PushKin(lv: Level, mv: Level, m: Mod, k: nat)
    requires KinLevel(lv, mv, m) && |lv.b[lv.hard].buf| > 0
    ensures KinLevel(lv.(b := lv.b[lv.hard := Push(lv.b[lv.hard], k)], posted := true),
                     mv.(b := mv.b[mv.hard := Push(mv.b[mv.hard], k)], posted := true), m)
  {
    hide Push;
  }

  lemma LevelKin(s: State, h: State, lost: set<nat>, l: nat)
    requires Kin(s, h, lost) && l < 2
    ensures KinLevel(s.lvl[l], h.lvl[l], s.mod)
    ensures h.lvl[l].hard == s.lvl[l].hard < 2 && s.lvl[l].b[s.lvl[l].hard] == h.lvl[l].b[s.lvl[l].hard]
  {
  }

  /** One level and one slot have changed. */
  lemma SetKin(s: State, h: State, lost: set<nat>, l: nat, lv: Level, mv: Level, k: nat, y: Cyclic, z: Cyclic,
               e: seq<nat>, f: seq<nat>)
    requires Kin(s, h, lost) && l < 2 && KinLevel(lv, mv, s.mod) && k < |Cyc(s.cpu)| && KinSlot(y, z, k in lost)
    requires |e| == |f|
    ensures Kin(s.(cpu := SetCyc(s.cpu, k, y), lvl := s.lvl[l := lv], exp := e),
                h.(cpu := SetCyc(h.cpu, k, z), lvl := h.lvl[l := mv], exp := f), lost)
  {
    hide KinLevel, KinSlot;
    SlotKin(s.cpu, h.cpu, lost, k, y, z);
    hide KinCpu, SetCyc;
  }

  /** An expiry of another slot. */
  lemma ExpireKin(s: State, h: State, lost: set<nat>, k: nat)
    requires Kin(s, h, lost) && Enabled(s, Expire(k)) && k !in lost
    ensures Enabled(h, Expire(k)) && Kin(Do(s, Expire(k)), Do(h, Expire(k)), lost)
  {
    hide KinLevel;
    Alike(s, h, lost);
    var y := Cyc(s.cpu)[k];
    assert y == Cyc(h.cpu)[k];
    hide KinSlot;
    if y.level < HIGH {
      LevelKin(s, h, lost, y.level);
      PushKin(s.lvl[y.level], h.lvl[y.level], s.mod, k);
      PostedKin(s.lvl[y.level], h.lvl[y.level], s.mod, true);
      var z := y.(pend := if y.pend == UINT32_MAX then UINT32_MAX else y.pend + 1);
      var s', h' := Do(s, Expire(k)), Do(h, Expire(k));
      assert KinSlot(z, z, false) by { Itself(z); }
      SetKin(s, h, lost, y.level, s'.lvl[y.level], h'.lvl[y.level], k, z, z, s'.exp, h'.exp);
    }
  }

  lemma Itself(z: Cyclic)
    ensures KinSlot(z, z, false)
  {
  }

  /** An expiry of a lost slot: it is counted, and a softint is posted in vain. */
  lemma LostExpireKin(s: State, h: State, lost: set<nat>, k: nat)
    requires Kin(s, h, lost) && Enabled(s, Expire(k)) && k in lost
    ensures var l := Cyc(s.cpu)[k].level;
        l < 2 && Kin(Do(s, Expire(k)), h.(lvl := h.lvl[l := h.lvl[l].(posted := true)]), lost)
  {
    hide KinLevel;
    var y, z := Cyc(s.cpu)[k], Cyc(h.cpu)[k];
    assert KinSlot(y, z, true);
    LevelKin(s, h, lost, y.level);
    PostedKin(s.lvl[y.level], h.lvl[y.level], s.mod, true);
    var s' := Do(s, Expire(k));
    SetKin(s, h, lost, y.level, s'.lvl[y.level], h.lvl[y.level].(posted := true), k, Cyc(s'.cpu)[k], z, s'.exp, h.exp);
    SetSame(h.cpu, k);
  }

  lemma SetSame(c: Cpu, k: nat)
    requires |c.arrays| > 0 && k < |Cyc(c)|
    ensures SetCyc(c, k, Cyc(c)[k]) == c
  {
    assert Cyc(c)[k := Cyc(c)[k]] == Cyc(c);
    assert c.arrays[|c.arrays| - 1 := Cyc(c)] == c.arrays;
  }

  lemma AddKin(s: State, h: State, lost: set<nat>, k: nat, level: nat)
    requires Kin(s, h, lost) && Enabled(s, Add(k, level))
    ensures Enabled(h, Add(k, level)) && Kin(Do(s, Add(k, level)), Do(h, Add(k, level)), lost)
  {
    assert KinSlot(Cyc(s.cpu)[k], Cyc(h.cpu)[k], k in lost);
    var y := Cyc(s.cpu)[k].(free := false, level := level, reg := |s.exp|);
    SlotKin(s.cpu, h.cpu, lost, k, y, y);
    hide KinCpu, SetCyc;
  }

  lemma BeginsKin(s: State, h: State, lost: set<nat>, st: Step)
    requires Kin(s, h, lost) && Enabled(s, st) && (st.ExpandBegin? || (st.RemoveBegin? && st.k !in lost))
    ensures Enabled(h, st) && Kin(Do(s, st), Do(h, st), lost)
  {
    hide KinLevel;
    Alike(s, h, lost);
    assert forall k :: 0 <= k < |Cyc(s.cpu)| ==> Cyc(h.cpu)[k].free == Cyc(s.cpu)[k].free;
    LevelMod(s.lvl[0], h.lvl[0], s.mod, Do(s, st).mod);
    LevelMod(s.lvl[1], h.lvl[1], s.mod, Do(s, st).mod);
  }

  lemma LevelMod(lv: Level, mv: Level, m: Mod, m': Mod)
    requires KinLevel(lv, mv, m) && !m'.EXcall?
    ensures KinLevel(lv, mv, m')
  {
  }

  lemma GrownKin(lv: Level, mv: Level, m: Mod, size: nat, gen: nat)
    requires KinLevel(lv, mv, m)
    ensures KinLevel(Grown(lv, size, gen), Grown(mv, size, gen), EXcall)
  {
  }

  /** Before the cross call of a resize: the buffers agree, but for the producer index of one about to be left. */
  predicate NearLevel(lv: Level, mv: Level) {
    && |lv.b| == 2 == |mv.b| && lv == mv.(b := lv.b) && lv.hard < 2 && lv.soft < 2
    && lv.b[1 - lv.hard] == mv.b[1 - lv.hard]
    && var p, q := lv.b[lv.hard], mv.b[lv.hard];
    p == q.(prod := p.prod) && q.prod <= p.prod && (p != q ==> Leaving(lv.th.pc))
  }

  predicate Near(s: State, h: State, lost: set<nat>) {
    && KinCpu(s.cpu, h.cpu, lost) && |s.lvl| == 2 == |h.lvl|
    && NearLevel(s.lvl[0], h.lvl[0]) && NearLevel(s.lvl[1], h.lvl[1])
    && s.mod == EXcall == h.mod && s.calls == h.calls && |s.exp| == |h.exp|
  }

  lemma FlippedKin(lv: Level, mv: Level, posted: bool)
    requires NearLevel(lv, mv)
    ensures lv.hard == mv.hard && KinLevel(Flipped(lv, posted), Flipped(mv, posted), EWait)
  {
  }

  lemma FreedKin(lv: Level, mv: Level, m: Mod, m': Mod)
    requires KinLevel(lv, mv, m) && !m'.EXcall?
    ensures KinLevel(Freed(lv), Freed(mv), m')
  {
  }

  lemma ExpandKin(c: Cpu, d: Cpu, lost: set<nat>)
    requires KinCpu(c, d, lost)
    ensures KinCpu(ExpandCpu(c), ExpandCpu(d), lost)
  {
    assert Zeroed(Cyc(c)) == Zeroed(Cyc(d));
    ExpandView(c, EXcall);
    ExpandView(d, EXcall);
    hide Zeroed, Doubled;
    forall k | 0 <= k < |Cyc(ExpandCpu(c))|
      ensures KinSlot(Cyc(ExpandCpu(c))[k], Cyc(ExpandCpu(d))[k], k in lost)
    {
      if k < |Cyc(c)| {
        assert KinSlot(Cyc(c)[k], Cyc(d)[k], k in lost);
      }
    }
  }

  /** One action of a resize. */
  lemma ResizeKin(s: State, h: State, lost: set<nat>)
    requires Kin(s, h, lost) && Enabled(s, Modify) && !s.mod.EXcall? && (s.mod.EAlloc? || s.mod.EFree?)
    ensures Enabled(h, Modify) && Kin(DoModify(s), DoModify(h), lost)
  {
    hide KinLevel, KinSlot, Grown, Freed;
    Alike(s, h, lost);
    var n, g := 2 * |Cyc(s.cpu)|, |s.cpu.arrays|;
    GrownKin(s.lvl[0], h.lvl[0], s.mod, n, g);
    GrownKin(s.lvl[1], h.lvl[1], s.mod, n, g);
    FreedKin(s.lvl[0], h.lvl[0], s.mod, EDone);
    FreedKin(s.lvl[1], h.lvl[1], s.mod, EDone);
  }

  lemma KinNear(s: State, h: State, lost: set<nat>)
    requires Kin(s, h, lost) && s.mod.EXcall?
    ensures Near(s, h, lost) && s.lvl[0].b == h.lvl[0].b && s.lvl[1].b == h.lvl[1].b
  {
    hide KinCpu;
    assert forall l, i :: 0 <= l < 2 && 0 <= i < 2 ==> s.lvl[l].b[i] == h.lvl[l].b[i];
  }

  lemma CrossForm(s: State)
    requires Shaped(s) && s.mod.EXcall?
    ensures Enabled(s, Modify)
    ensures DoModify(s) == s.(cpu := ExpandCpu(s.cpu), mod := EWait,
                              lvl := [Flipped(s.lvl[0], s.lvl[0].posted), Flipped(s.lvl[1], true)])
  {
    hide Zeroed, Doubled;
  }

  lemma NearShape(s: State, h: State, lost: set<nat>)
    requires Near(s, h, lost)
    ensures Shaped(s) && Shaped(h) && h.lvl[0].posted == s.lvl[0].posted
  {
  }

  /** The cross call of a resize. */
  lemma CrossKin(s: State, h: State, lost: set<nat>)
    requires Near(s, h, lost)
    ensures Enabled(s, Modify) && Enabled(h, Modify) && Kin(DoModify(s), DoModify(h), lost)
  {
    hide KinLevel, KinCpu, NearLevel, ExpandCpu, Enabled, DoModify;
    NearShape(s, h, lost);
    CrossForm(s);
    CrossForm(h);
    ExpandKin(s.cpu, h.cpu, lost);
    FlippedKin(s.lvl[0], h.lvl[0], s.lvl[0].posted);
    FlippedKin(s.lvl[1], h.lvl[1], true);
  }

  /** The other actions of the holder of cpu_lock. */
  lemma HolderKin(s: State, h: State, lost: set<nat>)
    requires Kin(s, h, lost) && Enabled(s, Modify) && !s.mod.EXcall? && !s.mod.EAlloc? && !s.mod.EFree?
    ensures Enabled(h, Modify) && Kin(DoModify(s), DoModify(h), lost)
  {
    hide KinLevel;
    Alike(s, h, lost);
    LevelMod(s.lvl[0], h.lvl[0], s.mod, DoModify(s).mod);
    LevelMod(s.lvl[1], h.lvl[1], s.mod, DoModify(s).mod);
    if s.mod.RXcall? {
      var k := s.mod.k;
      var y := Cyc(s.cpu)[k];
      assert y == Cyc(h.cpu)[k];
      var z := y.(free := true, pend := 0);
      SlotKin(s.cpu, h.cpu, lost, k, z, z);
    }
  }

  /** Every step, except the removal of a lost slot and its expiries, takes both states the same way. */
  lemma StepKin(s: State, h: State, lost: set<nat>, st: Step)
    requires Inv(h) && Kin(s, h, lost) && Enabled(s, st)
    requires (st.Expire? || st.RemoveBegin?) ==> st.k !in lost
    ensures Enabled(h, st) && Kin(Do(s, st), Do(h, st), lost)
  {
    hide Inv, Kin, Enabled, DoSoft, DoModify, DoExpire;
    match st
    case Expire(k) => ExpireKin(s, h, lost, k);
    case Begin(l) => BeginKin(s, h, lost, l);
    case Soft(l) => SoftKin(s, h, lost, l);
    case Add(k, level) => AddKin(s, h, lost, k, level);
    case Modify =>
      if s.mod.EXcall? {
        KinNear(s, h, lost);
        CrossKin(s, h, lost);
      } else if s.mod.EAlloc? || s.mod.EFree? {
        ResizeKin(s, h, lost);
      } else {
        HolderKin(s, h, lost);
      }
    case _ => BeginsKin(s, h, lost, st);
  }
}
