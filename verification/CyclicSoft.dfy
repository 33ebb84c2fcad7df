/** Every access of cyclic_softint keeps the invariant. */
module CyclicSoft {
  import opened CyclicSystem
  import opened CyclicInvariant

  // ---------------------------------------------------------------- small facts

  /** The current slot is the oldest entry of the queue. */
  lemma Head(lv: Level)
    requires BufShape(lv) && LocalOk(lv) && (Proc(lv.th.pc) || lv.th.pc.ReadSlot?)
    ensures |Queue(lv)| > 0 && Queue(lv)[0] == Entry(lv.b[lv.soft], lv.th.cons) && Queue(lv)[0] in Queue(lv)
  {
  }

  /** Queues do not look at the activation beyond whether an index store is outstanding. */
  lemma KeepQueue(lv: Level, lv': Level, l: nat, c: Cpu, m: Mod)
    requires |c.arrays| > 0 && BufOk(lv, |Cyc(c)|, Cur(c)) && QueueOk(lv, l, c, m)
    requires lv'.hard == lv.hard && lv'.soft == lv.soft && lv'.b == lv.b
    requires lv.th.pc.StoreCons? == lv'.th.pc.StoreCons?
    ensures BufOk(lv', |Cyc(c)|, Cur(c)) && QueueOk(lv', l, c, m) && Queue(lv') == Queue(lv)
  {
    assert Queue(lv') == Queue(lv);
  }

  /** A ledger entry moves with the counters of its own registration only. */
  lemma LedgerStep(c: Cpu, m: Mod, lvl: seq<Level>, exp: seq<nat>, calls: seq<nat>,
                   c': Cpu, m': Mod, lvl': seq<Level>, exp': seq<nat>, calls': seq<nat>, k: nat)
    requires |c.arrays| > 0 && |c'.arrays| > 0 && |lvl| == |lvl'| == 2 && k < |Cyc(c)| == |Cyc(c')|
    requires LedgerOk(c, m, lvl, exp, calls)
    requires |exp'| == |exp| && |calls'| == |calls|
    requires forall j :: 0 <= j < |Cyc(c)| ==> Cyc(c')[j].reg == Cyc(c)[j].reg
    requires forall j :: 0 <= j < |Cyc(c)| && j != k ==> Debt(c', m', lvl', j) == Debt(c, m, lvl, j)
    requires forall r :: 0 <= r < |exp| && r != Cyc(c)[k].reg ==> exp'[r] == exp[r] && calls'[r] == calls[r]
    requires 0 <= Cyc(c)[k].reg < |exp| ==>
               exp'[Cyc(c)[k].reg] == calls'[Cyc(c)[k].reg] + Debt(c', m', lvl', k)
    ensures LedgerOk(c', m', lvl', exp', calls')
  {
    hide Debt;
  }

  lemma LedgerKeep(c: Cpu, m: Mod, lvl: seq<Level>, c': Cpu, m': Mod, lvl': seq<Level>, exp: seq<nat>, calls: seq<nat>)
    requires |c.arrays| > 0 && |c'.arrays| > 0 && |lvl| == |lvl'| == 2 && |Cyc(c)| == |Cyc(c')|
    requires LedgerOk(c, m, lvl, exp, calls)
    requires forall j :: 0 <= j < |Cyc(c)| ==> Cyc(c')[j].reg == Cyc(c)[j].reg
    requires forall j :: 0 <= j < |Cyc(c)| ==> Debt(c', m', lvl', j) == Debt(c, m, lvl, j)
    ensures LedgerOk(c', m', lvl', exp, calls)
  {
    hide Debt;
  }

  /** Two levels agree on everything but their queues and activations. */
  predicate SameFrame(lv: Level, lv': Level) {
    lv'.hard == lv.hard && lv'.b == lv.b && lv'.acks == lv.acks && LastPost(lv') == LastPost(lv)
  }

  lemma KeepGlobal(c: Cpu, m: Mod, l0: Level, l1: Level, l0': Level, l1': Level)
    requires |c.arrays| > 0 && SemOk(c, m, l0, l1) && ModOk(c, m, l0, l1)
    requires SameFrame(l0, l0') && SameFrame(l1, l1')
    ensures SemOk(c, m, l0', l1') && ModOk(c, m, l0', l1')
  {
  }

  /** The low level's wakeup depends on the lock level only through its acknowledgement. */
  lemma OtherWake(c: Cpu, m: Mod, lv: Level, lock: Level, lock': Level)
    requires |c.arrays| > 0 && BufOk(lv, |Cyc(c)|, Cur(c)) && WakeOk(lv, 0, c, m, lock)
    requires lock'.acks == lock.acks
    requires lock.th.pc.Post? && lock.th.lev == 0 ==> lock'.th.pc.Post? && lock'.th.lev == 0
    ensures WakeOk(lv, 0, c, m, lock')
  {
  }

  lemma OwnWake(c: Cpu, m: Mod, lv: Level, l: nat, lock: Level, t: Thread, lock': Level)
    requires |c.arrays| > 0 && BufOk(lv, |Cyc(c)|, Cur(c)) && WakeOk(lv, l, c, m, lock) &&
        BufOk(lv.(th := t), |Cyc(c)|, Cur(c))
    requires Queue(lv.(th := t)) == Queue(lv) && (l == LOW ==> lock' == lock)
    requires WillDrain(lv) ==> WillDrain(lv.(th := t)) || lv.posted || Queue(lv) == []
    requires Busy(lv.th) ==> Busy(t) || lv.acks == Cur(c)
    ensures WakeOk(lv.(th := t), l, c, m, lock')
  {
    hide Queue, BufOk;
  }

  /** An access that changes only the activation (and the count of completed calls). */
  lemma ThreadStep(s: State, l: nat, t: Thread, calls: seq<nat>)
    requires Inv(s) && l < 2
    requires !t.pc.StoreCons? && !s.lvl[l].th.pc.StoreCons? && !t.pc.Post? && !s.lvl[l].th.pc.Post?
    requires ActOk(s.lvl[l].(th := t), s.cpu, s.mod)
    requires WillDrain(s.lvl[l]) ==> WillDrain(s.lvl[l].(th := t)) || s.lvl[l].posted || Queue(s.lvl[l]) == []
    requires Busy(s.lvl[l].th) ==> Busy(t) || s.lvl[l].acks == Cur(s.cpu)
    requires LedgerOk(s.cpu, s.mod, s.lvl[l := s.lvl[l].(th := t)], s.exp, calls)
    ensures Inv(s.(lvl := s.lvl[l := s.lvl[l].(th := t)], calls := calls))
  {
    hide LevelOk, OldOk, CycOk, LedgerOk, ModOk, SemOk, WillDrain, Busy;
    var lvl' := s.lvl[l := s.lvl[l].(th := t)];
    OwnLevel(s.cpu, s.mod, s.lvl[l], l, s.lvl[1], t, lvl'[1]);
    KeepGlobal(s.cpu, s.mod, s.lvl[0], s.lvl[1], lvl'[0], lvl'[1]);
    if l == 1 {
      LowLevel(s.cpu, s.mod, s.lvl[0], s.lvl[1], lvl'[1]);
    }
  }

  /** The level of the activation itself. */
  lemma OwnLevel(c: Cpu, m: Mod, lv: Level, l: nat, lock: Level, t: Thread, lock': Level)
    requires |c.arrays| > 0 && LevelOk(lv, l, c, m, lock) && (l == LOW ==> lock' == lock)
    requires !t.pc.StoreCons? && !lv.th.pc.StoreCons? && ActOk(lv.(th := t), c, m)
    requires WillDrain(lv) ==> WillDrain(lv.(th := t)) || lv.posted || Queue(lv) == []
    requires Busy(lv.th) ==> Busy(t) || lv.acks == Cur(c)
    ensures LevelOk(lv.(th := t), l, c, m, lock')
  {
    hide ActOk, QueueOk, BufOk, WakeOk, Queue, WillDrain, Busy;
    KeepQueue(lv, lv.(th := t), l, c, m);
    OwnWake(c, m, lv, l, lock, t, lock');
  }

  /** The low level, when the activation is the lock level's. */
  lemma LowLevel(c: Cpu, m: Mod, lv: Level, lock: Level, lock': Level)
    requires |c.arrays| > 0 && LevelOk(lv, 0, c, m, lock) && lock'.acks == lock.acks && !lock.th.pc.Post?
    ensures LevelOk(lv, 0, c, m, lock')
  {
    hide ActOk, QueueOk, BufOk, WakeOk;
    OtherWake(c, m, lv, lock, lock');
  }

  // ---------------------------------------------------------------- loads

  predicate LookPre(c: Cpu, m: Mod, lv: Level, regs: nat) {
    && |c.arrays| > 0 && |lv.b| == 2 && SoftEnabled(c, lv, regs) && OnlyReads(c, lv)
    && BufOk(lv, |Cyc(c)|, Cur(c)) && ActOk(lv, c, m)
    && OldOk(c, m) && (c.state.Removing? <==> m.RXcall? || m.RFail? || m.RCheck? || m.RWait? || m.RClear? || m.RDone?)
    && (Proc(lv.th.pc) ==> lv.th.ndx < |Cyc(c)| && Pending(c, m, lv.th.ndx))
    && (lv.th.pc.ReadSlot? ==> Entry(lv.b[lv.soft], lv.th.cons) < |Cyc(c)|)
  }

  lemma LookScan(c: Cpu, m: Mod, lv: Level, regs: nat)
    requires LookPre(c, m, lv, regs) && (lv.th.pc.Top? || lv.th.pc.Load? || lv.th.pc.Check? || lv.th.pc.ReadSlot?)
    ensures ActOk(lv.(th := Look(c, lv, regs)), c, m)
  {
    hide OldOk, Pending, Entry;
  }

  lemma LookSwitch(c: Cpu, m: Mod, lv: Level, regs: nat)
    requires LookPre(c, m, lv, regs) && (lv.th.pc.CheckHard? || lv.th.pc.Grow? || lv.th.pc.AckRead? || lv.th.pc.AckCas?)
    ensures ActOk(lv.(th := Look(c, lv, regs)), c, m)
  {
    hide OldOk, Pending, Entry;
  }

  lemma LookCall(c: Cpu, m: Mod, lv: Level, regs: nat)
    requires LookPre(c, m, lv, regs) && (lv.th.pc.ReadHandler? || lv.th.pc.Call? || lv.th.pc.Reread?)
    ensures ActOk(lv.(th := Look(c, lv, regs)), c, m)
  {
    hide Entry;
  }

  lemma LookZero(c: Cpu, m: Mod, lv: Level, regs: nat)
    requires LookPre(c, m, lv, regs) && (lv.th.pc.ReadState? || lv.th.pc.Recapture? || lv.th.pc.Cas?)
    ensures ActOk(lv.(th := Look(c, lv, regs)), c, m)
  {
    hide Entry, OldOk;
  }

  lemma LookRemove(c: Cpu, m: Mod, lv: Level, regs: nat)
    requires LookPre(c, m, lv, regs) && (lv.th.pc.RemRead? || lv.th.pc.RemCall?)
    ensures ActOk(lv.(th := Look(c, lv, regs)), c, m)
  {
    hide Entry, OldOk;
  }

  lemma LookAct(c: Cpu, m: Mod, lv: Level, regs: nat)
    requires LookPre(c, m, lv, regs)
    ensures ActOk(lv.(th := Look(c, lv, regs)), c, m)
  {
    hide Look, ActOk, BufOk, OldOk;
    match lv.th.pc
    case Top => LookScan(c, m, lv, regs);
    case Load => LookScan(c, m, lv, regs);
    case Check => LookScan(c, m, lv, regs);
    case ReadSlot => LookScan(c, m, lv, regs);
    case ReadHandler => LookCall(c, m, lv, regs);
    case Call => LookCall(c, m, lv, regs);
    case Reread => LookCall(c, m, lv, regs);
    case ReadState => LookZero(c, m, lv, regs);
    case Recapture => LookZero(c, m, lv, regs);
    case Cas => LookZero(c, m, lv, regs);
    case RemRead => LookRemove(c, m, lv, regs);
    case RemCall => LookRemove(c, m, lv, regs);
    case _ => LookSwitch(c, m, lv, regs);
  }

  lemma LookDebt(c: Cpu, m: Mod, lvl: seq<Level>, l: nat, regs: nat, k: nat)
    requires |lvl| == 2 && l < 2 && LookPre(c, m, lvl[l], regs) && k < |Cyc(c)|
    ensures Debt(c, m, lvl[l := lvl[l].(th := Look(c, lvl[l], regs))], k) == Debt(c, m, lvl, k)
  {
    hide HandOk, OldOk, BufOk;
  }

  lemma LookWake(c: Cpu, m: Mod, lv: Level, l: nat, lock: Level, regs: nat)
    requires LookPre(c, m, lv, regs) && WakeOk(lv, l, c, m, lock)
    ensures var lv' := lv.(th := Look(c, lv, regs));
            && (WillDrain(lv) ==> WillDrain(lv') || lv.posted || Queue(lv) == [])
            && (Busy(lv.th) ==> Busy(lv'.th) || lv.acks == Cur(c))
  {
    hide OldOk, ThreadOk, Entry;
  }

  lemma LookHead(s: State, l: nat)
    requires Inv(s) && l < |s.lvl| && (Proc(s.lvl[l].th.pc) || s.lvl[l].th.pc.ReadSlot?)
    ensures var lv := s.lvl[l];
            |lv.b| == 2 && lv.soft < 2 && |lv.b[lv.soft].buf| > 0 && |Queue(lv)| > 0 &&
            Queue(lv)[0] == Entry(lv.b[lv.soft], lv.th.cons) && Queue(lv)[0] in Queue(lv)
  {
    hide LedgerOk, WakeOk, SemOk, CycOk, QueueOk, ThreadOk, HandOk, OldOk, ModOk, Queue, Entry;
    Head(s.lvl[l]);
  }

  lemma LookReady(s: State, l: nat)
    requires Inv(s) && Enabled(s, Soft(l)) && OnlyReads(s.cpu, s.lvl[l])
    ensures LookPre(s.cpu, s.mod, s.lvl[l], |s.calls|)
  {
    hide LedgerOk, WakeOk, SemOk, CycOk, Queue, Live, ThreadOk, HandOk, OldOk, Entry;
    var lv := s.lvl[l];
    if Proc(lv.th.pc) || lv.th.pc.ReadSlot? {
      LookHead(s, l);
    }
  }

  lemma ReadStep(s: State, l: nat)
    requires Inv(s) && Enabled(s, Soft(l)) && OnlyReads(s.cpu, s.lvl[l])
    ensures Inv(DoSoft(s, l))
  {
    var c, m, lv := s.cpu, s.mod, s.lvl[l];
    var t := Look(c, lv, |s.calls|);
    assert DoSoft(s, l) == s.(lvl := s.lvl[l := lv.(th := t)]);
    LookReady(s, l);
    LookShape(c, lv, |s.calls|);
    hide Enabled, SoftEnabled, OnlyReads, Look, DoSoft, ActOk, QueueOk, OldOk, CycOk, LedgerOk, ModOk, SemOk, WakeOk,
        Debt, LookPre, BufOk;
    LookAct(c, m, lv, |s.calls|);
    LookWake(c, m, lv, l, s.lvl[1], |s.calls|);
    forall k | 0 <= k < |Cyc(c)|
      ensures Debt(c, m, s.lvl[l := lv.(th := t)], k) == Debt(c, m, s.lvl, k)
    {
      LookDebt(c, m, s.lvl, l, |s.calls|, k);
    }
    LedgerKeep(c, m, s.lvl, c, m, s.lvl[l := lv.(th := t)], s.exp, s.calls);
    ThreadStep(s, l, t, s.calls);
  }

  lemma LookShape(c: Cpu, lv: Level, regs: nat)
    requires |c.arrays| > 0 && |lv.b| == 2 && SoftEnabled(c, lv, regs) && OnlyReads(c, lv)
    ensures var t := Look(c, lv, regs); !t.pc.StoreCons? && !lv.th.pc.StoreCons? && !t.pc.Post? && !lv.th.pc.Post?
  {
  }
}
