/** Expiries at CY_HIGH_LEVEL, and the holder of cpu_lock with its cross calls, keep the invariant. */
module CyclicHigh {
  import opened CyclicSystem
  import opened Counting
  import opened CyclicInvariant
  import opened CyclicSoft
  import opened CyclicWrites

  // ---------------------------------------------------------------- room in the buffer

  /** With room to spare, producing appends to what is to be consumed. */
  lemma PushLive(p: Pc, from: nat, k: nat)
    requires |p.buf| > 0 && from <= p.prod && p.prod - from < |p.buf|
    ensures Live(Push(p, k), from) == Live(p, from) + [k]
  {
    var p' := Push(p, k);
    forall i | 0 <= i < p.prod - from
      ensures Live(p', from)[i] == Live(p, from)[i]
    {
      ModApart(from + i, p.prod - (from + i), |p.buf|);
      assert Live(p', from)[i] == Entry(p', from + i) && Live(p, from)[i] == Entry(p, from + i);
    }
    assert Live(p', from)[p.prod - from] == Entry(p', p.prod) == k;
  }

  lemma PushQueue(lv: Level, k: nat)
    requires BufShape(lv) && |Queue(lv)| < |lv.b[lv.hard].buf|
    ensures var lv' := lv.(b := lv.b[lv.hard := Push(lv.b[lv.hard], k)], posted := true);
            BufShape(lv') && Queue(lv') == Queue(lv) + [k] && (OlderOk(lv) ==> OlderOk(lv'))
  {
    hide Entry;
    if lv.soft == lv.hard {
      PushLive(lv.b[lv.soft], Front(lv), k);
    } else {
      PushLive(lv.b[lv.hard], 0, k);
    }
  }

  // ---------------------------------------------------------------- cyclic_expire

  function ExpireCpu(c: Cpu, k: nat): Cpu
    requires |c.arrays| > 0 && k < |Cyc(c)|
  {
    SetCyc(c, k, Cyc(c)[k].(pend := Cyc(c)[k].pend + 1))
  }

  function ExpireLevel(lv: Level, pend: nat, k: nat): Level
    requires |lv.b| == 2 && lv.hard < 2 && |lv.b[lv.hard].buf| > 0
  {
    if pend == 0 then lv.(b := lv.b[lv.hard := Push(lv.b[lv.hard], k)], posted := true) else lv.(posted := true)
  }

  predicate ExpirePre(lv: Level, l: nat, c: Cpu, m: Mod, k: nat) {
    && |c.arrays| > 0 && BufOk(lv, |Cyc(c)|, Cur(c)) && k < |Cyc(c)| && Cyc(c)[k].level == l < 2
    && !Cyc(c)[k].free && 0 <= Cyc(c)[k].reg && !Stashed(c, m, k)
  }

  lemma ExpireAct(lv: Level, l: nat, c: Cpu, m: Mod, k: nat)
    requires ExpirePre(lv, l, c, m, k) && ActOk(lv, c, m)
    requires BufShape(ExpireLevel(lv, Cyc(c)[k].pend, k))
    requires Proc(lv.th.pc) ==>
               Entry(ExpireLevel(lv, Cyc(c)[k].pend, k).b[lv.soft], lv.th.cons) == Entry(lv.b[lv.soft], lv.th.cons)
    ensures ActOk(ExpireLevel(lv, Cyc(c)[k].pend, k), ExpireCpu(c, k), m)
  {
    hide Entry;
  }

  lemma ExpireQueue(lv: Level, l: nat, c: Cpu, m: Mod, k: nat)
    requires ExpirePre(lv, l, c, m, k) && QueueOk(lv, l, c, m)
    ensures var lv', c' := ExpireLevel(lv, Cyc(c)[k].pend, k), ExpireCpu(c, k);
            BufOk(lv', |Cyc(c')|, Cur(c')) && QueueOk(lv', l, c', m) && OnlySlot(c, m, c', m, k)
  {
    hide Exact, Live, Entry;
    var lv', c' := ExpireLevel(lv, Cyc(c)[k].pend, k), ExpireCpu(c, k);
    if Cyc(c)[k].pend == 0 {
      Room(lv, l, c, m, k);
      PushQueue(lv, k);
      ExactPush(Queue(lv), l, c, m, c', m, k);
    } else {
      KeepQueue(lv, lv', l, c, m);
      ExactOther(Queue(lv), l, c, m, c', m, k);
    }
  }

  /** A slot that is not queued leaves room in the buffer for itself. */
  lemma Room(lv: Level, l: nat, c: Cpu, m: Mod, k: nat)
    requires ExpirePre(lv, l, c, m, k) && QueueOk(lv, l, c, m) && Cyc(c)[k].pend == 0
    ensures |Queue(lv)| < |lv.b[lv.hard].buf|
  {
    hide Queue, BufShape;
    Pigeonhole(Queue(lv), |Cyc(c)|, k);
  }

  /** Producing does not overwrite the slot being processed. */
  lemma KeptEntry(lv: Level, l: nat, c: Cpu, m: Mod, k: nat)
    requires ExpirePre(lv, l, c, m, k) && QueueOk(lv, l, c, m) && LocalOk(lv) && Proc(lv.th.pc)
    ensures Entry(ExpireLevel(lv, Cyc(c)[k].pend, k).b[lv.soft], lv.th.cons) == Entry(lv.b[lv.soft], lv.th.cons)
  {
    hide Exact, OlderOk;
    if Cyc(c)[k].pend == 0 && lv.soft == lv.hard {
      Room(lv, l, c, m, k);
      var p := lv.b[lv.soft];
      assert |Queue(lv)| == p.prod - lv.th.cons;
      ModApart(lv.th.cons, p.prod - lv.th.cons, |p.buf|);
    }
  }

  lemma ExpireDebt(c: Cpu, m: Mod, lvl: seq<Level>, l: nat, k: nat, j: nat)
    requires |lvl| == 2 && l < 2 && ExpirePre(lvl[l], l, c, m, k) && j < |Cyc(c)| && ThreadOk(lvl[l], c, m)
    ensures Debt(ExpireCpu(c, k), m, lvl[l := ExpireLevel(lvl[l], Cyc(c)[k].pend, k)], j) == Debt(c, m, lvl, j) +
        B(j == k)
  {
    hide BufOk;
  }

  lemma ExpireGlobal(s: State, l: nat, k: nat)
    requires Inv(s) && l < 2 && ExpirePre(s.lvl[l], l, s.cpu, s.mod, k)
    ensures var c', lvl' := ExpireCpu(s.cpu, k), s.lvl[l := ExpireLevel(s.lvl[l], Cyc(s.cpu)[k].pend, k)];
            && SemOk(c', s.mod, lvl'[0], lvl'[1]) && ModOk(c', s.mod, lvl'[0], lvl'[1])
            && CycOk(Cyc(c')) && OldOk(c', s.mod)
  {
    hide LevelOk, LedgerOk, BufOk;
  }

  lemma ExpireLedger(c: Cpu, m: Mod, lvl: seq<Level>, l: nat, k: nat, exp: seq<nat>, calls: seq<nat>)
    requires |lvl| == 2 && l < 2 && ExpirePre(lvl[l], l, c, m, k) && LedgerOk(c, m, lvl, exp, calls) &&
        ThreadOk(lvl[l], c, m)
    ensures Cyc(c)[k].reg < |exp|
    ensures LedgerOk(ExpireCpu(c, k), m, lvl[l := ExpireLevel(lvl[l], Cyc(c)[k].pend, k)],
                     exp[Cyc(c)[k].reg := exp[Cyc(c)[k].reg] + 1], calls)
  {
    hide Debt, ExpireLevel, ThreadOk, Stashed;
    forall j | 0 <= j < |Cyc(c)| {
      ExpireDebt(c, m, lvl, l, k, j);
    }
    LedgerStep(c, m, lvl, exp, calls, ExpireCpu(c, k), m, lvl[l := ExpireLevel(lvl[l], Cyc(c)[k].pend, k)],
               exp[Cyc(c)[k].reg := exp[Cyc(c)[k].reg] + 1], calls, k);
  }

  lemma ExpireLow(s: State, l: nat, k: nat)
    requires Inv(s) && l < 2 && ExpirePre(s.lvl[l], l, s.cpu, s.mod, k) && Cyc(s.cpu)[k].reg < |s.exp|
    ensures Inv(s.(cpu := ExpireCpu(s.cpu, k), lvl := s.lvl[l := ExpireLevel(s.lvl[l], Cyc(s.cpu)[k].pend, k)],
                   exp := s.exp[Cyc(s.cpu)[k].reg := s.exp[Cyc(s.cpu)[k].reg] + 1]))
  {
    hide Exact, OlderOk, ThreadOk, HandOk, SemOk, ModOk, CycOk, OldOk, LedgerOk, Queue, OnlySlot, LocalOk, Entry, Live;
    var c, m, lv := s.cpu, s.mod, s.lvl[l];
    var r := Cyc(c)[k].reg;
    var s' := s.(cpu := ExpireCpu(c, k), lvl := s.lvl[l := ExpireLevel(lv, Cyc(c)[k].pend, k)],
        exp := s.exp[r := s.exp[r] + 1]);
    ExpireQueue(lv, l, c, m, k);
    if Proc(lv.th.pc) {
      KeptEntry(lv, l, c, m, k);
    }
    ExpireAct(lv, l, c, m, k);
    ExpireGlobal(s, l, k);
    ExpireLedger(c, m, s.lvl, l, k, s.exp, s.calls);
    SlotStep(s, l, k, s');
  }

  /** A high-level cyclic's handler runs inside the expiry. */
  lemma ExpireHigh(s: State, k: nat)
    requires Inv(s) && k < |Cyc(s.cpu)| && Cyc(s.cpu)[k].level == HIGH && 0 <= Cyc(s.cpu)[k].reg < |s.exp|
    requires |s.calls| == |s.exp|
    ensures var r := Cyc(s.cpu)[k].reg; Inv(s.(exp := s.exp[r := s.exp[r] + 1], calls := s.calls[r := s.calls[r] + 1]))
  {
    hide LevelOk, SemOk, ModOk, CycOk, OldOk, Debt;
    var c, m, r := s.cpu, s.mod, Cyc(s.cpu)[k].reg;
    LedgerStep(c, m, s.lvl, s.exp, s.calls, c, m, s.lvl, s.exp[r := s.exp[r] + 1], s.calls[r := s.calls[r] + 1], k);
  }

  lemma ExpireStep(s: State, k: nat)
    requires Inv(s) && Enabled(s, Expire(k)) && Cyc(s.cpu)[k].pend < UINT32_MAX
    ensures Inv(DoExpire(s, k))
  {
    hide Exact, OlderOk, ThreadOk, HandOk, SemOk, CycOk, OldOk, Queue, LocalOk, WakeOk, Debt;
    var y := Cyc(s.cpu)[k];
    if y.level == HIGH {
      ExpireHigh(s, k);
    } else {
      ExpireLow(s, y.level, k);
    }
  }

  // ---------------------------------------------------------------- a soft interrupt begins

  function AfterBegin(lv: Level, cur: nat): Level {
    lv.(posted := false, th := IDLE_THREAD.(pc := Top, arr := cur))
  }

  lemma BeginLevel(lv: Level, l: nat, c: Cpu, m: Mod, lock: Level)
    requires |c.arrays| > 0 && LevelOk(lv, l, c, m, lock) && lv.th.pc.Idle?
    ensures LevelOk(AfterBegin(lv, Cur(c)), l, c, m, if l == 1 then AfterBegin(lv, Cur(c)) else lock)
  {
    hide Queue, QueueOk, BufOk, Stashed, Entry;
    KeepQueue(lv, AfterBegin(lv, Cur(c)), l, c, m);
  }

  lemma BeginStep(s: State, l: nat)
    requires Inv(s) && l < 2 && s.lvl[l].th.pc.Idle?
    ensures Inv(s.(lvl := s.lvl[l := AfterBegin(s.lvl[l], Cur(s.cpu))]))
  {
    hide BufOk, QueueOk, ActOk, WakeOk, SemOk, ModOk, CycOk, OldOk, LedgerOk, Stashed;
    var c, m, lvl' := s.cpu, s.mod, s.lvl[l := AfterBegin(s.lvl[l], Cur(s.cpu))];
    BeginLevel(s.lvl[l], l, c, m, s.lvl[1]);
    OtherWake(c, m, s.lvl[0], s.lvl[1], lvl'[1]);
    KeepGlobal(c, m, s.lvl[0], s.lvl[1], lvl'[0], lvl'[1]);
    assert forall j :: 0 <= j < |Cyc(c)| ==> Debt(c, m, lvl', j) == Debt(c, m, s.lvl, j);
    LedgerKeep(c, m, s.lvl, c, m, lvl', s.exp, s.calls);
  }

  // ---------------------------------------------------------------- steps of the lock holder that no level sees

  lemma ViewStep(s: State, c': Cpu, m': Mod)
    requires Inv(s) && SameView(s.cpu, s.mod, c', m')
    requires SemOk(c', m', s.lvl[0], s.lvl[1]) && ModOk(c', m', s.lvl[0], s.lvl[1])
    ensures Inv(s.(cpu := c', mod := m'))
  {
    hide LevelOk, SemOk, ModOk, CycOk, OldOk, LedgerOk, Stashed;
    ViewLevel(s.lvl[0], 0, s.cpu, s.mod, c', m', s.lvl[1]);
    ViewLevel(s.lvl[1], 1, s.cpu, s.mod, c', m', s.lvl[1]);
    ViewLedger(s.cpu, s.mod, c', m', s.lvl, s.exp, s.calls);
    ViewOld(s.cpu, s.mod, c', m');
  }

  lemma QuietStep(s: State, st: Step)
    requires Inv(s) && Enabled(s, st)
    requires st.ExpandBegin? || st.RemoveBegin? ||
        (st.Modify? && (s.mod.EDone? || s.mod.RFail? || s.mod.RCheck? || s.mod.RWait? || s.mod.RClear? || s.mod.RDone?))
    ensures Inv(Do(s, st))
  {
    hide LevelOk, CycOk, OldOk, LedgerOk;
    var s' := Do(s, st);
    ViewStep(s, s'.cpu, s'.mod);
  }
}
