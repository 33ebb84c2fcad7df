/** cyclic_expand and cyclic_expand_xcall keep the invariant, unless the cross call lands in one window. */
module CyclicExpand {
  import opened CyclicSystem
  import opened CyclicInvariant
  import opened CyclicSoft
  import opened CyclicWrites

  // ---------------------------------------------------------------- allocation

  lemma GrownLevel(lv: Level, l: nat, c: Cpu, m: Mod, lock: Level)
    requires |c.arrays| > 0 && LevelOk(lv, l, c, m, lock) && !m.EWait?
    ensures var lv' := Grown(lv, 2 * |Cyc(c)|, |c.arrays|);
            LevelOk(lv', l, c, m, if l == 1 then lv' else lock) && Fresh(lv', c)
  {
    hide Exact, Entry, Stashed;
    var lv' := Grown(lv, 2 * |Cyc(c)|, |c.arrays|);
    assert lv.soft == lv.hard;
    assert Queue(lv') == Queue(lv);
  }

  lemma AllocStep(s: State)
    requires Inv(s) && s.mod.EAlloc? && Enabled(s, Modify)
    ensures Inv(DoModify(s))
  {
    hide BufOk, QueueOk, ThreadOk, LocalOk, CycOk, OldOk, LedgerOk, Queue;
    var c, m, s' := s.cpu, s.mod, DoModify(s);
    var lvl' := s'.lvl;
    GrownLevel(s.lvl[0], 0, c, m, s.lvl[1]);
    GrownLevel(s.lvl[1], 1, c, m, s.lvl[1]);
    assert LevelOk(lvl'[0], 0, c, m, lvl'[1]);
    ViewLevel(lvl'[0], 0, c, m, s'.cpu, s'.mod, lvl'[1]);
    ViewLevel(lvl'[1], 1, c, m, s'.cpu, s'.mod, lvl'[1]);
    assert forall j :: 0 <= j < |Cyc(c)| ==> Debt(c, m, lvl', j) == Debt(c, m, s.lvl, j);
    LedgerKeep(c, m, s.lvl, c, m, lvl', s.exp, s.calls);
    ViewLedger(c, m, s'.cpu, s'.mod, lvl', s.exp, s.calls);
    ViewOld(c, m, s'.cpu, s'.mod);
  }

  // ---------------------------------------------------------------- the cross call

  /** An activation has seen its buffer empty and has yet to look at cys_hard, but an expiry has since been
      queued. */
  predicate InWindow(lv: Level) {
    lv.soft < |lv.b| && lv.th.pc.CheckHard? && lv.th.cons != lv.b[lv.soft].prod
  }

  function ExpandCpu(c: Cpu): Cpu
    requires |c.arrays| > 0
  {
    c.(arrays := c.arrays[Cur(c) := Zeroed(Cyc(c))] + [Doubled(Cyc(c))])
  }

  function Flipped(lv: Level, posted: bool): Level
    requires lv.hard < 2
  {
    lv.(hard := 1 - lv.hard, posted := posted)
  }

  lemma ExpandView(c: Cpu, m: Mod)
    requires |c.arrays| > 0 && m.EXcall?
    ensures var c' := ExpandCpu(c);
            && c' == c.(arrays := c'.arrays) && |c'.arrays| == |c.arrays| + 1 && Cyc(c') == Doubled(Cyc(c)) &&
                Prev(c') == Zeroed(Cyc(c))
            && OldOk(c', EWait) && |Cyc(c')| == 2 * |Cyc(c)|
            && (forall j :: 0 <= j < |Cyc(c)| ==> Cyc(c')[j] == Cyc(c)[j])
            && (forall j :: |Cyc(c)| <= j < |Cyc(c')| ==> Cyc(c')[j] == Cyclic(true, LOW, -1, 0))
  {
  }

  lemma ExpandQueue(lv: Level, posted: bool, c: Cpu, m: Mod)
    requires |c.arrays| > 0 && m.EXcall? && BufOk(lv, |Cyc(c)|, Cur(c)) && lv.soft == lv.hard && Fresh(lv, c)
    ensures var lv', c' := Flipped(lv, posted), ExpandCpu(c);
            && |Cyc(c')| == 2 * |Cyc(c)| && BufOk(lv', |Cyc(c')|, Cur(c')) && Queue(lv') == Queue(lv)
            && Live(lv.b[lv.soft], Front(lv)) == Queue(lv) && Live(lv'.b[lv'.soft], Front(lv')) == Queue(lv)
  {
    hide Entry, Zeroed;
    ExpandView(c, m);
  }

  lemma ExpandExact(q: seq<nat>, l: nat, c: Cpu, m: Mod)
    requires |c.arrays| > 0 && m.EXcall? && Exact(q, l, c, m)
    ensures Exact(q, l, ExpandCpu(c), EWait) && forall j :: j in q ==> j < |Cyc(c)|
  {
    hide ExpandCpu, Zeroed, Doubled;
    var c' := ExpandCpu(c);
    ExpandView(c, m);
    forall j | j in q
      ensures j < |Cyc(c')| && Cyc(c')[j].level == l && Pending(c', EWait, j)
    {
      assert Pending(c, m, j);
    }
    forall j | 0 <= j < |Cyc(c')| && Cyc(c')[j].level == l && Pending(c', EWait, j)
      ensures j in q
    {
      assert j < |Cyc(c)| && Pending(c, m, j);
    }
  }

  lemma ExpandAct(lv: Level, posted: bool, c: Cpu, m: Mod)
    requires |c.arrays| > 0 && m.EXcall? && BufOk(lv, |Cyc(c)|, Cur(c)) && BufShape(Flipped(lv, posted))
    requires ActOk(lv, c, m) && !InWindow(lv)
    ensures ActOk(Flipped(lv, posted), ExpandCpu(c), EWait)
  {
    hide ExpandCpu, Zeroed, Doubled, Entry;
    ExpandView(c, m);
  }

  lemma ExpandLevel(lv: Level, l: nat, posted: bool, c: Cpu, m: Mod, lock: Level)
    requires |c.arrays| > 0 && m.EXcall? && LevelOk(lv, l, c, m, lock) && Fresh(lv, c) && !InWindow(lv)
    requires l < 2 && lock.hard < 2 && lock.acks == Cur(c) && (lv.posted ==> posted) && (l == 1 ==> posted)
    ensures LevelOk(Flipped(lv, posted), l, ExpandCpu(c), EWait, if l == 1
        then Flipped(lv, posted) else Flipped(lock, true))
  {
    hide ExpandCpu, Exact, Entry, Live, LocalOk, ThreadOk, Queue, Stashed;
    ExpandView(c, m);
    ExpandQueue(lv, posted, c, m);
    ExpandExact(Queue(lv), l, c, m);
    ExpandAct(lv, posted, c, m);
  }

  lemma ExpandDebt(c: Cpu, m: Mod, lvl: seq<Level>, j: nat, p: bool)
    requires |c.arrays| > 0 && m.EXcall? && |lvl| == 2 && j < |Cyc(c)| && lvl[0].hard < 2 && lvl[1].hard < 2 &&
        j < |Cyc(ExpandCpu(c))|
    ensures Debt(ExpandCpu(c), EWait, [Flipped(lvl[0], p), Flipped(lvl[1], true)], j) == Debt(c, m, lvl, j)
  {
    hide ExpandCpu;
    ExpandView(c, m);
  }

  lemma ExpandLedger(c: Cpu, m: Mod, lvl: seq<Level>, exp: seq<nat>, calls: seq<nat>, p: bool)
    requires |c.arrays| > 0 && m.EXcall? && |lvl| == 2 && lvl[0].hard < 2 && lvl[1].hard < 2 &&
        LedgerOk(c, m, lvl, exp, calls)
    ensures LedgerOk(ExpandCpu(c), EWait, [Flipped(lvl[0], p), Flipped(lvl[1], true)], exp, calls)
  {
    hide Debt, ExpandCpu, Zeroed, Doubled;
    var c' := ExpandCpu(c);
    ExpandView(c, m);
    forall j | 0 <= j < |Cyc(c)| {
      ExpandDebt(c, m, lvl, j, p);
    }
    forall r | 0 <= r < |exp| && exp[r] != calls[r]
      ensures Holds(Cyc(c'), r)
    {
      var j :| 0 <= j < |Cyc(c)| && Cyc(c)[j].reg == r;
      assert Cyc(c')[j].reg == r;
    }
  }

  lemma ExpandGlobal(s: State)
    requires Inv(s) && s.mod.EXcall?
    ensures var c', l0, l1 := ExpandCpu(s.cpu), Flipped(s.lvl[0], s.lvl[0].posted), Flipped(s.lvl[1], true);
            && SemOk(c', EWait, l0, l1) && ModOk(c', EWait, l0, l1) && CycOk(Cyc(c')) && OldOk(c', EWait)
            && s.lvl[0].acks == s.lvl[1].acks == Cur(s.cpu)
  {
    hide BufOk, QueueOk, LedgerOk, ThreadOk, LocalOk, Queue, ExpandCpu, WakeOk;
    ExpandView(s.cpu, s.mod);
  }

  /** The cross call keeps the invariant when no activation is in the window. */
  lemma XcallStep(s: State)
    requires Inv(s) && s.mod.EXcall? && Enabled(s, Modify) && !InWindow(s.lvl[0]) && !InWindow(s.lvl[1])
    ensures Inv(DoModify(s))
  {
    hide LevelOk, SemOk, CycOk, OldOk, LedgerOk, Doubled, Zeroed, InWindow;
    ExpandGlobal(s);
    ExpandLevel(s.lvl[0], 0, s.lvl[0].posted, s.cpu, s.mod, s.lvl[1]);
    ExpandLevel(s.lvl[1], 1, true, s.cpu, s.mod, s.lvl[1]);
    ExpandLedger(s.cpu, s.mod, s.lvl, s.exp, s.calls, s.lvl[0].posted);
  }

  // ---------------------------------------------------------------- completion

  lemma WaitLevel(lv: Level, l: nat, c: Cpu, lock: Level)
    requires |c.arrays| > 0 && LevelOk(lv, l, c, EWait, lock) && lv.acks == Cur(c) && c.sem > 0
    ensures LevelOk(lv, l, c.(sem := c.sem - 1), EFree, lock)
  {
    hide Queue, OlderOk, BufOk, LocalOk;
    var c' := c.(sem := c.sem - 1);
    assert forall j :: 0 <= j < |Cyc(c)| ==> Pending(c, EWait, j) == Pending(c', EFree, j);
  }

  /** Both levels have acknowledged, so nothing looks at the old array or the old buffers any more. */
  lemma WaitStep(s: State)
    requires Inv(s) && s.mod.EWait? && s.cpu.sem > 0
    ensures Inv(s.(cpu := s.cpu.(sem := s.cpu.sem - 1), mod := EFree))
  {
    hide LevelOk, CycOk, LedgerOk;
    var c' := s.cpu.(sem := s.cpu.sem - 1);
    WaitLevel(s.lvl[0], 0, s.cpu, s.lvl[1]);
    WaitLevel(s.lvl[1], 1, s.cpu, s.lvl[1]);
    assert forall j :: 0 <= j < |Cyc(c')| ==> Debt(c', EFree, s.lvl, j) == Debt(s.cpu, EWait, s.lvl, j);
    LedgerKeep(s.cpu, EWait, s.lvl, c', EFree, s.lvl, s.exp, s.calls);
  }

  lemma FreedLevel(lv: Level, l: nat, c: Cpu, lock: Level)
    requires |c.arrays| > 0 && LevelOk(lv, l, c, EFree, lock)
    ensures LevelOk(Freed(lv), l, c.(freed := Cur(c)), EDone, if l == 1 then Freed(lv) else lock)
  {
    hide Exact, Entry;
    var c' := c.(freed := Cur(c));
    assert lv.soft == lv.hard && Queue(Freed(lv)) == Queue(lv);
    FreedExact(Queue(lv), l, c);
  }

  lemma FreedExact(q: seq<nat>, l: nat, c: Cpu)
    requires |c.arrays| > 0 && Exact(q, l, c, EFree)
    ensures Exact(q, l, c.(freed := Cur(c)), EDone)
  {
    assert forall j :: 0 <= j < |Cyc(c)| ==> Pending(c, EFree, j) == Pending(c.(freed := Cur(c)), EDone, j);
  }

  lemma FreeStep(s: State)
    requires Inv(s) && s.mod.EFree? && Enabled(s, Modify)
    ensures Inv(DoModify(s))
  {
    hide BufOk, QueueOk, ActOk, Queue, CycOk, LedgerOk;
    var c', lvl' := s.cpu.(freed := Cur(s.cpu)), [Freed(s.lvl[0]), Freed(s.lvl[1])];
    FreedLevel(s.lvl[0], 0, s.cpu, s.lvl[1]);
    FreedLevel(s.lvl[1], 1, s.cpu, s.lvl[1]);
    assert forall j :: 0 <= j < |Cyc(c')| ==> Debt(c', EDone, lvl', j) == Debt(s.cpu, EFree, s.lvl, j);
    LedgerKeep(s.cpu, EFree, s.lvl, c', EDone, lvl', s.exp, s.calls);
  }
}
