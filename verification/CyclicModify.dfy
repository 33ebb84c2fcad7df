/** The cross calls and buffer switches of cyclic_add, cyclic_remove and cyclic_expand keep the invariant. */
module CyclicModify {
  import opened CyclicSystem
  import opened CyclicInvariant
  import opened CyclicSoft
  import opened CyclicWrites

  // ---------------------------------------------------------------- cyclic_add_xcall

  function AddCpu(c: Cpu, k: nat, level: nat, reg: nat): Cpu
    requires |c.arrays| > 0 && k < |Cyc(c)|
  {
    SetCyc(c, k, Cyc(c)[k].(free := false, level := level, reg := reg))
  }

  predicate AddPre(c: Cpu, m: Mod, k: nat) {
    |c.arrays| > 0 && m.MIdle? && k < |Cyc(c)| && Cyc(c)[k].free && Cyc(c)[k].pend == 0
  }

  lemma AddExact(q: seq<nat>, l: nat, c: Cpu, m: Mod, k: nat, level: nat, reg: nat)
    requires AddPre(c, m, k) && Exact(q, l, c, m)
    ensures Exact(q, l, AddCpu(c, k, level, reg), m)
  {
    var c' := AddCpu(c, k, level, reg);
    forall j | j in q
      ensures j < |Cyc(c')| && Cyc(c')[j].level == l && Pending(c', m, j)
    {
      assert Pending(c, m, j);
    }
    forall j | 0 <= j < |Cyc(c')| && Cyc(c')[j].level == l && Pending(c', m, j)
      ensures j in q
    {
      assert Pending(c, m, j);
    }
  }

  lemma AddLevel(lv: Level, l: nat, c: Cpu, m: Mod, k: nat, level: nat, reg: nat, lock: Level)
    requires AddPre(c, m, k) && LevelOk(lv, l, c, m, lock)
    ensures LevelOk(lv, l, AddCpu(c, k, level, reg), m, lock)
  {
    hide Queue, BufShape, Live, Exact, OlderOk, Entry, LocalOk;
    AddExact(Queue(lv), l, c, m, k, level, reg);
    if Proc(lv.th.pc) {
      Current(lv, l, c, m);
    }
  }

  lemma AddDebt(c: Cpu, m: Mod, lvl: seq<Level>, k: nat, level: nat, reg: nat, j: nat)
    requires AddPre(c, m, k) && |lvl| == 2 && level <= HIGH && j < |Cyc(c)|
    requires forall l :: 0 <= l < 2 && Proc(lvl[l].th.pc) ==> lvl[l].th.ndx != k
    ensures Debt(AddCpu(c, k, level, reg), m, lvl, j) == Debt(c, m, lvl, j)
    ensures Debt(c, m, lvl, k) == 0
  {
  }

  lemma AddLedger(c: Cpu, m: Mod, lvl: seq<Level>, exp: seq<nat>, calls: seq<nat>, k: nat, level: nat)
    requires AddPre(c, m, k) && |lvl| == 2 && LedgerOk(c, m, lvl, exp, calls) && -1 <= Cyc(c)[k].reg && level <= HIGH
    requires forall l :: 0 <= l < 2 && Proc(lvl[l].th.pc) ==> lvl[l].th.ndx != k
    ensures LedgerOk(AddCpu(c, k, level, |exp|), m, lvl, exp + [0], calls + [0])
  {
    hide Debt;
    var c', y := AddCpu(c, k, level, |exp|), Cyc(c);
    forall j | 0 <= j < |y| {
      AddDebt(c, m, lvl, k, level, |exp|, j);
    }
    forall r | 0 <= r < |exp + [0]| && (exp + [0])[r] != (calls + [0])[r]
      ensures Holds(Cyc(c'), r)
    {
      var j :| 0 <= j < |y| && y[j].reg == r;
      assert Cyc(c')[j].reg == r;
    }
  }

  lemma AddGlobal(s: State, k: nat, level: nat)
    requires Inv(s) && s.mod.MIdle? && k < |Cyc(s.cpu)| && Cyc(s.cpu)[k].free && level <= HIGH
    ensures var c' := AddCpu(s.cpu, k, level, |s.exp|);
            && AddPre(s.cpu, s.mod, k) && -1 <= Cyc(s.cpu)[k].reg
            && SemOk(c', s.mod, s.lvl[0], s.lvl[1]) && ModOk(c', s.mod, s.lvl[0], s.lvl[1])
            && CycOk(Cyc(c')) && OldOk(c', s.mod)
  {
    hide LevelOk, LedgerOk;
  }

  lemma AddStep(s: State, k: nat, level: nat)
    requires Inv(s) && s.mod.MIdle? && k < |Cyc(s.cpu)| && Cyc(s.cpu)[k].free && level <= HIGH
    ensures Inv(s.(cpu := AddCpu(s.cpu, k, level, |s.exp|), exp := s.exp + [0], calls := s.calls + [0]))
  {
    hide BufOk, QueueOk, ThreadOk, HandOk, LocalOk, WakeOk, SemOk, ModOk, CycOk, OldOk, LedgerOk;
    var c, m := s.cpu, s.mod;
    AddGlobal(s, k, level);
    AddLevel(s.lvl[0], 0, c, m, k, level, |s.exp|, s.lvl[1]);
    AddLevel(s.lvl[1], 1, c, m, k, level, |s.exp|, s.lvl[1]);
    forall l | 0 <= l < 2 && Proc(s.lvl[l].th.pc)
      ensures s.lvl[l].th.ndx != k
    {
      Current(s.lvl[l], l, c, m);
    }
    AddLedger(c, m, s.lvl, s.exp, s.calls, k, level);
  }

  // ---------------------------------------------------------------- cyclic_remove_xcall

  function RemoveCpu(c: Cpu, k: nat): Cpu
    requires |c.arrays| > 0 && k < |Cyc(c)|
  {
    var y := Cyc(c)[k];
    var c1 := SetCyc(c, k, y.(free := true, pend := 0));
    if y.pend != 0 then c1.(rpend := y.pend) else c1
  }

  predicate RemovePre(c: Cpu, m: Mod, k: nat) {
    |c.arrays| > 0 && m.RXcall? && m.k == k < |Cyc(c)| && !Cyc(c)[k].free && c.sem == 0 && c.rpend == 0
  }

  lemma RemoveView(c: Cpu, m: Mod, k: nat)
    requires RemovePre(c, m, k)
    ensures OnlySlot(c, m, RemoveCpu(c, k), RCheck(k, m.wait), k)
    ensures Pending(RemoveCpu(c, k), RCheck(k, m.wait), k) == Pending(c, m, k)
  {
  }

  lemma RemoveAct(lv: Level, c: Cpu, m: Mod, k: nat)
    requires RemovePre(c, m, k) && BufShape(lv) && ActOk(lv, c, m)
    ensures ActOk(lv, RemoveCpu(c, k), RCheck(k, m.wait))
  {
    hide LocalOk, BufShape;
  }

  lemma RemoveLevel(lv: Level, l: nat, c: Cpu, m: Mod, k: nat, lock: Level)
    requires RemovePre(c, m, k) && LevelOk(lv, l, c, m, lock)
    ensures LevelOk(lv, l, RemoveCpu(c, k), RCheck(k, m.wait), lock)
  {
    hide Exact, OlderOk, LocalOk, Queue, BufShape, ThreadOk, OnlySlot, Pending;
    RemoveView(c, m, k);
    RemoveAct(lv, c, m, k);
    ExactOther(Queue(lv), l, c, m, RemoveCpu(c, k), RCheck(k, m.wait), k);
  }

  lemma RemoveDebt(c: Cpu, m: Mod, lvl: seq<Level>, k: nat, j: nat)
    requires RemovePre(c, m, k) && |lvl| == 2 && j < |Cyc(c)|
    ensures Debt(RemoveCpu(c, k), RCheck(k, m.wait), lvl, j) == Debt(c, m, lvl, j)
  {
  }

  lemma RemoveGlobal(s: State, k: nat)
    requires Inv(s) && s.mod.RXcall? && s.mod.k == k
    ensures RemovePre(s.cpu, s.mod, k)
    ensures var c' := RemoveCpu(s.cpu, k);
            && SemOk(c', RCheck(k, s.mod.wait), s.lvl[0], s.lvl[1]) &&
                ModOk(c', RCheck(k, s.mod.wait), s.lvl[0], s.lvl[1])
            && CycOk(Cyc(c')) && OldOk(c', RCheck(k, s.mod.wait))
  {
    hide LevelOk, LedgerOk;
  }

  lemma RemoveStep(s: State, k: nat)
    requires Inv(s) && s.mod.RXcall? && s.mod.k == k && k < |Cyc(s.cpu)|
    ensures Inv(s.(cpu := RemoveCpu(s.cpu, k), mod := RCheck(k, s.mod.wait)))
  {
    hide LevelOk, SemOk, ModOk, CycOk, OldOk, LedgerOk, Debt;
    RemoveGlobal(s, k);
    RemoveLevel(s.lvl[0], 0, s.cpu, s.mod, k, s.lvl[1]);
    RemoveLevel(s.lvl[1], 1, s.cpu, s.mod, k, s.lvl[1]);
    forall j | 0 <= j < |Cyc(s.cpu)| {
      RemoveDebt(s.cpu, s.mod, s.lvl, k, j);
    }
    LedgerKeep(s.cpu, s.mod, s.lvl, RemoveCpu(s.cpu, k), RCheck(k, s.mod.wait), s.lvl, s.exp, s.calls);
  }
}
