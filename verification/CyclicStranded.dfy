/** Every run, resizes in the window included: what such a resize catches is stranded for good, and nothing else is. */
module CyclicStranded {
  import opened CyclicSystem
  import opened CyclicInvariant
  import opened CyclicSoft
  import opened CyclicWrites
  import opened CyclicExpand
  import opened CyclicTheorems
  import opened CyclicRace
  import opened CyclicKin

  lemma PostedInv(h: State, l: nat)
    requires Inv(h) && l < 2
    ensures Inv(h.(lvl := h.lvl[l := h.lvl[l].(posted := true)]))
  {
    hide LevelOk, SemOk, ModOk, CycOk, OldOk, LedgerOk, Stashed;
    var c, m, lvl' := h.cpu, h.mod, h.lvl[l := h.lvl[l].(posted := true)];
    Posted(h.lvl[l], l, c, m, h.lvl[1], lvl'[1]);
    if l == 1 {
      SameLock(h.lvl[0], c, m, h.lvl[1], lvl'[1]);
    }
    KeepGlobal(c, m, h.lvl[0], h.lvl[1], lvl'[0], lvl'[1]);
    assert forall j :: 0 <= j < |Cyc(c)| ==> Debt(c, m, lvl', j) == Debt(c, m, h.lvl, j);
    LedgerKeep(c, m, h.lvl, c, m, lvl', h.exp, h.calls);
  }

  lemma SameLock(lv: Level, c: Cpu, m: Mod, lock: Level, lock': Level)
    requires |c.arrays| > 0 && LevelOk(lv, 0, c, m, lock) && lock'.acks == lock.acks && lock'.th == lock.th
    ensures LevelOk(lv, 0, c, m, lock')
  {
    hide BufOk, QueueOk, ActOk, Queue;
  }

  // ---------------------------------------------------------------- a resize in the window

  /** The slots with nothing pending at level l. */
  function Without(y: seq<Cyclic>, l: nat): seq<Cyclic> {
    seq(|y|, k requires 0 <= k < |y| => if y[k].level == l then y[k].(pend := 0) else y[k])
  }

  function WithoutCpu(c: Cpu, l: nat): Cpu
    requires |c.arrays| > 0
  {
    c.(arrays := c.arrays[|c.arrays| - 1 := Without(Cyc(c), l)])
  }

  /** The level as if nothing had been queued in the window. */
  function WithoutLevel(lv: Level): Level
    requires lv.soft < |lv.b|
  {
    lv.(b := lv.b[lv.soft := lv.b[lv.soft].(prod := lv.th.cons)])
  }

  /** Some slot of level l that is pending holds registration r. */
  predicate Caught(y: seq<Cyclic>, l: nat, r: int) {
    exists k :: 0 <= k < |y| && y[k].level == l && y[k].pend > 0 && y[k].reg == r
  }

  /** The expiries as if those caught had not happened. */
  function WithoutExp(y: seq<Cyclic>, l: nat, exp: seq<nat>, calls: seq<nat>): seq<nat>
    requires |exp| == |calls|
  {
    seq(|exp|, r requires 0 <= r < |exp| => if Caught(y, l, r) then calls[r] else exp[r])
  }

  function Dropped(h: State, l: nat): State
    requires |h.cpu.arrays| > 0 && l < |h.lvl| && h.lvl[l].soft < |h.lvl[l].b| && |h.exp| == |h.calls|
  {
    h.(cpu := WithoutCpu(h.cpu, l), lvl := h.lvl[l := WithoutLevel(h.lvl[l])],
       exp := WithoutExp(Cyc(h.cpu), l, h.exp, h.calls))
  }

  lemma WithoutView(c: Cpu, l: nat)
    requires |c.arrays| > 0
    ensures var c' := WithoutCpu(c, l);
      && c' == c.(arrays := c'.arrays) && |c'.arrays| == |c.arrays| && |Cyc(c')| == |Cyc(c)|
      && forall k :: 0 <= k < |Cyc(c)| ==>
          Cyc(c')[k] == if Cyc(c)[k].level == l then Cyc(c)[k].(pend := 0) else Cyc(c)[k]
  {
  }

  /** The level that is dropped. */
  lemma DropOwn(lv: Level, l: nat, c: Cpu, lock: Level, lock': Level)
    requires |c.arrays| > 0 && LevelOk(lv, l, c, EXcall, lock) && lv.th.pc.CheckHard?
    ensures lv.soft == lv.hard && LevelOk(WithoutLevel(lv), l, WithoutCpu(c, l), EXcall, lock')
  {
    hide WithoutCpu, Entry;
    WithoutView(c, l);
    assert Queue(WithoutLevel(lv)) == [];
  }

  lemma DropOther(lv: Level, l: nat, c: Cpu, lock: Level, o: nat, lock': Level)
    requires |c.arrays| > 0 && LevelOk(lv, l, c, EXcall, lock) && o != l
    requires lock'.acks == lock.acks && lock'.th == lock.th
    ensures LevelOk(lv, l, WithoutCpu(c, o), EXcall, lock')
  {
    hide WithoutCpu, Entry, Queue, BufShape;
    WithoutView(c, o);
    if Proc(lv.th.pc) {
      Current(lv, l, c, EXcall);
    }
    var c' := WithoutCpu(c, o);
    assert forall k :: 0 <= k < |Cyc(c)| && Cyc(c)[k].level == l ==> Pending(c', EXcall, k) == Pending(c, EXcall, k);
  }

  lemma DropGlobal(h: State, l: nat)
    requires Inv(h) && h.mod.EXcall? && l < 2 && h.lvl[l].soft == h.lvl[l].hard
    ensures var h' := Dropped(h, l);
      SemOk(h'.cpu, EXcall, h'.lvl[0], h'.lvl[1]) && ModOk(h'.cpu, EXcall, h'.lvl[0], h'.lvl[1])
      && CycOk(Cyc(h'.cpu)) && OldOk(h'.cpu, EXcall)
  {
    hide WithoutCpu, LevelOk, LedgerOk, WithoutExp;
    WithoutView(h.cpu, l);
  }

  lemma DropDebt(c: Cpu, lvl: seq<Level>, l: nat, k: nat)
    requires |c.arrays| > 0 && |lvl| == 2 && l < 2 && lvl[l].th.pc.CheckHard? && lvl[l].soft < |lvl[l].b|
    requires k < |Cyc(c)|
    ensures |Cyc(WithoutCpu(c, l))| == |Cyc(c)|
    ensures var d := Debt(WithoutCpu(c, l), EXcall, lvl[l := WithoutLevel(lvl[l])], k);
      if Cyc(c)[k].level == l then d == 0 && Debt(c, EXcall, lvl, k) == Cyc(c)[k].pend else d == Debt(c, EXcall, lvl, k)
  {
    hide WithoutCpu;
    WithoutView(c, l);
  }

  lemma DropLedger(h: State, l: nat)
    requires Inv(h) && h.mod.EXcall? && l < 2 && h.lvl[l].th.pc.CheckHard?
    ensures LedgerOk(WithoutCpu(h.cpu, l), EXcall, h.lvl[l := WithoutLevel(h.lvl[l])],
                     WithoutExp(Cyc(h.cpu), l, h.exp, h.calls), h.calls)
  {
    hide WithoutCpu, LevelOk, SemOk, ModOk, CycOk, OldOk, Debt, WithoutLevel;
    InvShape(h);
    WithoutView(h.cpu, l);
    forall k | 0 <= k < |Cyc(h.cpu)| {
      DropDebt(h.cpu, h.lvl, l, k);
    }
  }

  lemma InvShape(h: State)
    requires Inv(h)
    ensures |h.exp| == |h.calls| && Shaped(h)
  {
  }

  /** A state in the window, without what was queued there, satisfies the invariant. */
  lemma DropInv(h: State, l: nat)
    requires Inv(h) && h.mod.EXcall? && l < 2 && InWindow(h.lvl[l])
    ensures |h.exp| == |h.calls| && Inv(Dropped(h, l)) && !InWindow(Dropped(h, l).lvl[l])
  {
    hide LevelOk, SemOk, ModOk, CycOk, OldOk, LedgerOk, WithoutExp, WithoutCpu;
    InvShape(h);
    WithoutView(h.cpu, l);
    var h' := Dropped(h, l);
    DropOwn(h.lvl[l], l, h.cpu, h.lvl[1], h'.lvl[1]);
    DropOther(h.lvl[1 - l], 1 - l, h.cpu, h.lvl[1], l, h'.lvl[1]);
    DropGlobal(h, l);
    DropLedger(h, l);
  }

  /** The slots of level l with expiries pending. */
  function PendingAt(c: Cpu, l: nat): set<nat>
    requires |c.arrays| > 0
  {
    set k: nat | k < |Cyc(c)| && Cyc(c)[k].level == l && Cyc(c)[k].pend > 0
  }

  lemma DropCpuKin(c: Cpu, d: Cpu, lost: set<nat>, l: nat)
    requires KinCpu(c, d, lost) && CycOk(Cyc(d)) && l < 2
    ensures KinCpu(c, WithoutCpu(d, l), lost + PendingAt(d, l))
  {
    hide WithoutCpu;
    WithoutView(d, l);
    WithoutOld(d, l);
  }

  lemma WithoutOld(c: Cpu, l: nat)
    requires |c.arrays| > 0
    ensures forall a :: 0 <= a < Cur(c) ==> WithoutCpu(c, l).arrays[a] == c.arrays[a]
  {
  }

  lemma DropLevelNear(lv: Level, mv: Level)
    requires NearLevel(lv, mv) && lv.b == mv.b && mv.soft == mv.hard && mv.th.pc.CheckHard?
    requires mv.th.cons <= mv.b[mv.soft].prod
    ensures NearLevel(lv, WithoutLevel(mv))
  {
  }

  /** What is queued in the window is forgotten. */
  lemma DropNear(s: State, h: State, lost: set<nat>, l: nat)
    requires Inv(h) && Near(s, h, lost) && l < 2 && InWindow(h.lvl[l]) && s.lvl[l].b == h.lvl[l].b
    ensures |h.exp| == |h.calls| && Near(s, Dropped(h, l), lost + PendingAt(h.cpu, l))
  {
    hide SemOk, ModOk, OldOk, KinCpu, QueueOk, WakeOk, ThreadOk, NearLevel, WithoutLevel, WithoutCpu;
    DropCpuKin(s.cpu, h.cpu, lost, l);
    DropLevelNear(s.lvl[l], h.lvl[l]);
  }

  /** What the cross call catches of the two levels. */
  function CaughtIn(h: State): set<nat>
    requires |h.cpu.arrays| > 0 && |h.lvl| == 2
  {
    (if InWindow(h.lvl[0]) then PendingAt(h.cpu, 0) else {}) + (if InWindow(h.lvl[1]) then PendingAt(h.cpu, 1) else {})
  }

  /** The cross call, in the window or not: what it catches joins the lost. */
  lemma RaceKin(s: State, h: State, lost: set<nat>) returns (h': State)
    requires Inv(h) && Kin(s, h, lost) && ExpKin(s, h, lost) && s.mod.EXcall? && Enabled(s, Modify)
    ensures Inv(h') && Kin(DoModify(s), h', lost + CaughtIn(h)) && ExpKin(DoModify(s), h', lost + CaughtIn(h))
  {
    hide Inv, Kin, Near, DoModify, InWindow, PendingAt, ExpKin, WithoutCpu, WithoutLevel, WithoutExp;
    KinNear(s, h, lost);
    NearMod(s, h, lost);
    InvShape(h);
    var g, all := h, lost;
    if InWindow(h.lvl[0]) {
      DropNear(s, h, lost, 0);
      DroppedExp(s, h, lost, 0);
      DropInv(h, 0);
      g, all := Dropped(h, 0), lost + PendingAt(h.cpu, 0);
      PendingStays(h.cpu, 0, 1);
    }
    InvShape(g);
    if InWindow(h.lvl[1]) {
      DropNear(s, g, all, 1);
      DroppedExp(s, g, all, 1);
      DropInv(g, 1);
      g, all := Dropped(g, 1), all + PendingAt(h.cpu, 1);
    }
    CrossKin(s, g, all);
    NearMod(s, g, all);
    CrossExp(s, g, all);
    XcallStep(g);
    h' := DoModify(g);
    assert all == lost + CaughtIn(h);
  }

  lemma NearMod(s: State, g: State, lost: set<nat>)
    requires Near(s, g, lost)
    ensures g.mod.EXcall?
  {
  }

  lemma PendingStays(c: Cpu, l: nat, o: nat)
    requires |c.arrays| > 0 && l != o
    ensures |WithoutCpu(c, l).arrays| > 0 && PendingAt(WithoutCpu(c, l), o) == PendingAt(c, o)
  {
    hide WithoutCpu;
    WithoutView(c, l);
  }

  // ---------------------------------------------------------------- no more calls

  /** From s to s', slot k keeps its registration, and that registration is not called. */
  predicate Silent(s: State, s': State, k: nat) {
    && |s.cpu.arrays| > 0 && k < |Cyc(s.cpu)| && |s'.cpu.arrays| > 0 && k < |Cyc(s'.cpu)|
    && var r := Cyc(s.cpu)[k].reg;
    0 <= r < |s.calls| && Cyc(s'.cpu)[k].reg == r && r < |s'.calls| && s'.calls[r] == s.calls[r]
  }

  lemma LostFacts(s: State, h: State, lost: set<nat>, k: nat)
    requires Inv(h) && Kin(s, h, lost) && k in lost
    ensures |s.cpu.arrays| > 0 && k < |Cyc(s.cpu)| && !Cyc(s.cpu)[k].free && Cyc(s.cpu)[k].level < HIGH
    ensures 0 <= Cyc(s.cpu)[k].reg < |s.calls| && Cyc(s.cpu)[k].pend > 0
    ensures forall j :: 0 <= j < |Cyc(s.cpu)| && j != k ==> Cyc(s.cpu)[j].reg != Cyc(s.cpu)[k].reg
  {
    hide LevelOk, SemOk, ModOk, OldOk, KinLevel, Debt;
    assert KinSlot(Cyc(s.cpu)[k], Cyc(h.cpu)[k], true);
    assert forall j :: 0 <= j < |Cyc(s.cpu)| ==> Cyc(s.cpu)[j].reg == Cyc(h.cpu)[j].reg;
  }

  lemma SoftSilent(s: State, h: State, lost: set<nat>, l: nat, k: nat)
    requires Inv(h) && Kin(s, h, lost) && Enabled(s, Soft(l)) && k in lost
    ensures Silent(s, DoSoft(s, l), k)
  {
    hide LevelOk, SemOk, ModOk, OldOk, CycOk, KinLevel, DoSoft, SoftEnabled, LedgerOk;
    LostFacts(s, h, lost, k);
    SoftKin(s, h, lost, l);
    SoftEffect(h, l, DoSoft(h, l));
    assert KinSlot(Cyc(s.cpu)[k], Cyc(h.cpu)[k], true);
    assert KinSlot(Cyc(DoSoft(s, l).cpu)[k], Cyc(DoSoft(h, l).cpu)[k], true);
    if HasHandler(h.lvl[l].th.pc) {
      NotLost(s, h, lost, l);
      HandlerReg(h, l);
      var j := h.lvl[l].th.ndx;
      assert KinSlot(Cyc(s.cpu)[j], Cyc(h.cpu)[j], j in lost);
    }
  }

  lemma HandlerReg(h: State, l: nat)
    requires Inv(h) && l < 2 && HasHandler(h.lvl[l].th.pc)
    ensures h.lvl[l].th.ndx < |Cyc(h.cpu)| && h.lvl[l].th.reg == Cyc(h.cpu)[h.lvl[l].th.ndx].reg
  {
    hide BufOk, QueueOk, WakeOk, LocalOk, HandOk, SemOk, ModOk, OldOk, CycOk, LedgerOk;
  }

  lemma ExpireSilent(s: State, h: State, lost: set<nat>, j: nat, k: nat)
    requires Inv(h) && Kin(s, h, lost) && Enabled(s, Expire(j)) && k in lost
    ensures Silent(s, DoExpire(s, j), k)
  {
    hide Inv, Kin, Push;
    LostFacts(s, h, lost, k);
  }

  lemma OtherSilent(s: State, h: State, lost: set<nat>, st: Step, k: nat)
    requires Inv(h) && Kin(s, h, lost) && Enabled(s, st) && k in lost
    requires st.Begin? || st.Add? || st.ExpandBegin? || st.RemoveBegin?
    ensures Silent(s, Do(s, st), k)
  {
    hide Inv, Kin;
    LostFacts(s, h, lost, k);
  }

  lemma ModifySilent(s: State, h: State, lost: set<nat>, k: nat)
    requires Inv(h) && Kin(s, h, lost) && Enabled(s, Modify) && k in lost
    ensures Silent(s, DoModify(s), k)
  {
    hide Inv, KinCpu, KinLevel, Grown, Freed, DoExpandXcall, ExpandCpu;
    LostFacts(s, h, lost, k);
    if s.mod.EXcall? {
      Alike(s, h, lost);
      CrossForm(s);
      ExpandView(s.cpu, s.mod);
    }
  }

  /** No step calls the handler of a lost slot, or gives the slot to another registration. */
  lemma StaysSilent(s: State, h: State, lost: set<nat>, st: Step, k: nat)
    requires Inv(h) && Kin(s, h, lost) && Enabled(s, st) && k in lost
    ensures Silent(s, Do(s, st), k)
  {
    hide Inv, Kin, Enabled, DoSoft, DoExpire, DoModify, Silent;
    match st
    case Soft(l) => SoftSilent(s, h, lost, l, k);
    case Expire(j) => ExpireSilent(s, h, lost, j, k);
    case Modify => ModifySilent(s, h, lost, k);
    case _ => OtherSilent(s, h, lost, st, k);
  }

  // ---------------------------------------------------------------- the expiries of everybody else

  /** Some lost slot holds registration r. */
  predicate LostReg(c: Cpu, lost: set<nat>, r: int)
    requires |c.arrays| > 0
  {
    exists k :: k in lost && k < |Cyc(c)| && Cyc(c)[k].reg == r
  }

  /** Only registrations of lost slots have been counted differently. */
  predicate ExpKin(s: State, h: State, lost: set<nat>) {
    && |h.cpu.arrays| > 0 && |s.exp| == |h.exp|
    && forall r :: 0 <= r < |s.exp| && s.exp[r] != h.exp[r] ==> LostReg(h.cpu, lost, r)
  }

  /** What a step does to the counts of expiries. */
  function Counted(exp: seq<nat>, st: Step, y: seq<Cyclic>): seq<nat> {
    match st
    case Expire(k) =>
      if k < |y| && 0 <= y[k].reg < |exp| then exp[y[k].reg := exp[y[k].reg] + 1] else exp
    case Add(_, _) => exp + [0]
    case _ => exp
  }

  lemma CountedStep(s: State, st: Step)
    requires Enabled(s, st)
    ensures Do(s, st).exp == Counted(s.exp, st, Cyc(s.cpu))
  {
  }

  lemma LostRegStays(s: State, h: State, lost: set<nat>, st: Step, h': State, r: nat)
    requires Inv(h) && Kin(s, h, lost) && Enabled(s, st) && Kin(Do(s, st), h', lost) && LostReg(h.cpu, lost, r)
    ensures |h'.cpu.arrays| > 0 && LostReg(h'.cpu, lost, r)
  {
    hide Inv, Do, Enabled, KinLevel;
    var k :| k in lost && k < |Cyc(h.cpu)| && Cyc(h.cpu)[k].reg == r;
    StaysSilent(s, h, lost, st, k);
    assert KinSlot(Cyc(s.cpu)[k], Cyc(h.cpu)[k], true);
    assert KinSlot(Cyc(Do(s, st).cpu)[k], Cyc(h'.cpu)[k], true);
  }

  lemma StepExp(s: State, h: State, lost: set<nat>, st: Step)
    requires Inv(h) && Kin(s, h, lost) && Enabled(s, st) && Enabled(h, st) && Kin(Do(s, st), Do(h, st), lost)
    requires ExpKin(s, h, lost) && (st.Expire? ==> st.k !in lost)
    ensures ExpKin(Do(s, st), Do(h, st), lost)
  {
    hide Inv, Do, Enabled, KinLevel, LostReg;
    CountedStep(s, st);
    CountedStep(h, st);
    if st.Expire? && st.k < |Cyc(s.cpu)| {
      assert KinSlot(Cyc(s.cpu)[st.k], Cyc(h.cpu)[st.k], false);
    }
    var s', h' := Do(s, st), Do(h, st);
    forall r | 0 <= r < |s'.exp| && s'.exp[r] != h'.exp[r]
      ensures LostReg(h'.cpu, lost, r)
    {
      LostRegStays(s, h, lost, st, h', r);
    }
  }

  lemma DroppedExp(s: State, h: State, lost: set<nat>, l: nat)
    requires ExpKin(s, h, lost) && l < |h.lvl| && h.lvl[l].soft < |h.lvl[l].b| && |h.exp| == |h.calls|
    ensures ExpKin(s, Dropped(h, l), lost + PendingAt(h.cpu, l))
  {
    hide WithoutCpu, WithoutLevel;
    WithoutView(h.cpu, l);
    var h', lost' := Dropped(h, l), lost + PendingAt(h.cpu, l);
    forall r | 0 <= r < |s.exp| && s.exp[r] != h'.exp[r]
      ensures LostReg(h'.cpu, lost', r)
    {
      if Caught(Cyc(h.cpu), l, r) {
        var k :| 0 <= k < |Cyc(h.cpu)| && Cyc(h.cpu)[k].level == l && Cyc(h.cpu)[k].pend > 0 && Cyc(h.cpu)[k].reg == r;
        assert k in lost' && Cyc(h'.cpu)[k].reg == r;
      } else {
        var k :| k in lost && k < |Cyc(h.cpu)| && Cyc(h.cpu)[k].reg == r;
        assert k in lost' && Cyc(h'.cpu)[k].reg == r;
      }
    }
  }

  lemma CrossExp(s: State, h: State, lost: set<nat>)
    requires ExpKin(s, h, lost) && s.mod.EXcall? && h.mod.EXcall? && Enabled(s, Modify) && Enabled(h, Modify)
    ensures ExpKin(DoModify(s), DoModify(h), lost)
  {
    hide Zeroed, Doubled;
    ExpandView(h.cpu, EXcall);
    var h' := DoModify(h);
    forall r | 0 <= r < |s.exp| && s.exp[r] != h.exp[r]
      ensures LostReg(h'.cpu, lost, r)
    {
      var k :| k in lost && k < |Cyc(h.cpu)| && Cyc(h.cpu)[k].reg == r;
      assert Cyc(h'.cpu)[k].reg == r;
    }
  }

  lemma LostExpireExp(s: State, h: State, lost: set<nat>, k: nat, h': State)
    requires Inv(h) && Kin(s, h, lost) && ExpKin(s, h, lost) && Enabled(s, Expire(k)) && k in lost
    requires h'.cpu == h.cpu && h'.exp == h.exp
    ensures ExpKin(Do(s, Expire(k)), h', lost)
  {
    hide Inv, KinLevel;
    CountedStep(s, Expire(k));
    assert KinSlot(Cyc(s.cpu)[k], Cyc(h.cpu)[k], true);
    assert LostReg(h.cpu, lost, Cyc(s.cpu)[k].reg);
  }

  // ---------------------------------------------------------------- every run

  /** The slot is pending and in no buffer of its level. */
  predicate Lost(s: State, k: nat) {
    && Shaped(s) && k < |Cyc(s.cpu)| && Cyc(s.cpu)[k].level < HIGH && Cyc(s.cpu)[k].pend > 0
    && var lv := s.lvl[Cyc(s.cpu)[k].level]; BufShape(lv) && k !in Queue(lv)
  }

  /** The step is the cross call of a resize, and slot k is queued in the window of its level. */
  predicate Catches(s: State, st: Step, k: nat) {
    && st.Modify? && s.mod.EXcall? && Shaped(s) && k < |Cyc(s.cpu)| && Cyc(s.cpu)[k].level < HIGH
    && var lv := s.lvl[Cyc(s.cpu)[k].level]; InWindow(lv) && BufShape(lv) && k in Queue(lv)
  }

  /** No count outgrows softint's signed local except a lost one, and no lost slot is removed. */
  ghost predicate Tame(tr: seq<State>, ss: seq<Step>)
    requires Run(tr, ss)
  {
    forall i :: 0 <= i < |ss| ==> TameStep(tr[i], ss[i])
  }

  predicate TameStep(s: State, st: Step) {
    && |s.cpu.arrays| > 0
    && (forall k :: 0 <= k < |Cyc(s.cpu)| && Cyc(s.cpu)[k].pend > INT32_MAX ==> Lost(s, k))
    && (st.RemoveBegin? ==> !Lost(s, st.k))
  }

  lemma QueueKin(lv: Level, mv: Level, m: Mod)
    requires KinLevel(lv, mv, m) && BufShape(mv)
    ensures BufShape(lv) && (lv.soft == lv.hard || m.EXcall? ==> Queue(lv) == Queue(mv))
    ensures forall k :: k in Queue(mv) ==> k in Queue(lv)
  {
    hide Entry;
    if lv.soft == lv.hard || lv.b[lv.soft] == mv.b[lv.soft] {
      assert Queue(lv) == Queue(mv);
    } else {
      LivePrefix(lv.b[lv.soft], mv.b[lv.soft], Front(lv));
    }
  }

  lemma LivePrefix(p: Pc, q: Pc, from: nat)
    requires |p.buf| > 0 && p.buf == q.buf && from <= q.prod <= p.prod
    ensures forall k :: k in Live(q, from) ==> k in Live(p, from)
  {
    forall i | 0 <= i < q.prod - from
      ensures Live(p, from)[i] == Live(q, from)[i]
    {
      assert Entry(p, from + i) == Entry(q, from + i);
    }
  }

  lemma LostIn(s: State, h: State, lost: set<nat>, k: nat)
    requires Inv(h) && Kin(s, h, lost) && Lost(s, k)
    ensures k in lost
  {
    hide ActOk, WakeOk, SemOk, ModOk, CycOk, OldOk, LedgerOk, KinLevel, Queue, BufShape, OlderOk;
    var l := Cyc(s.cpu)[k].level;
    LevelKin(s, h, lost, l);
    QueueKin(s.lvl[l], h.lvl[l], s.mod);
    assert KinSlot(Cyc(s.cpu)[k], Cyc(h.cpu)[k], k in lost);
    assert !Pending(h.cpu, h.mod, k);
  }

  lemma InLost(s: State, h: State, lost: set<nat>, k: nat)
    requires Inv(h) && Kin(s, h, lost) && k in lost && !s.mod.EWait?
    ensures Lost(s, k)
  {
    hide LocalOk, ThreadOk, WakeOk, SemOk, ModOk, CycOk, OldOk, LedgerOk, KinLevel, Queue, BufShape, OlderOk;
    assert KinSlot(Cyc(s.cpu)[k], Cyc(h.cpu)[k], true);
    var l := Cyc(s.cpu)[k].level;
    Alike(s, h, lost);
    LevelKin(s, h, lost, l);
    SameThread(s.lvl[l], h.lvl[l], s.mod);
    QueueKin(s.lvl[l], h.lvl[l], s.mod);
    assert !Pending(h.cpu, h.mod, k);
  }

  lemma FitsKin(s: State, h: State, lost: set<nat>, st: Step)
    requires Inv(h) && Kin(s, h, lost) && TameStep(s, st)
    ensures |h.cpu.arrays| > 0 && Fits(h.cpu)
  {
    hide Inv, KinLevel, Lost;
    forall k | 0 <= k < |Cyc(h.cpu)|
      ensures Cyc(h.cpu)[k].pend <= INT32_MAX
    {
      assert KinSlot(Cyc(s.cpu)[k], Cyc(h.cpu)[k], k in lost);
      if Cyc(s.cpu)[k].pend > INT32_MAX {
        LostIn(s, h, lost, k);
      }
    }
  }

  lemma CaughtExact(s: State, h: State, lost: set<nat>, k: nat)
    requires Inv(h) && Kin(s, h, lost) && s.mod.EXcall?
    ensures k in CaughtIn(h) <==> Catches(s, Modify, k)
  {
    hide ActOk, WakeOk, SemOk, ModOk, CycOk, OldOk, LedgerOk, KinLevel, Queue, BufShape, OlderOk;
    Alike(s, h, lost);
    if k < |Cyc(h.cpu)| && Cyc(h.cpu)[k].level < 2 {
      var l := Cyc(h.cpu)[k].level;
      assert KinSlot(Cyc(s.cpu)[k], Cyc(h.cpu)[k], k in lost);
      LevelKin(s, h, lost, l);
      SameThread(s.lvl[l], h.lvl[l], s.mod);
      QueueKin(s.lvl[l], h.lvl[l], s.mod);
      WindowKin(s.lvl[l], h.lvl[l]);
      assert Pending(h.cpu, h.mod, k) == (Cyc(h.cpu)[k].pend > 0);
    }
  }

  lemma WindowKin(lv: Level, mv: Level)
    requires KinLevel(lv, mv, EXcall)
    ensures InWindow(lv) == InWindow(mv)
  {
  }

  /** One step of a tame run. */
  lemma TameKin(s: State, h: State, lost: set<nat>, st: Step) returns (h': State, lost': set<nat>)
    requires Inv(h) && Kin(s, h, lost) && ExpKin(s, h, lost) && Enabled(s, st) && TameStep(s, st)
    ensures Inv(h') && Kin(Do(s, st), h', lost') && ExpKin(Do(s, st), h', lost')
    ensures forall k: nat :: k in lost' <==> k in lost || Catches(s, st, k)
  {
    hide Inv, DoExpire, DoSoft, DoModify, Kin, TameStep, Lost, CaughtIn, Fits, ExpKin;
    lost' := lost;
    InvShape(h);
    Alike(s, h, lost);
    if st.Expire? && st.k in lost {
      LostExpireKin(s, h, lost, st.k);
      var l := Cyc(s.cpu)[st.k].level;
      PostedInv(h, l);
      h' := h.(lvl := h.lvl[l := h.lvl[l].(posted := true)]);
      LostExpireExp(s, h, lost, st.k, h');
    } else if st.Modify? && s.mod.EXcall? {
      h' := RaceKin(s, h, lost);
      lost' := lost + CaughtIn(h);
      forall k: nat
        ensures k in CaughtIn(h) <==> Catches(s, st, k)
      {
        CaughtExact(s, h, lost, k);
      }
    } else {
      RemovesKept(s, h, lost, st);
      FitsKin(s, h, lost, st);
      StepKin(s, h, lost, st);
      SameMod(s, h, lost);
      StepKeeps(h, st);
      StepExp(s, h, lost, st);
      h' := Do(h, st);
    }
  }

  lemma SameMod(s: State, h: State, lost: set<nat>)
    requires Kin(s, h, lost)
    ensures h.mod == s.mod
  {
  }

  lemma RemovesKept(s: State, h: State, lost: set<nat>, st: Step)
    requires Inv(h) && Kin(s, h, lost) && Enabled(s, st) && TameStep(s, st)
    ensures st.RemoveBegin? ==> st.k !in lost
  {
    hide Inv, Kin, Lost;
    if st.RemoveBegin? && st.k in lost {
      InLost(s, h, lost, st.k);
    }
  }

  ghost predicate EverCaught(tr: seq<State>, ss: seq<Step>, i: nat, k: nat)
    requires |tr| == |ss| + 1 && i < |tr|
  {
    exists j :: 0 <= j < i && Catches(tr[j], ss[j], k)
  }

  /** Every state of a tame run, with what resizes have caught forgotten, satisfies the invariant. */
  lemma {:induction false} RunKin(tr: seq<State>, ss: seq<Step>, i: nat) returns (h: State, lost: set<nat>)
    requires Run(tr, ss) && Tame(tr, ss) && i < |tr|
    ensures Inv(h) && Kin(tr[i], h, lost) && ExpKin(tr[i], h, lost)
    ensures forall k: nat :: k in lost <==> EverCaught(tr, ss, i, k)
  {
    hide Inv, Do, Enabled, Kin, TameStep, Catches, ExpKin;
    if i == 0 {
      h, lost := tr[0], {};
      InitInv();
      InitKin();
    } else {
      var g, was := RunKin(tr, ss, i - 1);
      assert TameStep(tr[i - 1], ss[i - 1]) && Enabled(tr[i - 1], ss[i - 1]);
      assert tr[i - 1 + 1] == Do(tr[i - 1], ss[i - 1]);
      h, lost := TameKin(tr[i - 1], g, was, ss[i - 1]);
      forall k: nat
        ensures EverCaught(tr, ss, i, k) <==> EverCaught(tr, ss, i - 1, k) || Catches(tr[i - 1], ss[i - 1], k)
      {
        if EverCaught(tr, ss, i - 1, k) {
          var j :| 0 <= j < i - 1 && Catches(tr[j], ss[j], k);
          assert 0 <= j < i;
        }
      }
    }
  }

  lemma InitKin()
    ensures Kin(Init(), Init(), {}) && ExpKin(Init(), Init(), {})
  {
  }

  /** In every run, outside the wait of a resize, a pending slot is in no buffer of its level if and only if the cross
      call of an earlier resize caught it in the window. */
  lemma StrandedExact(tr: seq<State>, ss: seq<Step>, i: nat, k: nat)
    requires Run(tr, ss) && Tame(tr, ss) && i < |tr| && !tr[i].mod.EWait?
    ensures Lost(tr[i], k) <==> EverCaught(tr, ss, i, k)
  {
    hide Inv, Do, Enabled, Kin, Lost, EverCaught, Tame, Run;
    var h, lost := RunKin(tr, ss, i);
    if Lost(tr[i], k) {
      LostIn(tr[i], h, lost, k);
    } else if k in lost {
      InLost(tr[i], h, lost, k);
    }
  }

  /** In every run, a slot that the cross call of a resize has caught in the window stays pending and unremoved, and its
      handler is never called again. */
  lemma {:induction false} StrandedForever(tr: seq<State>, ss: seq<Step>, i: nat, j: nat, k: nat)
    requires Run(tr, ss) && Tame(tr, ss) && j < i < |tr| && Catches(tr[j], ss[j], k)
    ensures |tr[i].cpu.arrays| > 0 && k < |Cyc(tr[i].cpu)| && Cyc(tr[i].cpu)[k].pend > 0 && !Cyc(tr[i].cpu)[k].free
    ensures Silent(tr[j + 1], tr[i], k)
    decreases i
  {
    hide Inv, Do, Enabled, Kin, Catches, Init, Tame, Silent;
    var h, lost := RunKin(tr, ss, i);
    assert EverCaught(tr, ss, i, k);
    LostFacts(tr[i], h, lost, k);
    if i > j + 1 {
      StrandedForever(tr, ss, i - 1, j, k);
      var g, was := RunKin(tr, ss, i - 1);
      assert EverCaught(tr, ss, i - 1, k);
      assert Enabled(tr[i - 1], ss[i - 1]) && tr[i - 1 + 1] == Do(tr[i - 1], ss[i - 1]);
      StaysSilent(tr[i - 1], g, was, ss[i - 1], k);
      SilentOn(tr[j + 1], tr[i - 1], tr[i], k);
    } else {
      SilentAt(tr[i], k);
    }
  }

  lemma SilentOn(s: State, s1: State, s2: State, k: nat)
    requires Silent(s, s1, k) && Silent(s1, s2, k)
    ensures Silent(s, s2, k)
  {
  }

  lemma SilentAt(s: State, k: nat)
    requires |s.cpu.arrays| > 0 && k < |Cyc(s.cpu)| && 0 <= Cyc(s.cpu)[k].reg < |s.calls|
    ensures Silent(s, s, k)
  {
  }

  /** In every run, the expiries of every registration whose slot was never caught are its completed handler calls plus
      what the slot still owes. */
  lemma OthersAnswered(tr: seq<State>, ss: seq<Step>, i: nat, k: nat)
    requires Run(tr, ss) && Tame(tr, ss) && i < |tr| && |tr[i].cpu.arrays| > 0 && k < |Cyc(tr[i].cpu)|
    requires !EverCaught(tr, ss, i, k) && 0 <= Cyc(tr[i].cpu)[k].reg
    ensures |tr[i].lvl| == 2 && Cyc(tr[i].cpu)[k].reg < |tr[i].exp| == |tr[i].calls|
    ensures var s, r := tr[i], Cyc(tr[i].cpu)[k].reg; s.exp[r] == s.calls[r] + Debt(s.cpu, s.mod, s.lvl, k)
  {
    hide Do, Enabled, EverCaught, Tame, Run, LevelOk, SemOk, ModOk, CycOk, OldOk, KinLevel, Debt;
    var h, lost := RunKin(tr, ss, i);
    var s := tr[i];
    assert KinSlot(Cyc(s.cpu)[k], Cyc(h.cpu)[k], false);
    DebtKin(s, h, lost, k);
  }

  lemma DebtKin(s: State, h: State, lost: set<nat>, k: nat)
    requires Kin(s, h, lost) && k !in lost && k < |Cyc(s.cpu)|
    ensures k < |Cyc(h.cpu)| && Debt(s.cpu, s.mod, s.lvl, k) == Debt(h.cpu, h.mod, h.lvl, k)
  {
    assert KinSlot(Cyc(s.cpu)[k], Cyc(h.cpu)[k], false);
  }

  // ---------------------------------------------------------------- such runs exist

  lemma KinSelf(s: State)
    requires Shaped(s)
    ensures Kin(s, s, {})
  {
    forall l | 0 <= l < 2
      ensures KinLevel(s.lvl[l], s.lvl[l], s.mod)
    {
      LevelSelf(s.lvl[l], s.mod);
    }
    hide KinLevel;
    assert s.cpu == s.cpu.(arrays := s.cpu.arrays);
  }

  lemma LevelSelf(lv: Level, m: Mod)
    requires |lv.b| == 2 && lv.hard < 2 && lv.soft < 2
    ensures KinLevel(lv, lv, m)
  {
  }

  lemma CleanStep(s: State, st: Step)
    requires Inv(s) && Fits(s.cpu)
    ensures TameStep(s, st)
  {
    hide Inv, Kin, Lost;
    InvShape(s);
    KinSelf(s);
    forall k | Lost(s, k)
      ensures false
    {
      LostIn(s, s, {}, k);
    }
  }

  /** A clean run is tame. */
  lemma CleanTame(tr: seq<State>, ss: seq<Step>)
    requires Run(tr, ss) && Clean(tr, ss)
    ensures Tame(tr, ss)
  {
    hide Inv, Do, Enabled, Fits, Race, TameStep, Init;
    forall i | 0 <= i < |ss|
      ensures TameStep(tr[i], ss[i])
    {
      RunKeeps(tr, ss, i);
      CleanStep(tr[i], ss[i]);
    }
  }

  lemma WindowQueue(s: State, l: nat)
    requires Inv(s) && s.mod.EXcall? && l < 2 && InWindow(s.lvl[l])
    ensures Shaped(s) && BufShape(s.lvl[l]) && Queue(s.lvl[l]) != []
    ensures Catches(s, Modify, Queue(s.lvl[l])[0])
  {
    hide SemOk, ModOk, CycOk, OldOk, LedgerOk, WakeOk, ThreadOk, HandOk, Entry;
    var lv := s.lvl[l];
    assert |Live(lv.b[lv.soft], Front(lv))| > 0;
    hide Queue, Live, InWindow, LocalOk;
    var k := Queue(lv)[0];
    assert k in Queue(lv);
  }

  /** A tame run in which a resize catches a slot. */
  lemma CatchReachable() returns (tr: seq<State>, ss: seq<Step>, k: nat)
    ensures Run(tr, ss) && Tame(tr, ss) && EverCaught(tr, ss, |ss|, k)
  {
    hide Inv, Do, Enabled, Fits, Race, TameStep, Init, Catches, InWindow, Queue;
    var tr0, ss0 := WindowReachable();
    var n := |ss0|;
    var s := tr0[n];
    RunKeeps(tr0, ss0, n);
    CleanTame(tr0, ss0);
    CleanStep(s, Modify);
    WindowQueue(s, 0);
    CrossForm(s);
    k := Queue(s.lvl[0])[0];
    tr, ss := tr0 + [Do(s, Modify)], ss0 + [Modify];
    assert ss[n] == Modify && tr[n] == s && tr[n + 1] == Do(s, Modify);
    assert Catches(tr[n], ss[n], k);
    forall i | 0 <= i < |ss|
      ensures Enabled(tr[i], ss[i]) && tr[i + 1] == Do(tr[i], ss[i]) && TameStep(tr[i], ss[i])
    {
      if i < n {
        assert tr[i] == tr0[i] && ss[i] == ss0[i] && tr[i + 1] == tr0[i + 1];
      }
    }
  }
}
