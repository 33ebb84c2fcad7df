/** The stores and successful compare-and-swaps of cyclic_softint keep the invariant. */
module CyclicWrites {
  import opened CyclicSystem
  import opened Counting
  import opened CyclicInvariant
  import opened CyclicSoft

  // ---------------------------------------------------------------- a handler call completes

  lemma ReturnAct(lv: Level, c: Cpu, m: Mod, t: Thread)
    requires |c.arrays| > 0 && BufShape(lv) && ActOk(lv, c, m)
    requires || (lv.th.pc.InHandler? && t == lv.th.(pc := Reread))
             || (lv.th.pc.RemIn? && lv.th.left > 0 && t == lv.th.(pc := RemCall, left := lv.th.left - 1))
    ensures ActOk(lv.(th := t), c, m)
  {
  }

  /** The next activation once the handler has returned. */
  function AfterReturn(t: Thread): Thread
    requires t.pc.InHandler? || (t.pc.RemIn? && t.left > 0)
  {
    if t.pc.InHandler? then t.(pc := Reread) else t.(pc := RemCall, left := t.left - 1)
  }

  lemma ReturnDebt(c: Cpu, m: Mod, lvl: seq<Level>, l: nat, k: nat)
    requires |c.arrays| > 0 && |lvl| == 2 && l < 2 && ThreadOk(lvl[l], c, m) && k < |Cyc(c)|
    requires var t := lvl[l].th;
             (t.pc.InHandler? || (t.pc.RemIn? && t.left > 0)) && t.ndx < |Cyc(c)| && Cyc(c)[t.ndx].level == l
    ensures Debt(c, m, lvl[l := lvl[l].(th := AfterReturn(lvl[l].th))], k) == Debt(c, m, lvl, k) - B(k == lvl[l].th.ndx)
  {
  }

  lemma ReturnLedger(c: Cpu, m: Mod, lvl: seq<Level>, l: nat, exp: seq<nat>, calls: seq<nat>)
    requires |c.arrays| > 0 && |lvl| == 2 && l < 2 && LedgerOk(c, m, lvl, exp, calls) && ThreadOk(lvl[l], c, m)
    requires var t := lvl[l].th;
             && (t.pc.InHandler? || (t.pc.RemIn? && t.left > 0)) && t.ndx < |Cyc(c)| && Cyc(c)[t.ndx].level == l
             && 0 <= t.reg < |calls|
    ensures var t := lvl[l].th;
            LedgerOk(c, m, lvl[l := lvl[l].(th := AfterReturn(t))], exp, calls[t.reg := calls[t.reg] + 1])
  {
    hide Debt, AfterReturn;
    var t := lvl[l].th;
    forall j | 0 <= j < |Cyc(c)| {
      ReturnDebt(c, m, lvl, l, j);
    }
    LedgerStep(c, m, lvl, exp, calls, c, m, lvl[l := lvl[l].(th := AfterReturn(t))], exp,
               calls[t.reg := calls[t.reg] + 1], t.ndx);
  }

  lemma ReturnStep(s: State, l: nat)
    requires Inv(s) && l < 2
    requires var t := s.lvl[l].th; (t.pc.InHandler? || (t.pc.RemIn? && t.left > 0)) && 0 <= t.reg < |s.calls|
    ensures var lv := s.lvl[l];
            Inv(s.(lvl := s.lvl[l := lv.(th := AfterReturn(lv.th))],
                calls := s.calls[lv.th.reg := s.calls[lv.th.reg] + 1]))
  {
    hide BufShape, OldOk, CycOk, SemOk, WakeOk, HandOk, Queue, LedgerOk, Pending, ModOk, Entry;
    var lv := s.lvl[l];
    Head(lv);
    ReturnAct(lv, s.cpu, s.mod, AfterReturn(lv.th));
    ReturnLedger(s.cpu, s.mod, s.lvl, l, s.exp, s.calls);
    ThreadStep(s, l, AfterReturn(lv.th), s.calls[lv.th.reg := s.calls[lv.th.reg] + 1]);
  }

  // ---------------------------------------------------------------- changes to one slot of the installed array

  /** c' and m' differ from c and m at most in slot k, whose level and registration stay. */
  ghost predicate OnlySlot(c: Cpu, m: Mod, c': Cpu, m': Mod, k: nat) {
    && 0 < |c.arrays| == |c'.arrays| && k < |Cyc(c)| == |Cyc(c')|
    && (forall j :: 0 <= j < |Cyc(c)| && j != k ==> Cyc(c')[j] == Cyc(c)[j])
    && Cyc(c')[k].level == Cyc(c)[k].level && Cyc(c')[k].reg == Cyc(c)[k].reg
    && (forall j: nat :: j != k ==> Stashed(c, m, j) == Stashed(c', m', j))
    && m.EWait? == m'.EWait?
  }

  /** The current slot of an activation belongs to its level and has undelivered expiries. */
  lemma Current(lv: Level, l: nat, c: Cpu, m: Mod)
    requires |c.arrays| > 0 && BufOk(lv, |Cyc(c)|, Cur(c)) && QueueOk(lv, l, c, m) && LocalOk(lv) && Proc(lv.th.pc)
    ensures lv.th.ndx < |Cyc(c)| && Cyc(c)[lv.th.ndx].level == l && Pending(c, m, lv.th.ndx)
  {
    hide Live, Queue;
    Head(lv);
  }

  lemma OtherAct(lv: Level, c: Cpu, m: Mod, c': Cpu, m': Mod, k: nat)
    requires OnlySlot(c, m, c', m', k) && BufShape(lv) && ActOk(lv, c, m) && (Proc(lv.th.pc) ==> lv.th.ndx != k)
    ensures ActOk(lv, c', m')
  {
    hide LocalOk, BufShape;
  }

  lemma ExactOther(q: seq<nat>, l: nat, c: Cpu, m: Mod, c': Cpu, m': Mod, k: nat)
    requires OnlySlot(c, m, c', m', k) && Exact(q, l, c, m)
    requires Cyc(c)[k].level != l || Pending(c, m, k) == Pending(c', m', k)
    ensures Exact(q, l, c', m')
  {
    hide Stashed;
    forall j | j in q
      ensures j < |Cyc(c')| && Cyc(c')[j].level == l && Pending(c', m', j)
    {
      assert Pending(c, m, j);
    }
    forall j | 0 <= j < |Cyc(c')| && Cyc(c')[j].level == l && Pending(c', m', j)
      ensures j in q
    {
      assert Pending(c, m, j);
    }
  }

  lemma ExactPop(q: seq<nat>, l: nat, c: Cpu, m: Mod, c': Cpu, m': Mod)
    requires |q| > 0 && OnlySlot(c, m, c', m', q[0]) && Exact(q, l, c, m) && !Pending(c', m', q[0])
    ensures Exact(q[1..], l, c', m')
  {
    hide Stashed;
    forall j | j in q[1..]
      ensures j < |Cyc(c')| && Cyc(c')[j].level == l && Pending(c', m', j)
    {
      assert j in q && j != q[0] && Pending(c, m, j);
    }
    forall j | 0 <= j < |Cyc(c')| && Cyc(c')[j].level == l && Pending(c', m', j)
      ensures j in q[1..]
    {
      assert j != q[0] && Pending(c, m, j) && j in q;
    }
  }

  lemma ExactPush(q: seq<nat>, l: nat, c: Cpu, m: Mod, c': Cpu, m': Mod, k: nat)
    requires OnlySlot(c, m, c', m', k) && Cyc(c)[k].level == l && Exact(q, l, c, m)
    requires !Pending(c, m, k) && Pending(c', m', k)
    ensures Exact(q + [k], l, c', m')
  {
    hide Stashed;
    forall j | j in q + [k]
      ensures j < |Cyc(c')| && Cyc(c')[j].level == l && Pending(c', m', j)
    {
      assert j == k || (j in q && Pending(c, m, j));
    }
    forall j | 0 <= j < |Cyc(c')| && Cyc(c')[j].level == l && Pending(c', m', j)
      ensures j in q + [k]
    {
      assert j == k || Pending(c, m, j);
    }
  }

  /** The level slot k does not belong to notices nothing. */
  lemma OtherLevel(lv: Level, l: nat, c: Cpu, m: Mod, c': Cpu, m': Mod, k: nat, lock: Level)
    requires OnlySlot(c, m, c', m', k) && Cyc(c)[k].level != l && LevelOk(lv, l, c, m, lock)
    ensures LevelOk(lv, l, c', m', lock)
  {
    hide Queue, BufShape, Live, ThreadOk, HandOk, Exact, OlderOk;
    if Proc(lv.th.pc) {
      Current(lv, l, c, m);
    }
    OtherAct(lv, c, m, c', m', k);
    ExactOther(Queue(lv), l, c, m, c', m', k);
  }

  /** Finishing with the current slot takes it off the queue. */
  lemma Pop(lv: Level)
    requires BufShape(lv) && LocalOk(lv) && Proc(lv.th.pc)
    ensures var lv' := lv.(th := lv.th.(pc := StoreCons));
            BufShape(lv') && Queue(lv') == Queue(lv)[1..] && (OlderOk(lv) ==> OlderOk(lv'))
  {
    var lv' := lv.(th := lv.th.(pc := StoreCons));
    var q := Live(lv.b[lv.soft], Front(lv));
    assert Live(lv.b[lv.soft], Front(lv')) == q[1..];
    assert forall k :: k in q[1..] ==> k in q;
  }

  // ---------------------------------------------------------------- the compare-and-swap on the pending count

  /** The activation after a successful decrement to `npend`. */
  function AfterCas(t: Thread, npend: nat): Thread {
    t.(pc := if Int32(npend) > 0 then Call else StoreCons)
  }

  function CasCpu(c: Cpu, k: nat): Cpu
    requires |c.arrays| > 0 && k < |Cyc(c)| && Cyc(c)[k].pend > 0
  {
    SetCyc(c, k, Cyc(c)[k].(pend := Cyc(c)[k].pend - 1))
  }

  /** The compare-and-swap succeeds only on the installed array, on a slot that has not been removed. */
  predicate CasPre(lv: Level, l: nat, c: Cpu, m: Mod) {
    var t := lv.th;
    && |c.arrays| > 0 && BufOk(lv, |Cyc(c)|, Cur(c)) && t.pc.Cas? && t.arr == Cur(c)
    && t.ndx < |Cyc(c)| && Cyc(c)[t.ndx].level == l && 0 < Cyc(c)[t.ndx].pend == t.pend <= INT32_MAX
    && !Stashed(c, m, t.ndx) && !Cyc(c)[t.ndx].free
  }

  lemma CasAct(lv: Level, l: nat, c: Cpu, m: Mod)
    requires CasPre(lv, l, c, m) && ActOk(lv, c, m)
    ensures var lv' := lv.(th := AfterCas(lv.th, lv.th.pend - 1)); BufShape(lv') && ActOk(lv', CasCpu(c, lv.th.ndx), m)
  {
  }

  lemma CasQueue(lv: Level, l: nat, c: Cpu, m: Mod)
    requires CasPre(lv, l, c, m) && LocalOk(lv) && QueueOk(lv, l, c, m)
    ensures var lv', c' := lv.(th := AfterCas(lv.th, lv.th.pend - 1)), CasCpu(c, lv.th.ndx);
            && BufOk(lv', |Cyc(c')|, Cur(c')) && QueueOk(lv', l, c', m)
            && Queue(lv') == if lv.th.pend > 1 then Queue(lv) else Queue(lv)[1..]
  {
    hide Exact, Live, Entry;
    var lv', c' := lv.(th := AfterCas(lv.th, lv.th.pend - 1)), CasCpu(c, lv.th.ndx);
    Head(lv);
    if lv.th.pend > 1 {
      KeepQueue(lv, lv', l, c, m);
      ExactOther(Queue(lv), l, c, m, c', m, lv.th.ndx);
    } else {
      Pop(lv);
      ExactPop(Queue(lv), l, c, m, c', m);
    }
  }

  lemma CasDebt(c: Cpu, m: Mod, lvl: seq<Level>, l: nat, j: nat)
    requires |lvl| == 2 && l < 2 && CasPre(lvl[l], l, c, m) && j < |Cyc(c)|
    ensures var t := lvl[l].th;
            Debt(CasCpu(c, t.ndx), m, lvl[l := lvl[l].(th := AfterCas(t, t.pend - 1))], j) == Debt(c, m, lvl, j)
  {
    hide BufOk;
  }

  /** Pending counts that softint's signed local can hold. */
  predicate Fits(c: Cpu)
    requires |c.arrays| > 0
  {
    forall k :: 0 <= k < |Cyc(c)| ==> Cyc(c)[k].pend <= INT32_MAX
  }

  lemma CasReady(s: State, l: nat)
    requires Inv(s) && Enabled(s, Soft(l)) && s.lvl[l].th.pc.Cas? && !OnlyReads(s.cpu, s.lvl[l])
    requires Fits(s.cpu)
    ensures CasPre(s.lvl[l], l, s.cpu, s.mod)
    ensures DoSoft(s, l) == var t := s.lvl[l].th;
                            s.(cpu := CasCpu(s.cpu, t.ndx), lvl := s.lvl[l := s.lvl[l].(th := AfterCas(t, t.pend - 1))])
  {
    hide Live, Queue, LedgerOk, SemOk, HandOk, WakeOk, LocalOk;
    Current(s.lvl[l], l, s.cpu, s.mod);
  }

  /** Assembles the invariant after a step that touches one slot and the level it belongs to. */
  lemma SlotStep(s: State, l: nat, k: nat, s': State)
    requires Inv(s) && l < 2 && OnlySlot(s.cpu, s.mod, s'.cpu, s'.mod, k) && Cyc(s.cpu)[k].level == l
    requires |s'.lvl| == 2 && s'.lvl[1 - l] == s.lvl[1 - l] && s'.lvl[l].acks == s.lvl[l].acks
    requires s.lvl[l].th.pc.Post? ==> s'.lvl[l].th == s.lvl[l].th
    requires LevelOk(s'.lvl[l], l, s'.cpu, s'.mod, s'.lvl[1])
    requires SemOk(s'.cpu, s'.mod, s'.lvl[0], s'.lvl[1]) && ModOk(s'.cpu, s'.mod, s'.lvl[0], s'.lvl[1])
    requires CycOk(Cyc(s'.cpu)) && OldOk(s'.cpu, s'.mod) && LedgerOk(s'.cpu, s'.mod, s'.lvl, s'.exp, s'.calls)
    ensures Inv(s')
  {
    hide OnlySlot, QueueOk, ActOk, BufOk, SemOk, ModOk, CycOk, OldOk, LedgerOk, WakeOk;
    OtherLevel(s.lvl[1 - l], 1 - l, s.cpu, s.mod, s'.cpu, s'.mod, k, s.lvl[1]);
    if l == 1 {
      OtherWake(s'.cpu, s'.mod, s.lvl[0], s.lvl[1], s'.lvl[1]);
    }
  }

  lemma CasGlobal(s: State, l: nat)
    requires Inv(s) && l < 2 && CasPre(s.lvl[l], l, s.cpu, s.mod)
    ensures var t := s.lvl[l].th;
            var c', lvl' := CasCpu(s.cpu, t.ndx), s.lvl[l := s.lvl[l].(th := AfterCas(t, t.pend - 1))];
            && OnlySlot(s.cpu, s.mod, c', s.mod, t.ndx)
            && SemOk(c', s.mod, lvl'[0], lvl'[1]) && ModOk(c', s.mod, lvl'[0], lvl'[1])
            && CycOk(Cyc(c')) && OldOk(c', s.mod)
  {
    hide LevelOk, LedgerOk, BufOk;
  }

  lemma CasStep(s: State, l: nat)
    requires Inv(s) && l < 2 && CasPre(s.lvl[l], l, s.cpu, s.mod)
    ensures var t := s.lvl[l].th;
            Inv(s.(cpu := CasCpu(s.cpu, t.ndx), lvl := s.lvl[l := s.lvl[l].(th := AfterCas(t, t.pend - 1))]))
  {
    hide BufShape, BufOk, QueueOk, ThreadOk, HandOk, LocalOk, SemOk, ModOk, CycOk, OldOk, LedgerOk, Debt, Queue;
    var c, m, lv := s.cpu, s.mod, s.lvl[l];
    var t := lv.th;
    var s' := s.(cpu := CasCpu(c, t.ndx), lvl := s.lvl[l := lv.(th := AfterCas(t, t.pend - 1))]);
    CasAct(lv, l, c, m);
    CasQueue(lv, l, c, m);
    CasGlobal(s, l);
    forall j | 0 <= j < |Cyc(c)| {
      CasDebt(c, m, s.lvl, l, j);
    }
    LedgerKeep(c, m, s.lvl, s'.cpu, m, s'.lvl, s.exp, s.calls);
    SlotStep(s, l, t.ndx, s');
  }

  // ---------------------------------------------------------------- the last call of a removal

  /** cyclic_remove_pend has made its calls and is about to post the semaphore. */
  predicate RemPre(lv: Level, l: nat, c: Cpu, m: Mod) {
    var t := lv.th;
    && |c.arrays| > 0 && BufOk(lv, |Cyc(c)|, Cur(c)) && t.pc.RemCall? && t.left == 0
    && t.ndx < |Cyc(c)| && Cyc(c)[t.ndx].level == l && Stashed(c, m, t.ndx) && Cyc(c)[t.ndx].pend == 0
  }

  function AfterRem(t: Thread): Thread {
    t.(pc := StoreCons)
  }

  lemma RemAct(lv: Level, l: nat, c: Cpu, m: Mod)
    requires RemPre(lv, l, c, m) && ActOk(lv, c, m)
    ensures var lv' := lv.(th := AfterRem(lv.th)); BufShape(lv') && ActOk(lv', c.(sem := 1), m)
  {
  }

  lemma RemQueue(lv: Level, l: nat, c: Cpu, m: Mod)
    requires RemPre(lv, l, c, m) && LocalOk(lv) && QueueOk(lv, l, c, m)
    ensures var lv', c' := lv.(th := AfterRem(lv.th)), c.(sem := 1);
            && BufOk(lv', |Cyc(c')|, Cur(c')) && QueueOk(lv', l, c', m) && Queue(lv') == Queue(lv)[1..]
            && OnlySlot(c, m, c', m, lv.th.ndx)
  {
    hide Exact, Live, Entry;
    Head(lv);
    Pop(lv);
    ExactPop(Queue(lv), l, c, m, c.(sem := 1), m);
  }

  lemma RemDebt(c: Cpu, m: Mod, lvl: seq<Level>, l: nat, j: nat)
    requires |lvl| == 2 && l < 2 && RemPre(lvl[l], l, c, m) && j < |Cyc(c)|
    ensures Debt(c.(sem := 1), m, lvl[l := lvl[l].(th := AfterRem(lvl[l].th))], j) == Debt(c, m, lvl, j)
  {
    hide BufOk;
  }

  lemma RemGlobal(s: State, l: nat)
    requires Inv(s) && l < 2 && RemPre(s.lvl[l], l, s.cpu, s.mod)
    ensures var c', lvl' := s.cpu.(sem := 1), s.lvl[l := s.lvl[l].(th := AfterRem(s.lvl[l].th))];
            && SemOk(c', s.mod, lvl'[0], lvl'[1]) && ModOk(c', s.mod, lvl'[0], lvl'[1]) && OldOk(c', s.mod)
  {
    hide LevelOk, LedgerOk, BufOk, CycOk;
  }

  lemma RemStep(s: State, l: nat)
    requires Inv(s) && l < 2 && RemPre(s.lvl[l], l, s.cpu, s.mod)
    ensures Inv(s.(cpu := s.cpu.(sem := 1), lvl := s.lvl[l := s.lvl[l].(th := AfterRem(s.lvl[l].th))]))
  {
    hide BufShape, BufOk, QueueOk, ThreadOk, HandOk, LocalOk, SemOk, ModOk, CycOk, OldOk, LedgerOk, Debt, Queue,
        OnlySlot;
    var c, m, lv := s.cpu, s.mod, s.lvl[l];
    var s' := s.(cpu := c.(sem := 1), lvl := s.lvl[l := lv.(th := AfterRem(lv.th))]);
    RemAct(lv, l, c, m);
    RemQueue(lv, l, c, m);
    RemGlobal(s, l);
    forall j | 0 <= j < |Cyc(c)| {
      RemDebt(c, m, s.lvl, l, j);
    }
    LedgerKeep(c, m, s.lvl, s'.cpu, m, s'.lvl, s.exp, s.calls);
    SlotStep(s, l, lv.th.ndx, s');
  }

  // ---------------------------------------------------------------- the consumer index

  function AfterStore(lv: Level): Level
    requires lv.th.soft < |lv.b|
  {
    var t := lv.th;
    lv.(b := lv.b[t.soft := lv.b[t.soft].(cons := t.cons + 1)], th := t.(pc := Check, cons := t.cons + 1))
  }

  lemma LiveSame(p: Pc, cons: nat, from: nat)
    requires from <= p.prod && |p.buf| > 0
    ensures Live(p.(cons := cons), from) == Live(p, from)
  {
    forall i | 0 <= i < p.prod - from
      ensures Live(p.(cons := cons), from)[i] == Live(p, from)[i]
    {
      assert Live(p.(cons := cons), from)[i] == Entry(p.(cons := cons), from + i);
      assert Live(p, from)[i] == Entry(p, from + i);
    }
  }

  lemma StoreQueue(lv: Level)
    requires BufShape(lv) && LocalOk(lv) && lv.th.pc.StoreCons?
    ensures BufShape(AfterStore(lv)) && Queue(AfterStore(lv)) == Queue(lv) && (OlderOk(lv) ==> OlderOk(AfterStore(lv)))
  {
    hide Live, Entry;
    LiveSame(lv.b[lv.soft], lv.th.cons + 1, Front(lv));
  }

  lemma StoreAct(lv: Level, c: Cpu, m: Mod)
    requires |c.arrays| > 0 && BufOk(lv, |Cyc(c)|, Cur(c)) && ActOk(lv, c, m) && lv.th.pc.StoreCons?
    ensures BufOk(AfterStore(lv), |Cyc(c)|, Cur(c)) && ActOk(AfterStore(lv), c, m)
    ensures Fresh(lv, c) ==> Fresh(AfterStore(lv), c)
  {
    hide Entry, Stashed;
  }

  /** Assembles the invariant after a step that touches only one level and keeps its queue. */
  lemma LevelStep(s: State, l: nat, lv': Level)
    requires Inv(s) && l < 2 && !s.lvl[l].th.pc.Post? && !lv'.th.pc.Post? && lv'.acks == s.lvl[l].acks
    requires BufOk(lv', |Cyc(s.cpu)|, Cur(s.cpu)) && ActOk(lv', s.cpu, s.mod) && Queue(lv') == Queue(s.lvl[l]) &&
        OlderOk(lv')
    requires WillDrain(lv') && Busy(lv'.th) && (s.mod.EXcall? ==> Fresh(lv', s.cpu))
    requires !Returned(lv'.th.pc) && !lv'.th.pc.RemCall? && !lv'.th.pc.RemIn?
    requires !Returned(s.lvl[l].th.pc) && !s.lvl[l].th.pc.RemCall? && !s.lvl[l].th.pc.RemIn?
    ensures Inv(s.(lvl := s.lvl[l := lv']))
  {
    hide BufOk, Exact, Queue, ActOk, CycOk, OldOk, LedgerOk, OlderOk, Fresh, Stashed;
    var lvl' := s.lvl[l := lv'];
    assert forall j :: 0 <= j < |Cyc(s.cpu)| ==> Debt(s.cpu, s.mod, lvl', j) == Debt(s.cpu, s.mod, s.lvl, j);
    LedgerKeep(s.cpu, s.mod, s.lvl, s.cpu, s.mod, lvl', s.exp, s.calls);
  }

  lemma StoreStep(s: State, l: nat)
    requires Inv(s) && l < 2 && s.lvl[l].th.pc.StoreCons? && s.lvl[l].th.soft < |s.lvl[l].b|
    ensures Inv(s.(lvl := s.lvl[l := AfterStore(s.lvl[l])]))
  {
    hide Exact, Queue, ThreadOk, HandOk, LocalOk, CycOk, OldOk, LedgerOk, OlderOk, Fresh, BufShape, SemOk, WakeOk;
    StoreQueue(s.lvl[l]);
    StoreAct(s.lvl[l], s.cpu, s.mod);
    LevelStep(s, l, AfterStore(s.lvl[l]));
  }

  // ---------------------------------------------------------------- switching buffers

  function AfterSwitch(lv: Level): Level {
    lv.(soft := lv.hard, th := lv.th.(pc := Top, resized := true))
  }

  lemma SwitchQueue(lv: Level)
    requires BufShape(lv) && LocalOk(lv) && lv.th.pc.SetSoft? && lv.b[lv.hard].cons == 0
    ensures BufShape(AfterSwitch(lv)) && Queue(AfterSwitch(lv)) == Queue(lv) && OlderOk(AfterSwitch(lv))
  {
    hide Entry;
  }

  lemma SwitchAct(lv: Level, c: Cpu, m: Mod)
    requires |c.arrays| > 0 && BufOk(lv, |Cyc(c)|, Cur(c)) && ActOk(lv, c, m) && lv.th.pc.SetSoft?
    ensures BufOk(AfterSwitch(lv), |Cyc(c)|, Cur(c)) && ActOk(AfterSwitch(lv), c, m)
    ensures lv.b[lv.hard].cons == 0 && m.EWait?
  {
    hide Entry, Stashed;
  }

  lemma SwitchStep(s: State, l: nat)
    requires Inv(s) && l < 2 && s.lvl[l].th.pc.SetSoft?
    ensures Inv(s.(lvl := s.lvl[l := AfterSwitch(s.lvl[l])]))
  {
    hide Exact, Queue, ThreadOk, HandOk, LocalOk, CycOk, OldOk, LedgerOk, OlderOk, Fresh, BufShape, SemOk, WakeOk;
    SwitchAct(s.lvl[l], s.cpu, s.mod);
    SwitchQueue(s.lvl[l]);
    LevelStep(s, l, AfterSwitch(s.lvl[l]));
  }

  // ---------------------------------------------------------------- acknowledging a resize

  /** Nothing a level or the ledger looks at differs. */
  ghost predicate SameView(c: Cpu, m: Mod, c': Cpu, m': Mod) {
    && c'.arrays == c.arrays && |c.arrays| > 0
    && m.EWait? == m'.EWait? && (forall j: nat :: Stashed(c, m, j) == Stashed(c', m', j))
    && (forall j: nat :: Stashed(c, m, j) ==> c'.rpend == c.rpend)
  }

  lemma ViewQueue(lv: Level, l: nat, c: Cpu, m: Mod, c': Cpu, m': Mod)
    requires SameView(c, m, c', m') && BufOk(lv, |Cyc(c)|, Cur(c)) && QueueOk(lv, l, c, m)
    ensures BufOk(lv, |Cyc(c')|, Cur(c')) && QueueOk(lv, l, c', m')
  {
    hide Queue, BufOk, OlderOk, Stashed, NoDup;
    assert forall j :: 0 <= j < |Cyc(c)| ==> Pending(c, m, j) == Pending(c', m', j);
  }

  lemma ViewOld(c: Cpu, m: Mod, c': Cpu, m': Mod)
    requires SameView(c, m, c', m') && OldOk(c, m)
    ensures OldOk(c', m')
  {
    assert c'.arrays == c.arrays;
    hide Halved;
  }

  lemma ViewLevel(lv: Level, l: nat, c: Cpu, m: Mod, c': Cpu, m': Mod, lock: Level)
    requires SameView(c, m, c', m') && LevelOk(lv, l, c, m, lock)
    ensures LevelOk(lv, l, c', m', lock)
  {
    hide Queue, QueueOk, BufOk, LocalOk, Stashed;
    ViewQueue(lv, l, c, m, c', m');
  }

  lemma ViewLedger(c: Cpu, m: Mod, c': Cpu, m': Mod, lvl: seq<Level>, exp: seq<nat>, calls: seq<nat>)
    requires SameView(c, m, c', m') && |lvl| == 2 && LedgerOk(c, m, lvl, exp, calls)
    ensures LedgerOk(c', m', lvl, exp, calls)
  {
    hide LedgerOk, Stashed;
    assert forall j :: 0 <= j < |Cyc(c)| ==> Debt(c', m', lvl, j) == Debt(c, m, lvl, j);
    LedgerKeep(c, m, lvl, c', m', lvl, exp, calls);
  }

  function AfterAck(lv: Level): Level {
    lv.(acks := lv.acks + 1, th := lv.th.(pc := Post))
  }

  lemma AckLevel(lv: Level, l: nat, c: Cpu, m: Mod, lock: Level)
    requires |c.arrays| > 0 && LevelOk(lv, l, c, m, lock) && lv.th.pc.AckCas? && lv.th.lev <= 1
    ensures LevelOk(AfterAck(lv), l, c, m, if l == 1 then AfterAck(lv) else lock) && lv.acks + 1 == Cur(c) && m.EWait?
  {
    hide Queue, QueueOk, BufOk, Stashed, Entry;
    KeepQueue(lv, AfterAck(lv), l, c, m);
  }

  lemma AckGlobal(s: State, l: nat)
    requires Inv(s) && l < 2 && s.lvl[l].th.pc.AckCas? && s.cpu.levels == s.lvl[l].th.lev
    requires s.lvl[l].acks + 1 == Cur(s.cpu) && s.mod.EWait?
    ensures var c', lvl' := s.cpu.(levels := s.lvl[l].th.lev + 1), s.lvl[l := AfterAck(s.lvl[l])];
            && SemOk(c', s.mod, lvl'[0], lvl'[1]) && ModOk(c', s.mod, lvl'[0], lvl'[1])
            && SameView(s.cpu, s.mod, c', s.mod) && s.lvl[l].th.lev <= 1
            && (l == 1 ==> LevelOk(lvl'[0], 0, s.cpu, s.mod, lvl'[1]))
  {
    hide QueueOk, ThreadOk, LocalOk, BufOk, LedgerOk, Queue, OldOk, CycOk;
  }

  lemma AckStep(s: State, l: nat)
    requires Inv(s) && l < 2 && s.lvl[l].th.pc.AckCas? && s.cpu.levels == s.lvl[l].th.lev
    ensures Inv(s.(cpu := s.cpu.(levels := s.lvl[l].th.lev + 1), lvl := s.lvl[l := AfterAck(s.lvl[l])]))
  {
    hide LevelOk, SemOk, ModOk, OldOk, CycOk, LedgerOk, SameView, Stashed;
    var c, m, lvl' := s.cpu, s.mod, s.lvl[l := AfterAck(s.lvl[l])];
    var c' := c.(levels := s.lvl[l].th.lev + 1);
    AckLev(s, l);
    AckLevel(s.lvl[l], l, c, m, s.lvl[1]);
    AckGlobal(s, l);
    ViewLevel(lvl'[0], 0, c, m, c', m, lvl'[1]);
    ViewLevel(lvl'[1], 1, c, m, c', m, lvl'[1]);
    assert forall j :: 0 <= j < |Cyc(c)| ==> Debt(c, m, lvl', j) == Debt(c, m, s.lvl, j);
    LedgerKeep(c, m, s.lvl, c, m, lvl', s.exp, s.calls);
    ViewLedger(c, m, c', m, lvl', s.exp, s.calls);
    ViewOld(c, m, c', m);
  }

  /** A level that has not acknowledged leaves at most one acknowledgement counted. */
  lemma AckLev(s: State, l: nat)
    requires Inv(s) && l < 2 && s.lvl[l].th.pc.AckCas? && s.cpu.levels == s.lvl[l].th.lev
    ensures s.lvl[l].th.lev <= 1
  {
    hide QueueOk, ThreadOk, BufOk, LedgerOk, Queue, WakeOk, ModOk, CycOk, OldOk;
  }

  // ---------------------------------------------------------------- after the acknowledgement

  function AfterPost(lv: Level): Level {
    lv.(th := lv.th.(pc := Idle))
  }

  lemma PostLevel(lv: Level, l: nat, c: Cpu, m: Mod, lock: Level)
    requires |c.arrays| > 0 && LevelOk(lv, l, c, m, lock) && lv.th.pc.Post?
    ensures LevelOk(AfterPost(lv), l, c, m, if l == 1 then AfterPost(lv) else lock)
  {
    hide Queue, QueueOk, BufOk, Stashed, Entry;
    KeepQueue(lv, AfterPost(lv), l, c, m);
  }

  lemma Posted(lv: Level, l: nat, c: Cpu, m: Mod, lock: Level, lock': Level)
    requires |c.arrays| > 0 && LevelOk(lv, l, c, m, lock)
    ensures LevelOk(lv.(posted := true), l, c, m, lock')
  {
    hide Queue, QueueOk, BufOk, Stashed, Entry;
    KeepQueue(lv, lv.(posted := true), l, c, m);
  }

  lemma PostGlobal(s: State, l: nat)
    requires Inv(s) && l < 2 && s.lvl[l].th.pc.Post?
    ensures var lvl' := s.lvl[l := AfterPost(s.lvl[l])];
            if s.lvl[l].th.lev == 1 then
              var c' := s.cpu.(sem := s.cpu.sem + 1, posts := s.cpu.posts + 1);
              && SemOk(c', s.mod, lvl'[0], lvl'[1]) && ModOk(c', s.mod, lvl'[0], lvl'[1]) && s.mod.EWait?
              && s.lvl[0].acks == Cur(s.cpu)
            else SemOk(s.cpu, s.mod, lvl'[0], lvl'[1]) && ModOk(s.cpu, s.mod, lvl'[0], lvl'[1])
  {
    hide QueueOk, BufOk, LedgerOk, CycOk, ThreadOk, OldOk, Queue;
  }

  lemma PostLedger(s: State, l: nat)
    requires Inv(s) && l < 2 && s.lvl[l].th.pc.Post?
    ensures LedgerOk(s.cpu, s.mod, s.lvl[l := AfterPost(s.lvl[l])], s.exp, s.calls)
  {
    hide LedgerOk, LevelOk, SemOk, ModOk, CycOk, OldOk, Stashed;
    var c, m, lvl' := s.cpu, s.mod, s.lvl[l := AfterPost(s.lvl[l])];
    assert forall j :: 0 <= j < |Cyc(c)| ==> Debt(c, m, lvl', j) == Debt(c, m, s.lvl, j);
    LedgerKeep(c, m, s.lvl, c, m, lvl', s.exp, s.calls);
  }

  /** The last acknowledgement posts the semaphore. */
  lemma PostLast(s: State, l: nat)
    requires Inv(s) && l < 2 && s.lvl[l].th.pc.Post? && s.lvl[l].th.lev == 1
    ensures Inv(s.(cpu := s.cpu.(sem := s.cpu.sem + 1, posts := s.cpu.posts + 1),
        lvl := s.lvl[l := AfterPost(s.lvl[l])]))
  {
    hide QueueOk, BufOk, ActOk, SemOk, ModOk, OldOk, CycOk, LedgerOk, Queue;
    var c, m, lvl' := s.cpu, s.mod, s.lvl[l := AfterPost(s.lvl[l])];
    var c' := c.(sem := c.sem + 1, posts := c.posts + 1);
    PostLevel(s.lvl[l], l, c, m, s.lvl[1]);
    PostGlobal(s, l);
    PostLedger(s, l);
    ViewLevel(lvl'[0], 0, c, m, c', m, lvl'[1]);
    ViewLevel(lvl'[1], 1, c, m, c', m, lvl'[1]);
    ViewLedger(c, m, c', m, lvl', s.exp, s.calls);
    ViewOld(c, m, c', m);
  }

  /** The first acknowledgement, when it comes from the lock level, posts the low level. */
  lemma PostFirst(s: State, l: nat)
    requires Inv(s) && l < 2 && s.lvl[l].th.pc.Post? && s.lvl[l].th.lev == 0
    ensures var lvl' := s.lvl[l := AfterPost(s.lvl[l])];
            Inv(s.(lvl := if l == 0 then lvl' else lvl'[0 := s.lvl[0].(posted := true)]))
  {
    hide LevelOk, SemOk, ModOk, OldOk, CycOk, LedgerOk, Stashed;
    var c, m, lvl' := s.cpu, s.mod, s.lvl[l := AfterPost(s.lvl[l])];
    PostLevel(s.lvl[l], l, c, m, s.lvl[1]);
    PostGlobal(s, l);
    PostLedger(s, l);
    if l == 1 {
      var lvl'' := lvl'[0 := s.lvl[0].(posted := true)];
      Posted(s.lvl[0], 0, c, m, s.lvl[1], lvl'[1]);
      KeepGlobal(c, m, lvl'[0], lvl'[1], lvl''[0], lvl''[1]);
      assert forall j :: 0 <= j < |Cyc(c)| ==> Debt(c, m, lvl'', j) == Debt(c, m, lvl', j);
      LedgerKeep(c, m, lvl', c, m, lvl'', s.exp, s.calls);
    }
  }

  // ---------------------------------------------------------------- every access of cyclic_softint

  lemma RemReady(s: State, l: nat)
    requires Inv(s) && Enabled(s, Soft(l)) && s.lvl[l].th.pc.RemCall? && s.lvl[l].th.left == 0
    ensures RemPre(s.lvl[l], l, s.cpu, s.mod) && s.cpu.sem == 0
  {
    hide Live, Queue, LedgerOk, SemOk, HandOk, WakeOk, LocalOk;
    Current(s.lvl[l], l, s.cpu, s.mod);
  }

  /** The stores, as the composition lemmas above describe them. */
  lemma StoreShapes(s: State, l: nat)
    requires Inv(s) && Enabled(s, Soft(l)) && !OnlyReads(s.cpu, s.lvl[l]) && !s.lvl[l].th.pc.Cas?
    ensures var lv, c, s' := s.lvl[l], s.cpu, DoSoft(s, l);
            var t := lv.th;
            match t.pc
            case InHandler => 0 <= t.reg < |s.calls| &&
                s' == s.(lvl := s.lvl[l := lv.(th := AfterReturn(t))], calls := s.calls[t.reg := s.calls[t.reg] + 1])
            case RemIn => 0 <= t.reg < |s.calls| && t.left > 0 &&
                s' == s.(lvl := s.lvl[l := lv.(th := AfterReturn(t))], calls := s.calls[t.reg := s.calls[t.reg] + 1])
            case RemCall => t.left == 0 && s' == s.(cpu := c.(sem := c.sem + 1),
                lvl := s.lvl[l := lv.(th := AfterRem(t))])
            case StoreCons => t.soft < |lv.b| && s' == s.(lvl := s.lvl[l := AfterStore(lv)])
            case SetSoft => s' == s.(lvl := s.lvl[l := AfterSwitch(lv)])
            case AckCas => c.levels == t.lev && s' ==
                s.(cpu := c.(levels := t.lev + 1), lvl := s.lvl[l := AfterAck(lv)])
            case Post => t.lev <= 1 &&
                         s' == (if t.lev == 1 then s.(cpu := c.(sem := c.sem + 1, posts := c.posts + 1),
                             lvl := s.lvl[l := AfterPost(lv)])
                                else if l == 0 then s.(lvl := s.lvl[l := AfterPost(lv)])
                                else s.(lvl := s.lvl[l := AfterPost(lv)][0 := s.lvl[0].(posted := true)]))
            case _ => false
  {
    hide QueueOk, BufOk, ThreadOk, HandOk, WakeOk, SemOk, ModOk, CycOk, OldOk, LedgerOk;
  }

  /** Every access of cyclic_softint keeps the invariant. */
  lemma SoftStep(s: State, l: nat)
    requires |s.lvl| == 2 && l < 2 && Inv(s) && Enabled(s, Soft(l)) && Fits(s.cpu)
    ensures Inv(DoSoft(s, l))
  {
    hide Inv, Enabled, DoSoft, OnlyReads, Fits, AfterReturn, AfterStore, AfterRem, AfterSwitch, AfterAck, AfterPost,
        CasPre, RemPre, CasCpu, AfterCas;
    if OnlyReads(s.cpu, s.lvl[l]) {
      ReadStep(s, l);
    } else if s.lvl[l].th.pc.Cas? {
      CasReady(s, l);
      CasStep(s, l);
    } else {
      StoreShapes(s, l);
      match s.lvl[l].th.pc
      case InHandler => ReturnStep(s, l);
      case RemIn => ReturnStep(s, l);
      case RemCall => RemReady(s, l); RemStep(s, l);
      case StoreCons => StoreStep(s, l);
      case SetSoft => SwitchStep(s, l);
      case AckCas => AckStep(s, l);
      case Post => if s.lvl[l].th.lev == 1 { PostLast(s, l); } else { PostFirst(s, l); }
    }
  }
}
