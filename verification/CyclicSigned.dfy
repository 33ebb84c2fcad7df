/** Pending counts that outgrow the signed int cyclic_softint holds them in. */
module CyclicSigned {
  import opened CyclicSystem
  import opened CyclicInvariant
  import opened CyclicWrites
  import opened CyclicTheorems
  import opened CyclicRace

  /** A successful decrement leaves the slot's loop exactly when the count has reached zero, if and only if the
      decremented count fits a signed 32-bit int. */
  lemma SignedLoop(s: State, l: nat)
    requires Enabled(s, Soft(l)) && s.lvl[l].th.pc.Cas? && !OnlyReads(s.cpu, s.lvl[l])
    requires 0 < s.lvl[l].th.pend <= UINT32_MAX
    ensures var s', t := DoSoft(s, l), s.lvl[l].th;
            && t.arr < |s'.cpu.arrays| && t.ndx < |s'.cpu.arrays[t.arr]|
            && ((s'.lvl[l].th.pc.StoreCons? <==> s'.cpu.arrays[t.arr][t.ndx].pend == 0) <==> t.pend - 1 <= INT32_MAX)
  {
  }

  lemma CasCurrent(s: State, l: nat)
    requires Inv(s) && Enabled(s, Soft(l)) && s.lvl[l].th.pc.Cas? && !OnlyReads(s.cpu, s.lvl[l])
    ensures var t := s.lvl[l].th; t.arr == Cur(s.cpu) && t.ndx < |Cyc(s.cpu)| && 0 < t.pend == Cyc(s.cpu)[t.ndx].pend
    ensures Cyc(s.cpu)[s.lvl[l].th.ndx].level == l
  {
    hide LedgerOk, CycOk, WakeOk, SemOk, ModOk, HandOk, Queue, OlderOk;
    Current(s.lvl[l], l, s.cpu, s.mod);
  }

  lemma CasShape(s: State, l: nat)
    requires Enabled(s, Soft(l)) && s.lvl[l].th.pc.Cas? && !OnlyReads(s.cpu, s.lvl[l]) && s.lvl[l].th.arr == Cur(s.cpu)
    requires 0 < s.lvl[l].th.pend <= UINT32_MAX && s.lvl[l].th.ndx < |Cyc(s.cpu)|
    ensures var t, s' := s.lvl[l].th, DoSoft(s, l);
            && |s'.lvl| == 2 && |s'.cpu.arrays| > 0
            && Cyc(s'.cpu) == Cyc(s.cpu)[t.ndx := Cyc(s.cpu)[t.ndx].(pend := t.pend - 1)]
            && s'.lvl[l] == s.lvl[l].(th := t.(pc := if t.pend == 1 || t.pend - 1 > INT32_MAX then StoreCons else Call))
  {
  }

  /** After a successful decrement every slot with a pending count is still queued if and only if the decremented count
      fits a signed int. */
  lemma SignedExact(s: State, l: nat)
    requires Inv(s) && Enabled(s, Soft(l)) && s.lvl[l].th.pc.Cas? && !OnlyReads(s.cpu, s.lvl[l]) &&
        s.lvl[l].th.pend <= UINT32_MAX
    ensures var s' := DoSoft(s, l);
            && |s'.cpu.arrays| > 0 && l < |s'.lvl| && BufShape(s'.lvl[l])
            && (AllQueued(s', l) <==> s.lvl[l].th.pend - 1 <= INT32_MAX)
  {
    hide LedgerOk, CycOk, WakeOk, SemOk, ModOk, HandOk, ThreadOk, Queue, OlderOk, DoSoft, Enabled, OnlyReads,
        SoftEnabled, Entry, OldOk;
    EnabledLevel(s, l);
    CasCurrent(s, l);
    CasShape(s, l);
    var lv, t, s' := s.lvl[l], s.lvl[l].th, DoSoft(s, l);
    Pop(lv);
    FirstIs(lv);
    if t.pend == 1 || t.pend - 1 > INT32_MAX {
      PoppedQueue(Queue(lv), t.ndx);
      assert Queue(s'.lvl[l]) == Queue(lv)[1..];
      assert t.ndx !in Queue(s'.lvl[l]);
    } else {
      SameQueue(lv, s'.lvl[l]);
    }
    forall k | 0 <= k < |Cyc(s'.cpu)| && Cyc(s'.cpu)[k].level == l && Cyc(s'.cpu)[k].pend > 0
      ensures k in Queue(lv)
    {
      assert Pending(s.cpu, s.mod, k);
    }
  }

  lemma EnabledLevel(s: State, l: nat)
    requires Enabled(s, Soft(l))
    ensures l < 2 && |s.lvl| == 2
  {
  }

  lemma FirstIs(lv: Level)
    requires BufShape(lv) && LocalOk(lv) && Proc(lv.th.pc)
    ensures |Queue(lv)| > 0 && Queue(lv)[0] == lv.th.ndx
  {
    assert Live(lv.b[lv.soft], Front(lv))[0] == lv.th.ndx;
  }

  lemma PoppedQueue(q: seq<nat>, k: nat)
    requires |q| > 0 && q[0] == k && forall i, j :: 0 <= i < j < |q| ==> q[i] != q[j]
    ensures k !in q[1..] && forall j :: j in q && j != k ==> j in q[1..]
  {
  }

  lemma SameQueue(lv: Level, lv': Level)
    requires BufShape(lv) && lv' == lv.(th := lv'.th) && !lv.th.pc.StoreCons? && !lv'.th.pc.StoreCons?
    ensures BufShape(lv') && Queue(lv') == Queue(lv)
  {
  }

  // ---------------------------------------------------------------- a run that loses 2^31 calls

  const TOO_MANY: nat := INT32_MAX + 2

  /** As many expiries as asked for, before the soft interrupt gets to run. */
  lemma {:induction false} ManyExpiries(n: nat) returns (tr: seq<State>, ss: seq<Step>)
    requires n <= UINT32_MAX
    ensures Run(tr, ss) && tr[|ss|] == Solo(IDLE_THREAD, Online, n, MIdle)
  {
    hide Enabled, Do, Init, Solo;
    if n == 0 {
      SoloAdd();
      tr, ss := [Init(), Solo(IDLE_THREAD, Online, 0, MIdle)], [Add(0, LOW)];
    } else {
      tr, ss := ManyExpiries(n - 1);
      SoloExpires(IDLE_THREAD, n - 1);
      tr, ss := tr + [Solo(IDLE_THREAD, Online, n, MIdle)], ss + [Expire(0)];
    }
  }

  /** The handler has been called once: the count is read, decremented, and taken for negative. */
  function Counted(pc: At, n: nat, left: nat, cons: nat): State {
    var s := Held(IDLE_THREAD.(pc := pc, size := 1, reg := 0, pend := if pc.Reread? then 0 else n, cons := cons), n,
        MIdle);
    s.(cpu := s.cpu.(arrays := [[Cyclic(false, LOW, 0, left)]]), calls := [1],
       lvl := s.lvl[0 := s.lvl[0].(b := s.lvl[0].b[0 := s.lvl[0].b[0].(cons := cons)])])
  }

  lemma Returns(n: nat)
    requires n > 0
    ensures Enabled(Held(Serving(InHandler), n, MIdle), Soft(0)) &&
        Do(Held(Serving(InHandler), n, MIdle), Soft(0)) == Counted(Reread, n, n, 0)
  {
    var s', q := Do(Held(Serving(InHandler), n, MIdle), Soft(0)), Counted(Reread, n, n, 0);
    assert s'.lvl[0].b == q.lvl[0].b;
    assert s'.lvl == q.lvl && s'.calls == q.calls;
  }

  lemma Rereads(n: nat)
    requires n > 0
    ensures Enabled(Counted(Reread, n, n, 0), Soft(0)) && Do(Counted(Reread, n, n, 0), Soft(0)) == Counted(Cas, n, n, 0)
  {
    var s', q := Do(Counted(Reread, n, n, 0), Soft(0)), Counted(Cas, n, n, 0);
    assert s'.lvl == q.lvl;
  }

  lemma Decrements(n: nat)
    requires INT32_MAX + 1 < n <= UINT32_MAX
    ensures Enabled(Counted(Cas, n, n, 0), Soft(0)) &&
        Do(Counted(Cas, n, n, 0), Soft(0)) == Counted(StoreCons, n, n - 1, 0)
  {
    var s', q := Do(Counted(Cas, n, n, 0), Soft(0)), Counted(StoreCons, n, n - 1, 0);
    assert Cyc(s'.cpu) == [Cyclic(false, LOW, 0, n - 1)];
    assert s'.cpu.arrays == q.cpu.arrays;
    assert s'.lvl == q.lvl;
  }

  lemma Stores(n: nat)
    requires n > 1
    ensures Enabled(Counted(StoreCons, n, n - 1, 0), Soft(0)) &&
        Do(Counted(StoreCons, n, n - 1, 0), Soft(0)) == Counted(Check, n, n - 1, 1)
  {
    var s', q := Do(Counted(StoreCons, n, n - 1, 0), Soft(0)), Counted(Check, n, n - 1, 1);
    assert s'.lvl[0].b == q.lvl[0].b;
    assert s'.lvl == q.lvl;
  }

  lemma Finished(n: nat)
    requires n > 1
    ensures var s := Counted(Check, n, n - 1, 1);
            && |s.cpu.arrays| > 0 && |s.lvl| == 2 && BufShape(s.lvl[0]) && Queue(s.lvl[0]) == [] &&
                Cyc(s.cpu) == [Cyclic(false, LOW, 0, n - 1)]
            && s.exp == [n] && s.calls == [1]
  {
  }

  /** A run of 2^31 + 1 expiries and one delivery ends with one call made, 2^31 still counted, and the slot in no
      buffer. */
  lemma SignedDrops() returns (tr: seq<State>, ss: seq<Step>)
    ensures Run(tr, ss) && |tr[|ss|].cpu.arrays| > 0 && |tr[|ss|].lvl| == 2 && BufShape(tr[|ss|].lvl[0])
    ensures Queue(tr[|ss|].lvl[0]) == [] && Cyc(tr[|ss|].cpu) == [Cyclic(false, LOW, 0, INT32_MAX + 1)]
    ensures tr[|ss|].exp == [INT32_MAX + 2] && tr[|ss|].calls == [1]
  {
    hide Enabled, Do, Init, Solo, Held, Serving, Counted, Queue, BufShape;
    tr, ss := ManyExpiries(TOO_MANY);
    var n := TOO_MANY;
    HeldBegins(n);
    HeldLooks(n, Top, Load);
    HeldLooks(n, Load, Check);
    HeldLooks(n, Check, ReadSlot);
    HeldLooks(n, ReadSlot, ReadHandler);
    HeldLooks(n, ReadHandler, Call);
    HeldLooks(n, Call, InHandler);
    Returns(n);
    Rereads(n);
    Decrements(n);
    Stores(n);
    Finished(n);
    tr := tr + [Held(Serving(Top), n, MIdle), Held(Serving(Load), n, MIdle), Held(Serving(Check), n, MIdle),
        Held(Serving(ReadSlot), n, MIdle),
                Held(Serving(ReadHandler), n, MIdle), Held(Serving(Call), n, MIdle), Held(Serving(InHandler), n, MIdle),
                Counted(Reread, n, n, 0), Counted(Cas, n, n, 0), Counted(StoreCons, n, n - 1, 0),
                    Counted(Check, n, n - 1, 1)];
    ss := ss + [Begin(0), Soft(0), Soft(0), Soft(0), Soft(0), Soft(0), Soft(0), Soft(0), Soft(0), Soft(0), Soft(0)];
  }
}
