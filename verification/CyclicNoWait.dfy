/** The Linux build, in which sema_p is defined away: cyclic_expand and cyclic_remove_here go on without waiting. */
module CyclicNoWait {
  import opened CyclicSystem
  import opened CyclicInvariant
  import opened CyclicWrites
  import opened CyclicExpand
  import opened CyclicTheorems
  import opened CyclicRace

  /** The wait that does nothing. */
  function PassWait(s: State): State
    requires s.mod.EWait? || s.mod.RWait?
  {
    match s.mod
    case EWait => s.(mod := EFree)
    case RWait(k) => s.(mod := RClear(k))
  }

  /** Going on with a removal without waiting keeps the removal's promise, that the handler is not running and every
      expiry has had its call, if and only if the semaphore had been posted. */
  lemma RemoveExact(s: State)
    requires Inv(s) && s.mod.RWait?
    ensures s.mod.k < |Cyc(s.cpu)| && 0 <= Cyc(s.cpu)[s.mod.k].reg < |s.exp| == |s.calls|
    ensures var r := Cyc(s.cpu)[s.mod.k].reg; (!Running(s, r) && s.exp[r] == s.calls[r]) <==> s.cpu.sem > 0
  {
    hide WakeOk, BufShape, Queue, OlderOk, HandOk;
    var k := s.mod.k;
    var l := Cyc(s.cpu)[k].level;
    if s.cpu.sem > 0 {
      RemoveDoneEarly(s);
    } else {
      assert Stashed(s.cpu, s.mod, k) && l < 2;
      var t := s.lvl[l].th;
      if t.ndx == k && HasHandler(t.pc) {
        assert t.reg == Cyc(s.cpu)[k].reg;
      }
    }
  }

  lemma RemoveDoneEarly(s: State)
    requires Inv(s) && s.mod.RWait? && s.cpu.sem > 0
    ensures var r := Cyc(s.cpu)[s.mod.k].reg; 0 <= r < |s.exp| && !Running(s, r) && s.exp[r] == s.calls[r]
  {
    hide LevelOk, Debt;
    assert Retired(s, Cyc(s.cpu)[s.mod.k].reg);
    RetiredIdle(s, Cyc(s.cpu)[s.mod.k].reg);
  }

  // ---------------------------------------------------------------- freed while in use

  lemma HeldExpands()
    ensures var s := Held(Serving(InHandler), 1, MIdle);
        Enabled(s, ExpandBegin) && Do(s, ExpandBegin) == Held(Serving(InHandler), 1, EAlloc)
  {
  }

  lemma HeldGrows()
    ensures var s := Held(Serving(InHandler), 1, EAlloc);
        Enabled(s, Modify) && Do(s, Modify) == Held(Serving(InHandler), 1, EXcall)
  {
    var s := Held(Serving(InHandler), 1, EAlloc);
    var s', q := Do(s, Modify), Held(Serving(InHandler), 1, EXcall);
    assert seq<nat>(2, i => 0) == [0, 0];
    assert s'.lvl[0].b == q.lvl[0].b && s'.lvl[1].b == q.lvl[1].b;
  }

  lemma HeldFacts(pc: At, mod: Mod)
    ensures var s := Held(Serving(pc), 1, mod); |s.cpu.arrays| > 0 && Fits(s.cpu) && s.mod == mod && |s.lvl| == 2
    ensures var s := Held(Serving(pc), 1, mod); pc.InHandler? ==> !InWindow(s.lvl[0]) && !InWindow(s.lvl[1])
  {
  }

  /** A softint in its handler when the array is replaced; the wait is passed, the old array freed, and the softint's
      next access is to the freed array. */
  lemma PassFrees(s: State, s1: State, s2: State, s3: State)
    requires s == Held(Serving(InHandler), 1, EXcall) && Enabled(s, Modify) && s1 == Do(s, Modify) && s1.mod.EWait?
    requires Enabled(PassWait(s1), Modify) && s2 == Do(PassWait(s1), Modify) && Enabled(s2, Soft(0)) &&
        s3 == Do(s2, Soft(0))
    ensures |s3.lvl| == 2 && s3.lvl[0].th.pc.Reread? && !SoftEnabled(s3.cpu, s3.lvl[0], |s3.calls|)
  {
  }

  lemma PassEnabled()
    ensures var s := Held(Serving(InHandler), 1, EXcall);
            && Enabled(s, Modify) && Do(s, Modify).mod.EWait? && Enabled(PassWait(Do(s, Modify)), Modify)
            && Enabled(Do(PassWait(Do(s, Modify)), Modify), Soft(0))
  {
  }

  /** A softint reaches its handler. */
  lemma HandlerReached() returns (tr: seq<State>, ss: seq<Step>)
    ensures Run(tr, ss) && Clean(tr, ss) && tr[|ss|] == Held(Serving(InHandler), 1, MIdle)
  {
    hide Enabled, Do, Init, Solo, Held, Serving, Fits, InWindow, PassWait;
    InitFacts();
    SoloFacts(IDLE_THREAD, Online, 0, MIdle);
    SoloFacts(IDLE_THREAD, Online, 1, MIdle);
    SoloAdd();
    SoloExpires(IDLE_THREAD, 0);
    HeldBegins(1);
    forall pc
      ensures |Held(Serving(pc), 1, MIdle).cpu.arrays| > 0 && Fits(Held(Serving(pc), 1, MIdle).cpu)
    {
      HeldFacts(pc, MIdle);
    }
    HeldLooks(1, Top, Load);
    HeldLooks(1, Load, Check);
    HeldLooks(1, Check, ReadSlot);
    HeldLooks(1, ReadSlot, ReadHandler);
    HeldLooks(1, ReadHandler, Call);
    HeldLooks(1, Call, InHandler);
    ss := [Add(0, LOW), Expire(0), Begin(0), Soft(0), Soft(0), Soft(0), Soft(0), Soft(0), Soft(0)];
    tr := [Init(), Solo(IDLE_THREAD, Online, 0, MIdle), Solo(IDLE_THREAD, Online, 1, MIdle),
        Held(Serving(Top), 1, MIdle), Held(Serving(Load), 1, MIdle),
           Held(Serving(Check), 1, MIdle), Held(Serving(ReadSlot), 1, MIdle), Held(Serving(ReadHandler), 1, MIdle),
               Held(Serving(Call), 1, MIdle),
           Held(Serving(InHandler), 1, MIdle)];
  }

  /** A run, clean in every respect, up to the wait; without the wait, two more steps and a softint reads freed
      memory. */
  lemma FreedInUse() returns (tr: seq<State>, ss: seq<Step>)
    ensures Run(tr, ss) && Clean(tr, ss) && tr[|ss|].mod.EWait? && Enabled(PassWait(tr[|ss|]), Modify)
    ensures var s2 := Do(PassWait(tr[|ss|]), Modify);
            && Enabled(s2, Soft(0)) && var s3 := Do(s2, Soft(0));
               |s3.lvl| == 2 && !s3.lvl[0].th.pc.Idle? && !SoftEnabled(s3.cpu, s3.lvl[0], |s3.calls|)
  {
    hide Enabled, Do, Init, Solo, Held, Serving, Fits, InWindow, PassWait;
    tr, ss := HandlerReached();
    HeldExpands();
    HeldGrows();
    HeldFacts(InHandler, MIdle);
    HeldFacts(InHandler, EAlloc);
    HeldFacts(InHandler, EXcall);
    PassEnabled();
    var s1 := Do(Held(Serving(InHandler), 1, EXcall), Modify);
    tr, ss := tr + [Held(Serving(InHandler), 1, EAlloc), Held(Serving(InHandler), 1, EXcall), s1],
        ss + [ExpandBegin, Modify, Modify];
    PassFrees(Held(Serving(InHandler), 1, EXcall), s1, Do(PassWait(s1), Modify), Do(Do(PassWait(s1), Modify), Soft(0)));
  }

  // ---------------------------------------------------------------- removed with calls outstanding

  /** The same cyclic, pending, being removed. */
  function Leaving(mod: Mod): State {
    var s := Solo(IDLE_THREAD, Removing, 1, mod);
    if mod.RXcall? then s else s.(cpu := s.cpu.(arrays := [[Cyclic(true, LOW, 0, 0)]], rpend := if mod.RDone?
        then 0 else 1))
  }

  lemma LeavingBegins()
    ensures var s := Solo(IDLE_THREAD, Online, 1, MIdle);
        Enabled(s, RemoveBegin(0, true)) && Do(s, RemoveBegin(0, true)) == Leaving(RXcall(0, true))
  {
  }

  lemma LeavingXcall()
    ensures Enabled(Leaving(RXcall(0, true)), Modify) &&
        Do(Leaving(RXcall(0, true)), Modify) == Leaving(RCheck(0, true))
  {
    var c := Do(Leaving(RXcall(0, true)), Modify).cpu;
    assert Cyc(c) == [Cyclic(true, LOW, 0, 0)];
    assert c.arrays == [[Cyclic(true, LOW, 0, 0)]];
  }

  lemma LeavingSteps()
    ensures Enabled(Leaving(RCheck(0, true)), Modify) && Do(Leaving(RCheck(0, true)), Modify) == Leaving(RWait(0))
    ensures PassWait(Leaving(RWait(0))) == Leaving(RClear(0))
    ensures Enabled(Leaving(RClear(0)), Modify) && Do(Leaving(RClear(0)), Modify) == Leaving(RDone(0))
  {
  }

  lemma LeavingFacts(mod: Mod)
    ensures |Leaving(mod).cpu.arrays| > 0 && Fits(Leaving(mod).cpu) && Leaving(mod).mod == mod
    ensures Leaving(mod).exp == [1] && Leaving(mod).calls == [0]
  {
  }

  /** A run, clean in every respect, up to the wait; without the wait the removal returns with a call outstanding. */
  lemma RemovedTooEarly() returns (tr: seq<State>, ss: seq<Step>)
    ensures Run(tr, ss) && Clean(tr, ss) && tr[|ss|].mod == RWait(0) && Enabled(PassWait(tr[|ss|]), Modify)
    ensures var s := Do(PassWait(tr[|ss|]), Modify); s.mod == RDone(0) && s.exp == [1] && s.calls == [0]
  {
    hide Enabled, Do, Init, Solo, Leaving, Fits, InWindow, PassWait;
    InitFacts();
    SoloFacts(IDLE_THREAD, Online, 0, MIdle);
    SoloFacts(IDLE_THREAD, Online, 1, MIdle);
    SoloAdd();
    SoloExpires(IDLE_THREAD, 0);
    LeavingBegins();
    LeavingXcall();
    LeavingSteps();
    LeavingFacts(RXcall(0, true));
    LeavingFacts(RCheck(0, true));
    LeavingFacts(RWait(0));
    LeavingFacts(RDone(0));
    ss := [Add(0, LOW), Expire(0), RemoveBegin(0, true), Modify, Modify];
    tr := [Init(), Solo(IDLE_THREAD, Online, 0, MIdle), Solo(IDLE_THREAD, Online, 1, MIdle), Leaving(RXcall(0, true)),
        Leaving(RCheck(0, true)), Leaving(RWait(0))];
  }
}
