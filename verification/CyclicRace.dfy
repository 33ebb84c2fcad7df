/** Where the promises fail: the one window in which a resize drops a pending cyclic. */
module CyclicRace {
  import opened CyclicSystem
  import opened CyclicInvariant
  import opened CyclicWrites
  import opened CyclicExpand
  import opened CyclicTheorems

  /** Every slot of level l with a non-zero pending count is in the level's buffers. */
  predicate AllQueued(s: State, l: nat)
    requires |s.cpu.arrays| > 0 && l < |s.lvl| && BufShape(s.lvl[l])
  {
    forall k :: 0 <= k < |Cyc(s.cpu)| && Cyc(s.cpu)[k].level == l && Cyc(s.cpu)[k].pend > 0 ==> k in Queue(s.lvl[l])
  }

  /** The resize cross call, then the activation at level l goes on from its look at cys_hard to the buffer switch. */
  ghost predicate Passes(s: State, l: nat, s1: State, s2: State, s3: State, s4: State) {
    && Enabled(s, Modify) && s1 == Do(s, Modify) && Enabled(s1, Soft(l)) && s2 == Do(s1, Soft(l))
    && Enabled(s2, Soft(l)) && s3 == Do(s2, Soft(l)) && Enabled(s3, Soft(l)) && s4 == Do(s3, Soft(l))
  }

  lemma LooksOn(s: State, l: nat) returns (s2: State, s3: State, s4: State)
    requires Shaped(s) && l < 2 && s.lvl[l].th.pc.CheckHard? && s.lvl[l].th.soft != s.lvl[l].hard
    ensures Enabled(s, Soft(l)) && s2 == Do(s, Soft(l)) && Enabled(s2, Soft(l)) && s3 == Do(s2, Soft(l))
    ensures Enabled(s3, Soft(l)) && s4 == Do(s3, Soft(l))
    ensures s4.cpu == s.cpu && |s4.lvl| == 2
    ensures s4.lvl[l] == s.lvl[l].(soft := s.lvl[l].hard, th := s4.lvl[l].th) && s4.lvl[l].th.pc.Top?
  {
    hide Enabled, Do;
    s2 := LooksAtHard(s, l);
    s3 := Grows(s2, l);
    s4 := Switches(s3, l);
  }

  lemma LooksAtHard(s: State, l: nat) returns (s': State)
    requires Shaped(s) && l < 2 && s.lvl[l].th.pc.CheckHard? && s.lvl[l].th.soft != s.lvl[l].hard
    ensures Enabled(s, Soft(l)) && s' == Do(s, Soft(l)) && Shaped(s') && s'.cpu == s.cpu
    ensures s'.lvl[l] == s.lvl[l].(th := s'.lvl[l].th) && s'.lvl[l].th.pc.Grow?
  {
    s' := Do(s, Soft(l));
  }

  lemma Grows(s: State, l: nat) returns (s': State)
    requires Shaped(s) && l < 2 && s.lvl[l].th.pc.Grow?
    ensures Enabled(s, Soft(l)) && s' == Do(s, Soft(l)) && Shaped(s') && s'.cpu == s.cpu
    ensures s'.lvl[l] == s.lvl[l].(th := s'.lvl[l].th) && s'.lvl[l].th.pc.SetSoft?
  {
    s' := Do(s, Soft(l));
  }

  lemma Switches(s: State, l: nat) returns (s': State)
    requires Shaped(s) && l < 2 && s.lvl[l].th.pc.SetSoft?
    ensures Enabled(s, Soft(l)) && s' == Do(s, Soft(l)) && |s'.lvl| == 2 && s'.cpu == s.cpu
    ensures s'.lvl[l] == s.lvl[l].(soft := s.lvl[l].hard, th := s'.lvl[l].th) && s'.lvl[l].th.pc.Top?
  {
    s' := Do(s, Soft(l));
  }

  lemma CrossCall(s: State, l: nat) returns (s1: State)
    requires Inv(s) && s.mod.EXcall? && l < 2 && s.lvl[l].th.pc.CheckHard?
    ensures Enabled(s, Modify) && s1 == Do(s, Modify) && Shaped(s1) && s1.cpu == ExpandCpu(s.cpu)
    ensures s1.lvl[l] == Flipped(s.lvl[l], s1.lvl[l].posted) && s1.lvl[l].th.soft != s1.lvl[l].hard
  {
    hide QueueOk, CycOk, OldOk, LedgerOk, SemOk, WakeOk, ThreadOk, Zeroed, Doubled;
    s1 := Do(s, Modify);
  }

  lemma PassesOnce(s: State, l: nat) returns (s1: State, s2: State, s3: State, s4: State)
    requires Inv(s) && s.mod.EXcall? && l < 2 && s.lvl[l].th.pc.CheckHard?
    ensures Passes(s, l, s1, s2, s3, s4)
    ensures s4.cpu == ExpandCpu(s.cpu) && |s4.lvl| == 2
    ensures s4.lvl[l] == Flipped(s.lvl[l], s4.lvl[l].posted).(soft := 1 - s.lvl[l].hard, th := s4.lvl[l].th) &&
        s4.lvl[l].th.pc.Top?
  {
    hide BufOk, QueueOk, ActOk, CycOk, OldOk, LedgerOk, SemOk, WakeOk, ExpandCpu, Enabled, Do;
    s1 := CrossCall(s, l);
    s2, s3, s4 := LooksOn(s1, l);
  }

  /** A resize that catches an activation between its last look at the producer index and its look at cys_hard
      leaves every pending cyclic of that level queued if and only if nothing was queued in between. */
  lemma WindowExact(s: State, l: nat, s1: State, s2: State, s3: State, s4: State)
    requires Inv(s) && s.mod.EXcall? && l < 2 && s.lvl[l].th.pc.CheckHard? && Passes(s, l, s1, s2, s3, s4)
    ensures |s4.cpu.arrays| > 0 && |s4.lvl| == 2 && BufShape(s4.lvl[l])
    ensures AllQueued(s4, l) <==> !InWindow(s.lvl[l])
  {
    hide Passes, Inv, Enabled, Do, AllQueued, InWindow;
    var t1, t2, t3, t4 := PassesOnce(s, l);
    assert Passes(s, l, t1, t2, t3, t4);
    SamePass(s, l, s1, s2, s3, s4, t1, t2, t3, t4);
    WindowAfter(s, l, s4);
  }

  lemma SamePass(s: State, l: nat, s1: State, s2: State, s3: State, s4: State, t1: State, t2: State, t3: State,
      t4: State)
    requires Passes(s, l, s1, s2, s3, s4) && Passes(s, l, t1, t2, t3, t4)
    ensures s4 == t4
  {
    hide Enabled, Do;
  }

  lemma WindowAfter(s: State, l: nat, s4: State)
    requires Inv(s) && s.mod.EXcall? && l < 2 && s.lvl[l].th.pc.CheckHard?
    requires s4.cpu == ExpandCpu(s.cpu) && |s4.lvl| == 2
    requires s4.lvl[l] == Flipped(s.lvl[l], s4.lvl[l].posted).(soft := 1 - s.lvl[l].hard, th := s4.lvl[l].th) &&
        s4.lvl[l].th.pc.Top?
    ensures |s4.cpu.arrays| > 0 && BufShape(s4.lvl[l])
    ensures AllQueued(s4, l) <==> !InWindow(s.lvl[l])
  {
    hide CycOk, OldOk, LedgerOk, SemOk, WakeOk, ThreadOk, Zeroed, Doubled, Entry;
    var lv, c := s.lvl[l], s.cpu;
    ExpandView(c, s.mod);
    assert lv.soft == lv.hard && Queue(s4.lvl[l]) == [];
    if InWindow(lv) {
      var k := Queue(lv)[0];
      assert k in Queue(lv) && Pending(c, s.mod, k);
      assert Cyc(s4.cpu)[k].pend > 0;
    } else {
      assert Queue(lv) == [];
      forall k | 0 <= k < |Cyc(s4.cpu)| && Cyc(s4.cpu)[k].level == l && Cyc(s4.cpu)[k].pend > 0
        ensures k in Queue(lv)
      {
        assert Pending(c, s.mod, k);
      }
    }
  }

  // ---------------------------------------------------------------- the window is reachable

  /** One low-level cyclic in slot 0 with pending count `pend`, and a low-level activation at `th`. */
  function Solo(th: Thread, state: CpuState, pend: nat, mod: Mod): State {
    var p := if pend == 0 then Pc([0], 0, 0, 0, true) else Pc([0], 1, 0, 0, true);
    var none, room := Pc([], 0, 0, 0, false), Pc([0, 0], 0, 0, 1, true);
    var q := if mod.EXcall? then room else none;
    State(Cpu(state, [[Cyclic(false, LOW, 0, pend)]], 0, 0, 0, 0, 0),
          [Level(0, 0, [p, q], pend > 0, 0, th), Level(0, 0, [Pc([0], 0, 0, 0, true), q], false, 0, IDLE_THREAD)],
          mod, [pend], [0])
  }

  function Seen(pc: At): Thread {
    IDLE_THREAD.(pc := pc, size := if pc.Top? || pc.Load? then 0 else 1)
  }

  lemma SoloAdd()
    ensures Enabled(Init(), Add(0, LOW)) && Do(Init(), Add(0, LOW)) == Solo(IDLE_THREAD, Online, 0, MIdle)
  {
    var s := Do(Init(), Add(0, LOW));
    assert Cyc(s.cpu) == [Cyclic(false, LOW, 0, 0)];
    assert s.cpu.arrays == [[Cyclic(false, LOW, 0, 0)]] && s.exp == [0] && s.calls == [0];
  }

  lemma SoloLooks(pc: At, pc': At)
    requires (pc, pc') in {(Idle, Top), (Top, Load), (Load, Check), (Check, CheckHard)}
    ensures var s, st := Solo(if pc.Idle? then IDLE_THREAD else Seen(pc), Online, 0, MIdle), if pc.Idle?
        then Begin(0) else Soft(0);
            Enabled(s, st) && Do(s, st) == Solo(Seen(pc'), Online, 0, MIdle)
  {
  }

  lemma SoloExpires(th: Thread, n: nat)
    requires n < UINT32_MAX
    ensures var s := Solo(th, Online, n, MIdle);
        Enabled(s, Expire(0)) && Do(s, Expire(0)) == Solo(th, Online, n + 1, MIdle)
  {
    var s := Solo(th, Online, n, MIdle);
    var s', q := Do(s, Expire(0)), Solo(th, Online, n + 1, MIdle);
    assert Push(Pc([0], 0, 0, 0, true), 0).buf == [0];
    assert s'.lvl[0].b == q.lvl[0].b;
    assert s'.lvl == q.lvl;
    assert Cyc(s'.cpu) == [Cyclic(false, LOW, 0, n + 1)];
    assert s'.cpu.arrays == q.cpu.arrays && s'.exp == q.exp;
  }

  lemma SoloGrows()
    ensures var s := Solo(Seen(CheckHard), Online, 1, MIdle);
            Enabled(s, ExpandBegin) && Do(s, ExpandBegin) == Solo(Seen(CheckHard), Expanding, 1, EAlloc)
    ensures var s := Solo(Seen(CheckHard), Expanding, 1, EAlloc);
            Enabled(s, Modify) && Do(s, Modify) == Solo(Seen(CheckHard), Expanding, 1, EXcall)
  {
    var s := Solo(Seen(CheckHard), Expanding, 1, EAlloc);
    var s', q := Do(s, Modify), Solo(Seen(CheckHard), Expanding, 1, EXcall);
    assert seq<nat>(2, i => 0) == [0, 0];
    assert s'.lvl[0].b == q.lvl[0].b && s'.lvl[1].b == q.lvl[1].b;
  }

  lemma SoloFacts(th: Thread, state: CpuState, pend: nat, mod: Mod)
    requires pend <= 1
    ensures var s := Solo(th, state, pend, mod); |s.cpu.arrays| > 0 && Fits(s.cpu) && s.mod == mod && |s.lvl| == 2
  {
  }

  lemma InitFacts()
    ensures |Init().cpu.arrays| > 0 && Fits(Init().cpu)
  {
  }

  /** A clean run reaches a state whose next step, the resize cross call, hits the window. */
  lemma WindowReachable() returns (tr: seq<State>, ss: seq<Step>)
    ensures Run(tr, ss) && Clean(tr, ss) && tr[|ss|].mod.EXcall? && |tr[|ss|].lvl| == 2 && InWindow(tr[|ss|].lvl[0])
    ensures |tr[|ss|].cpu.arrays| > 0 && Fits(tr[|ss|].cpu)
  {
    hide Enabled, Do, Init, Solo, Seen, Fits, InWindow, InBuf;
    ss := [Add(0, LOW), Begin(0), Soft(0), Soft(0), Soft(0), Expire(0), ExpandBegin, Modify];
    tr := [Init(), Solo(IDLE_THREAD, Online, 0, MIdle), Solo(Seen(Top), Online, 0, MIdle),
        Solo(Seen(Load), Online, 0, MIdle),
           Solo(Seen(Check), Online, 0, MIdle), Solo(Seen(CheckHard), Online, 0, MIdle),
               Solo(Seen(CheckHard), Online, 1, MIdle),
           Solo(Seen(CheckHard), Expanding, 1, EAlloc), Solo(Seen(CheckHard), Expanding, 1, EXcall)];
    InitFacts();
    SoloFacts(IDLE_THREAD, Online, 0, MIdle);
    SoloFacts(Seen(Top), Online, 0, MIdle);
    SoloFacts(Seen(Load), Online, 0, MIdle);
    SoloFacts(Seen(Check), Online, 0, MIdle);
    SoloFacts(Seen(CheckHard), Online, 0, MIdle);
    SoloFacts(Seen(CheckHard), Online, 1, MIdle);
    SoloFacts(Seen(CheckHard), Expanding, 1, EAlloc);
    SoloFacts(Seen(CheckHard), Expanding, 1, EXcall);
    SoloAdd();
    SoloLooks(Idle, Top);
    SoloLooks(Top, Load);
    SoloLooks(Load, Check);
    SoloLooks(Check, CheckHard);
    SoloExpires(Seen(CheckHard), 0);
    SoloGrows();
    SoloWindow();
  }

  lemma SoloWindow()
    ensures var s := Solo(Seen(CheckHard), Expanding, 1, EXcall); s.mod.EXcall? && |s.lvl| == 2 && InWindow(s.lvl[0])
  {
  }

  /** So a run, clean up to the cross call itself, ends with a pending cyclic that is in no buffer. */
  lemma ResizeCanDrop() returns (tr: seq<State>, ss: seq<Step>, k: nat)
    ensures Run(tr, ss) && |tr[|ss|].cpu.arrays| > 0 && |tr[|ss|].lvl| == 2 && BufShape(tr[|ss|].lvl[0])
    ensures k < |Cyc(tr[|ss|].cpu)| && Cyc(tr[|ss|].cpu)[k].level == LOW && Cyc(tr[|ss|].cpu)[k].pend > 0
    ensures k !in Queue(tr[|ss|].lvl[0])
  {
    hide Enabled, Do, Init, InWindow, Inv, Queue, Fits, Race, BufShape;
    var tr0, ss0 := WindowReachable();
    var n := |ss0|;
    RunKeeps(tr0, ss0, n);
    WindowAt(tr0[n]);
    var s1, s2, s3, s4 := PassesOnce(tr0[n], 0);
    WindowExact(tr0[n], 0, s1, s2, s3, s4);
    k :| 0 <= k < |Cyc(s4.cpu)| && Cyc(s4.cpu)[k].level == LOW && Cyc(s4.cpu)[k].pend > 0 && k !in Queue(s4.lvl[0]);
    tr, ss := tr0 + [s1, s2, s3, s4], ss0 + [Modify, Soft(0), Soft(0), Soft(0)];
  }

  lemma WindowAt(s: State)
    requires |s.lvl| == 2 && InWindow(s.lvl[0])
    ensures s.lvl[0].th.pc.CheckHard?
  {
  }

  // ---------------------------------------------------------------- one cyclic being delivered

  /** n expiries of the only cyclic, being delivered by a low-level activation. */
  function Held(th: Thread, n: nat, mod: Mod): State {
    var s := Solo(th, if mod.MIdle? then Online else Expanding, n, mod);
    s.(lvl := s.lvl[0 := s.lvl[0].(posted := false)])
  }

  function Serving(pc: At): Thread {
    IDLE_THREAD.(pc := pc, size := if pc.Top? || pc.Load? then 0 else 1, reg := if pc.Call? || pc.InHandler?
        then 0 else -1)
  }

  lemma HeldLooks(n: nat, pc: At, pc': At)
    requires n > 0
    requires (pc, pc') in {(Top, Load), (Load, Check), (Check, ReadSlot), (ReadSlot, ReadHandler), (ReadHandler, Call),
        (Call, InHandler)}
    ensures Enabled(Held(Serving(pc), n, MIdle), Soft(0)) &&
        Do(Held(Serving(pc), n, MIdle), Soft(0)) == Held(Serving(pc'), n, MIdle)
  {
  }

  lemma HeldBegins(n: nat)
    requires n > 0
    ensures var s := Solo(IDLE_THREAD, Online, n, MIdle);
        Enabled(s, Begin(0)) && Do(s, Begin(0)) == Held(Serving(Top), n, MIdle)
  {
  }

  // ---------------------------------------------------------------- the clamp

  /** An expiry of a soft-level cyclic is counted if and only if the count is not at its 32-bit limit. */
  lemma ClampedExpiry(s: State, k: nat)
    requires Enabled(s, Expire(k)) && Cyc(s.cpu)[k].level < HIGH && Cyc(s.cpu)[k].pend <= UINT32_MAX
    ensures |DoExpire(s, k).cpu.arrays| > 0 && k < |Cyc(DoExpire(s, k).cpu)|
    ensures Cyc(DoExpire(s, k).cpu)[k].pend == Cyc(s.cpu)[k].pend + 1 <==> Cyc(s.cpu)[k].pend < UINT32_MAX
  {
  }
}
