/** The soft levels change buffers in step with the resizes, and no buffer outlives the resize that replaced it. */
module CyclicLockstep {
  import opened CyclicSystem
  import opened CyclicInvariant

  predicate PowerOfTwo(n: nat) {
    n == 1 || (n > 1 && n % 2 == 0 && PowerOfTwo(n / 2))
  }

  lemma Doubles(n: nat)
    requires PowerOfTwo(n)
    ensures PowerOfTwo(2 * n)
  {
    assert 2 * n / 2 == n;
  }

  /** cys_hard is the number of resizes modulo two.  The other buffer exists only during a resize: at twice the size
      until the cross call, at half the size after it. */
  predicate InStep(lv: Level, n: nat, cur: nat, m: Mod) {
    && |lv.b| == 2 && lv.soft < 2 && lv.hard == cur % 2 && lv.b[lv.hard].live && |lv.b[lv.hard].buf| == n
    && var other := lv.b[1 - lv.hard];
       if m.EXcall? then other.live && |other.buf| == 2 * n && other.prod == other.cons == 0
       else if m.EWait? || m.EFree? then other.live && 2 * |other.buf| == n
       else !other.live
  }

  predicate Lockstep(s: State) {
    var c, m := s.cpu, s.mod;
    && |c.arrays| > 0 && |s.lvl| == 2 && PowerOfTwo(|Cyc(c)|)
    && InStep(s.lvl[0], |Cyc(c)|, Cur(c), m) && InStep(s.lvl[1], |Cyc(c)|, Cur(c), m)
    && (m.EWait? || m.EFree? ==> |c.arrays| > 1 && 2 * |Prev(c)| == |Cyc(c)|)
    && (m.RFail? ==> !m.wait) && (m.RCheck? && !m.wait ==> c.rpend == 0)
  }

  lemma InitLockstep()
    ensures Lockstep(Init())
  {
  }

  /** Two states agree on what the levels have to be in step with. */
  predicate SameFrame(s: State, s': State) {
    && s'.mod == s.mod && s'.cpu.rpend == s.cpu.rpend && |s'.cpu.arrays| == |s.cpu.arrays| && |s'.lvl| == |s.lvl| == 2
    && (forall a :: 0 <= a < |s.cpu.arrays| ==> |s'.cpu.arrays[a]| == |s.cpu.arrays[a]|)
    && SameLevel(s.lvl[0], s'.lvl[0], s.mod) && SameLevel(s.lvl[1], s'.lvl[1], s.mod)
  }

  predicate SameLevel(lv: Level, lv': Level, m: Mod) {
    && |lv.b| == |lv'.b| == 2 && lv'.hard == lv.hard < 2 && lv'.soft < 2
    && (forall h :: 0 <= h < 2 ==> lv'.b[h].live == lv.b[h].live && |lv'.b[h].buf| == |lv.b[h].buf|)
    && (m.EXcall? ==> lv'.b[1 - lv.hard] == lv.b[1 - lv.hard])
  }

  lemma FrameLockstep(s: State, s': State)
    requires Lockstep(s) && SameFrame(s, s')
    ensures Lockstep(s')
  {
    hide PowerOfTwo;
  }

  lemma LookFrame(s: State, l: nat)
    requires Lockstep(s) && Enabled(s, Soft(l)) && OnlyReads(s.cpu, s.lvl[l])
    ensures SameFrame(s, DoSoft(s, l))
  {
    hide PowerOfTwo, Look, OnlyReads, SoftEnabled;
  }

  lemma WriteCpu(s: State, l: nat)
    requires Enabled(s, Soft(l)) && !OnlyReads(s.cpu, s.lvl[l])
    ensures var s' := DoSoft(s, l);
            && s'.mod == s.mod && s'.cpu.rpend == s.cpu.rpend && |s'.cpu.arrays| == |s.cpu.arrays|
            && (forall a :: 0 <= a < |s.cpu.arrays| ==> |s'.cpu.arrays[a]| == |s.cpu.arrays[a]|)
  {
  }

  lemma WriteBuffer(s: State, l: nat, j: nat)
    requires Enabled(s, Soft(l)) && j < 2 && (s.lvl[l].th.pc.StoreCons? || s.lvl[l].th.pc.SetSoft?)
    requires s.mod.EXcall? && InBuf(s.lvl[l].th.pc) ==> s.lvl[l].th.soft == s.lvl[l].hard
    ensures |DoSoft(s, l).lvl| == 2 && SameLevel(s.lvl[j], DoSoft(s, l).lvl[j], s.mod)
  {
    hide Look;
  }

  lemma WriteOther(s: State, l: nat, j: nat)
    requires Enabled(s, Soft(l)) && !OnlyReads(s.cpu, s.lvl[l]) && j < 2 && !s.lvl[l].th.pc.StoreCons? &&
        !s.lvl[l].th.pc.SetSoft?
    ensures var lv := s.lvl[j];
            |DoSoft(s, l).lvl| == 2 && var lv' := DoSoft(s, l).lvl[j];
                lv' == lv.(posted := lv'.posted, acks := lv'.acks, th := lv'.th)
  {
    hide Look;
  }

  lemma WriteLevel(s: State, l: nat, j: nat)
    requires Enabled(s, Soft(l)) && !OnlyReads(s.cpu, s.lvl[l]) && j < 2
    requires s.mod.EXcall? && InBuf(s.lvl[l].th.pc) ==> s.lvl[l].th.soft == s.lvl[l].hard
    ensures |DoSoft(s, l).lvl| == 2 && SameLevel(s.lvl[j], DoSoft(s, l).lvl[j], s.mod)
  {
    hide DoSoft, OnlyReads, InBuf, SoftEnabled;
    if s.lvl[l].th.pc.StoreCons? || s.lvl[l].th.pc.SetSoft? {
      WriteBuffer(s, l, j);
    } else {
      WriteOther(s, l, j);
    }
  }

  lemma WriteFrame(s: State, l: nat)
    requires Enabled(s, Soft(l)) && !OnlyReads(s.cpu, s.lvl[l])
    requires s.mod.EXcall? && InBuf(s.lvl[l].th.pc) ==> s.lvl[l].th.soft == s.lvl[l].hard
    ensures SameFrame(s, DoSoft(s, l))
  {
    hide OnlyReads, DoSoft, InBuf, SoftEnabled, SameLevel;
    WriteCpu(s, l);
    WriteLevel(s, l, 0);
    WriteLevel(s, l, 1);
  }

  lemma SoftLockstep(s: State, l: nat)
    requires Inv(s) && Lockstep(s) && Enabled(s, Soft(l))
    ensures Lockstep(DoSoft(s, l))
  {
    hide Lockstep, SameFrame, DoSoft, Enabled, OnlyReads, QueueOk, BufOk, ThreadOk, WakeOk, SemOk, CycOk, OldOk,
        LedgerOk;
    assert l < 2 by {
      assert Enabled(s, Soft(l));
      EnabledLevel(s, l);
    }
    if OnlyReads(s.cpu, s.lvl[l]) {
      LookFrame(s, l);
    } else {
      WriteFrame(s, l);
    }
    FrameLockstep(s, DoSoft(s, l));
  }

  lemma EnabledLevel(s: State, l: nat)
    requires Enabled(s, Soft(l))
    ensures l < 2 && |s.lvl| == 2
  {
  }

  lemma ExpireFrame(s: State, k: nat)
    requires Lockstep(s) && Enabled(s, Expire(k))
    ensures SameFrame(s, DoExpire(s, k))
  {
    hide PowerOfTwo;
  }

  lemma ResizeLockstep(s: State)
    requires Lockstep(s) && Enabled(s, Modify) && (s.mod.EAlloc? || s.mod.EXcall?)
    ensures Lockstep(DoModify(s))
  {
    hide PowerOfTwo;
    Doubles(|Cyc(s.cpu)|);
  }

  lemma ModifyLockstep(s: State)
    requires Lockstep(s) && Enabled(s, Modify) && !s.mod.EAlloc? && !s.mod.EXcall? &&
        (s.mod.RXcall? ==> s.cpu.rpend == 0)
    ensures Lockstep(DoModify(s))
  {
    hide PowerOfTwo, DoExpandXcall;
  }

  /** Every step keeps the levels in step. */
  lemma LockstepStep(s: State, st: Step)
    requires Inv(s) && Lockstep(s) && Enabled(s, st)
    ensures Lockstep(Do(s, st))
  {
    hide PowerOfTwo, DoExpire, DoSoft, DoModify, InStep, SameFrame, LevelOk, SemOk, CycOk, OldOk, LedgerOk, SoftEnabled,
        ModEnabled;
    match st
    case Expire(k) =>
      ExpireFrame(s, k);
      FrameLockstep(s, DoExpire(s, k));
    case Soft(l) => SoftLockstep(s, l);
    case Modify =>
      if s.mod.EAlloc? || s.mod.EXcall? {
        ResizeLockstep(s);
      } else {
        ModifyLockstep(s);
      }
    case _ => OtherLockstep(s, st);
  }

  lemma OtherLockstep(s: State, st: Step)
    requires Lockstep(s) && Enabled(s, st) && (st.Begin? || st.Add? || st.ExpandBegin? || st.RemoveBegin?)
    ensures Lockstep(Do(s, st))
  {
    hide PowerOfTwo;
  }
}
