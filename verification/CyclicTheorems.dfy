/** What the cyclic subsystem promises, over every run of the step system. */
module CyclicTheorems {
  import opened CyclicSystem
  import opened Counting
  import opened CyclicInvariant
  import opened CyclicLockstep
  import opened CyclicWrites
  import opened CyclicHigh
  import opened CyclicModify
  import opened CyclicExpand

  // ---------------------------------------------------------------- runs

  /** tr is a run: it starts as configured and takes the steps ss. */
  ghost predicate Run(tr: seq<State>, ss: seq<Step>) {
    && |tr| == |ss| + 1 && tr[0] == Init()
    && forall i :: 0 <= i < |ss| ==> Enabled(tr[i], ss[i]) && tr[i + 1] == Do(tr[i], ss[i])
  }

  /** The resize cross call lands between an activation's last look at the producer index and its look at
      cys_hard, with an expiry queued in between. */
  predicate Race(s: State, st: Step) {
    st.Modify? && s.mod.EXcall? && |s.lvl| == 2 && (InWindow(s.lvl[0]) || InWindow(s.lvl[1]))
  }

  /** No pending count outgrows softint's signed local and no resize hits the window. */
  ghost predicate Clean(tr: seq<State>, ss: seq<Step>)
    requires Run(tr, ss)
  {
    forall i :: 0 <= i < |ss| ==> Fits(tr[i].cpu) && !Race(tr[i], ss[i])
  }

  lemma ModifyStep(s: State)
    requires Inv(s) && Enabled(s, Modify) && !Race(s, Modify)
    ensures Inv(DoModify(s))
  {
    hide Inv, InWindow, RemoveCpu, Grown, Freed, DoExpandXcall, Fits;
    match s.mod
    case EAlloc => AllocStep(s);
    case EXcall => XcallStep(s);
    case EWait => WaitStep(s);
    case EFree => FreeStep(s);
    case RXcall(k, wait) => RemoveXcallStep(s);
    case _ => QuietStep(s, Modify);
  }

  lemma RemoveXcallStep(s: State)
    requires Inv(s) && Enabled(s, Modify) && s.mod.RXcall?
    ensures Inv(DoModify(s))
  {
    hide LevelOk, CycOk, OldOk, LedgerOk;
    if Cyc(s.cpu)[s.mod.k].pend != 0 && !s.mod.wait {
      ViewStep(s, s.cpu, RFail(s.mod.wait));
    } else {
      RemoveStep(s, s.mod.k);
    }
  }

  /** Every step keeps the invariant. */
  lemma StepKeeps(s: State, st: Step)
    requires Inv(s) && Enabled(s, st) && Fits(s.cpu) && !Race(s, st)
    ensures Inv(Do(s, st))
  {
    hide Inv, DoExpire, DoSoft, DoModify, Race, SoftEnabled, ModEnabled;
    match st
    case Expire(k) => ExpireStep(s, k);
    case Begin(l) => BeginStep(s, l);
    case Soft(l) => SoftStep(s, l);
    case Add(k, level) => AddStep(s, k, level);
    case ExpandBegin => QuietStep(s, st);
    case RemoveBegin(_, _) => QuietStep(s, st);
    case Modify => ModifyStep(s);
  }

  /** Every state of a clean run satisfies the invariant. */
  lemma {:induction false} RunKeeps(tr: seq<State>, ss: seq<Step>, i: nat)
    requires Run(tr, ss) && Clean(tr, ss) && i < |tr|
    ensures Inv(tr[i])
  {
    hide Inv, Do, Enabled, Fits, Race;
    if i == 0 {
      InitInv();
    } else {
      RunKeeps(tr, ss, i - 1);
      StepKeeps(tr[i - 1], ss[i - 1]);
    }
  }

  /** In every state of a clean run both levels have switched buffers as often as there were resizes, and a second
      buffer exists only during one. */
  lemma {:induction false} RunLockstep(tr: seq<State>, ss: seq<Step>, i: nat)
    requires Run(tr, ss) && Clean(tr, ss) && i < |tr|
    ensures Lockstep(tr[i])
  {
    hide Inv, Do, Enabled, Fits, Race, Lockstep;
    if i == 0 {
      InitLockstep();
    } else {
      RunKeeps(tr, ss, i - 1);
      RunLockstep(tr, ss, i - 1);
      LockstepStep(tr[i - 1], ss[i - 1]);
    }
  }

  // ---------------------------------------------------------------- one call per expiry

  /** Expiries of registration r for which no handler call has completed: the debt of the slot that holds it. */
  ghost function Owed(s: State, r: nat): int
    requires |s.cpu.arrays| > 0 && |s.lvl| == 2
  {
    if k :| 0 <= k < |Cyc(s.cpu)| && Cyc(s.cpu)[k].reg == r then Debt(s.cpu, s.mod, s.lvl, k) else 0
  }

  lemma DebtNonneg(s: State, k: nat)
    requires Inv(s) && k < |Cyc(s.cpu)|
    ensures 0 <= Debt(s.cpu, s.mod, s.lvl, k)
  {
    hide LedgerOk, SemOk, ModOk, OldOk, WakeOk, Queue, HandOk, BufShape, Live;
    var l := Cyc(s.cpu)[k].level;
    if l < 2 && Proc(s.lvl[l].th.pc) {
      Current(s.lvl[l], l, s.cpu, s.mod);
    }
  }

  lemma OwedInv(s: State, r: nat)
    requires Inv(s) && r < |s.exp|
    ensures |s.exp| == |s.calls| && s.exp[r] == s.calls[r] + Owed(s, r) && 0 <= Owed(s, r)
  {
    hide LevelOk, SemOk, ModOk, CycOk, OldOk, Debt;
    if k :| 0 <= k < |Cyc(s.cpu)| && Cyc(s.cpu)[k].reg == r {
      forall j | 0 <= j < |Cyc(s.cpu)| && Cyc(s.cpu)[j].reg == r
        ensures 0 <= Debt(s.cpu, s.mod, s.lvl, j)
      {
        DebtNonneg(s, j);
      }
    }
  }

  /** In every state of a clean run the expiries of every registration are its completed handler calls plus what
      its slot still owes, so there is never a call without an expiry. */
  lemma CallsAnswerExpiries(tr: seq<State>, ss: seq<Step>, i: nat, r: nat)
    requires Run(tr, ss) && Clean(tr, ss) && i < |tr| && r < |tr[i].exp|
    ensures Inv(tr[i])
    ensures r < |tr[i].calls| && tr[i].exp[r] == tr[i].calls[r] + Owed(tr[i], r) && tr[i].calls[r] <= tr[i].exp[r]
  {
    hide Inv, Do, Enabled, Fits, Race, Owed;
    RunKeeps(tr, ss, i);
    OwedInv(tr[i], r);
  }

  /** Nothing is running, nothing is posted and nobody holds cpu_lock. */
  predicate Quiescent(s: State) {
    s.mod.MIdle? && forall l :: 0 <= l < |s.lvl| ==> s.lvl[l].th.pc.Idle? && !s.lvl[l].posted
  }

  lemma QuietQueues(s: State, k: nat)
    requires Inv(s) && Quiescent(s) && k < |Cyc(s.cpu)|
    ensures Debt(s.cpu, s.mod, s.lvl, k) == 0
  {
    hide LedgerOk, SemOk, ModOk, OldOk, BufShape, ActOk, Queue;
    var l := Cyc(s.cpu)[k].level;
    if l < 2 {
      assert Queue(s.lvl[l]) == [];
    }
  }

  /** At quiescence every expiry has had its handler call, and no pending count is left. */
  lemma QuiescentSettled(tr: seq<State>, ss: seq<Step>, i: nat)
    requires Run(tr, ss) && Clean(tr, ss) && i < |tr| && Quiescent(tr[i])
    ensures |tr[i].cpu.arrays| > 0 && tr[i].exp == tr[i].calls
    ensures forall k :: 0 <= k < |Cyc(tr[i].cpu)| ==> Cyc(tr[i].cpu)[k].pend == 0
  {
    hide LevelOk, Do, Enabled, Fits, Race, SemOk, ModOk, OldOk, Quiescent, Stashed;
    RunKeeps(tr, ss, i);
    var s := tr[i];
    forall k | 0 <= k < |Cyc(s.cpu)|
      ensures Debt(s.cpu, s.mod, s.lvl, k) == 0
    {
      QuietQueues(s, k);
    }
    QuietPend(s);
    assert forall r :: 0 <= r < |s.exp| ==> s.exp[r] == s.calls[r];
  }

  lemma QuietPend(s: State)
    requires Inv(s) && Quiescent(s)
    ensures forall k :: 0 <= k < |Cyc(s.cpu)| ==> Cyc(s.cpu)[k].pend == 0
  {
    hide LedgerOk, SemOk, ModOk, OldOk, BufShape, ActOk, Queue;
    forall k | 0 <= k < |Cyc(s.cpu)|
      ensures Cyc(s.cpu)[k].pend == 0
    {
      var l := Cyc(s.cpu)[k].level;
      if l < 2 {
        assert Queue(s.lvl[l]) == [];
        assert Pending(s.cpu, s.mod, k) == (Cyc(s.cpu)[k].pend > 0 || Stashed(s.cpu, s.mod, k));
      }
    }
  }

  // ---------------------------------------------------------------- the buffers

  /** How often x occurs in q. */
  function Occurs(q: seq<nat>, x: nat): nat {
    if q == [] then 0 else B(q[0] == x) + Occurs(q[1..], x)
  }

  lemma {:induction false} OccursOnce(q: seq<nat>, x: nat)
    requires NoDup(q)
    ensures Occurs(q, x) == B(x in q)
  {
    if q != [] {
      OccursOnce(q[1..], x);
      assert q == [q[0]] + q[1..];
    }
  }

  lemma BufferBound(lv: Level, l: nat, c: Cpu, m: Mod)
    requires |c.arrays| > 0 && BufOk(lv, |Cyc(c)|, Cur(c)) && QueueOk(lv, l, c, m)
    ensures |Queue(lv)| <= |Cyc(c)|
  {
    hide Queue, OlderOk, BufShape;
    var q := Queue(lv);
    SubsetSize(Members(q), Below(|Cyc(c)|));
  }

  /** What a resize has retired holds distinct slots of the old array. */
  lemma RetiredBound(lv: Level, l: nat, c: Cpu, m: Mod)
    requires |c.arrays| > 0 && BufOk(lv, |Cyc(c)|, Cur(c)) && QueueOk(lv, l, c, m) && lv.soft != lv.hard
    ensures |Live(lv.b[lv.soft], Front(lv))| <= |lv.b[lv.soft].buf|
  {
    hide Live;
    var q := Live(lv.b[lv.soft], Front(lv));
    assert Queue(lv)[..|q|] == q;
    assert NoDup(q) by {
      forall i, j | 0 <= i < j < |q|
        ensures q[i] != q[j]
      {
        assert Queue(lv)[i] == q[i] && Queue(lv)[j] == q[j];
      }
    }
    SubsetSize(Members(q), Below(|lv.b[lv.soft].buf|));
  }

  /** Buffer h of the level holds no more than its size, but for an entry finished with and not yet given up. */
  predicate Bounded(lv: Level, h: nat)
    requires h < |lv.b|
  {
    var p := lv.b[h];
    && p.prod - p.cons <= |p.buf| + 1
    && (p.prod - p.cons == |p.buf| + 1 ==> lv.th.pc.StoreCons? && lv.th.soft == h && lv.th.cons == p.cons)
  }

  /** In every state of a clean run, a slot of a soft level with a non-zero pending count is in exactly one live
      place of that level's buffers and in none of the other level's; a buffer, the active one or the one a resize has
      retired, holds at most one entry more than its size, and then only because the entry at the consumer index is
      finished with. */
  lemma BuffersExact(tr: seq<State>, ss: seq<Step>, i: nat, k: nat, l: nat)
    requires Run(tr, ss) && Clean(tr, ss) && i < |tr| && l < 2
    ensures |tr[i].lvl| == 2 && |tr[i].cpu.arrays| > 0 && BufShape(tr[i].lvl[l])
    ensures k < |Cyc(tr[i].cpu)| && Cyc(tr[i].cpu)[k].pend > 0 ==>
              Occurs(Queue(tr[i].lvl[l]), k) == B(Cyc(tr[i].cpu)[k].level == l)
    ensures Bounded(tr[i].lvl[l], tr[i].lvl[l].hard) && Bounded(tr[i].lvl[l], tr[i].lvl[l].soft)
  {
    hide Do, Enabled, Fits, Race, SemOk, ModOk, OldOk, CycOk, LedgerOk, WakeOk, ThreadOk, HandOk, Pending;
    RunKeeps(tr, ss, i);
    var s := tr[i];
    BufferFacts(s.lvl[l], l, s.cpu, s.mod, k);
  }

  lemma BufferFacts(lv: Level, l: nat, c: Cpu, m: Mod, k: nat)
    requires |c.arrays| > 0 && BufOk(lv, |Cyc(c)|, Cur(c)) && QueueOk(lv, l, c, m) && LocalOk(lv)
    ensures k < |Cyc(c)| && Cyc(c)[k].pend > 0 ==> Occurs(Queue(lv), k) == B(Cyc(c)[k].level == l)
    ensures Bounded(lv, lv.hard) && Bounded(lv, lv.soft)
  {
    hide Entry, OlderOk;
    OccursOnce(Queue(lv), k);
    BufferBound(lv, l, c, m);
    if lv.soft != lv.hard {
      RetiredBound(lv, l, c, m);
    }
  }

  // ---------------------------------------------------------------- memory safety and the source's assertions

  /** An active soft interrupt always has its next access defined: it never dereferences a freed array or buffer
      and never indexes outside one. */
  lemma AccessInv(s: State, l: nat)
    requires Inv(s) && l < 2 && !s.lvl[l].th.pc.Idle?
    ensures SoftEnabled(s.cpu, s.lvl[l], |s.calls|)
  {
    hide SemOk, WakeOk, HandOk, Queue, Live, Entry, Exact, Debt;
    var lv := s.lvl[l];
    if Proc(lv.th.pc) {
      Current(lv, l, s.cpu, s.mod);
      OldSlot(lv, l, s.cpu, s.mod);
    }
  }

  lemma OldSlot(lv: Level, l: nat, c: Cpu, m: Mod)
    requires |c.arrays| > 0 && BufOk(lv, |Cyc(c)|, Cur(c)) && QueueOk(lv, l, c, m) && LocalOk(lv) && Proc(lv.th.pc)
    ensures lv.soft != lv.hard ==> 2 * lv.th.ndx < |Cyc(c)|
  {
    hide Exact;
    if lv.soft != lv.hard {
      assert lv.th.ndx == Live(lv.b[lv.soft], Front(lv))[0];
      assert lv.th.ndx in Live(lv.b[lv.soft], Front(lv));
    }
  }

  /** The ASSERTs of cyclic_softint and cyclic_remove_pend at the activation's next access. */
  predicate SoftAsserts(c: Cpu, lv: Level)
    requires |c.arrays| > 0 && |lv.b| == 2 && lv.soft < 2 && lv.hard < 2
  {
    var t := lv.th;
    match t.pc
    case ReadHandler => t.ndx < |Cyc(c)|
    case ReadState => !c.state.Removing? ==> c.state.Expanding? && t.arr != Cur(c) && !t.resized && !t.intrResized
    case Recapture => t.ndx < |Cyc(c)| && Cyc(c)[t.ndx].reg == t.reg
    case Cas =>
      Points(c, t.arr, t.ndx) &&
      var now := c.arrays[t.arr][t.ndx];
      now.pend != t.pend ==>
        || now.pend > t.pend
        || (now.pend == 0 && ((t.arr != Cur(c) && c.state.Expanding?) || (c.state.Removing? && now.free)))
    case RemRead =>
      && Points(c, t.arr, t.ndx) && c.arrays[t.arr][t.ndx].free && c.arrays[t.arr][t.ndx].pend == 0
      && c.state.Removing? && c.rpend > 0
    case CheckHard => t.soft == lv.hard ==> !(t.intrResized && !t.resized) && (t.resized ==> c.state.Expanding?)
    case Grow => c.state.Expanding? && lv.hard == 1 - lv.soft && |lv.b[lv.hard].buf| == 2 * |lv.b[lv.soft].buf|
    case SetSoft => !t.resized
    case AckCas => t.lev == c.levels ==> t.lev + 1 <= 2
    case _ => true
  }

  /** The ASSERTs of cyclic_expand_xcall and cyclic_expand where the lock holder stands.  cys_hard is the number of
      resizes modulo two, so what cyclic_expand read from it before the cross call is (Cur - 1) % 2 after it. */
  predicate ExpandAsserts(s: State)
    requires |s.lvl| == 2 && |s.cpu.arrays| > 0
    requires forall l :: 0 <= l < 2 ==> |s.lvl[l].b| == 2 && s.lvl[l].hard < 2
  {
    var c, n := s.cpu, |Cyc(s.cpu)|;
    match s.mod
    case EAlloc =>
      c.state.Expanding? && PowerOfTwo(2 * n) && forall l :: 0 <= l < 2 ==>
        var lv := s.lvl[l];
        lv.hard == s.lvl[0].hard == Cur(c) % 2 && lv.hard == lv.soft && !lv.b[1 - lv.hard].live
    case EXcall =>
      c.state.Expanding? && PowerOfTwo(2 * n) && forall l :: 0 <= l < 2 ==>
        var lv := s.lvl[l];
        var other := lv.b[1 - lv.hard];
        && lv.hard == lv.soft && lv.b[lv.hard].live
        && other.live && |other.buf| == 2 * n && other.prod == other.cons == 0
    case EFree =>
      c.levels == 2 && |c.arrays| > 1 && 2 * |Prev(c)| == n && |Prev(c)| > 0 && forall l :: 0 <= l < 2 ==>
        var lv := s.lvl[l];
        lv.hard == 1 - (Cur(c) - 1) % 2 && lv.hard == lv.soft && 2 * |lv.b[1 - lv.hard].buf| == n
    case EDone => c.state.Expanding?
    case _ => true
  }

  /** The ASSERTs of cyclic_add_here, cyclic_remove_xcall and cyclic_remove_here where the lock holder stands. */
  predicate RemoveAsserts(s: State)
    requires |s.cpu.arrays| > 0
  {
    var c := s.cpu;
    match s.mod
    case MIdle => c.state.Online? && c.rpend == 0
    case RXcall(k, _) =>
      c.state.Removing? && k < |Cyc(c)| && !Cyc(c)[k].free && (Cyc(c)[k].pend != 0 ==> Cyc(c)[k].level != HIGH)
    case RFail(wait) => c.state.Removing? && !wait && c.rpend == 0
    case RCheck(k, wait) => k < |Cyc(c)| && (c.rpend != 0 ==> Cyc(c)[k].level != HIGH && wait)
    case RClear(_) => c.state.Removing?
    case _ => true
  }

  lemma SoftAssertsInv(s: State, l: nat)
    requires Inv(s) && l < 2
    ensures SoftAsserts(s.cpu, s.lvl[l])
  {
    hide WakeOk, Queue, Live, Entry, Exact, LedgerOk;
    var lv := s.lvl[l];
    if Proc(lv.th.pc) {
      Current(lv, l, s.cpu, s.mod);
      OldSlot(lv, l, s.cpu, s.mod);
    }
  }

  lemma ExpandAssertsInv(s: State)
    requires Inv(s) && Lockstep(s)
    ensures ExpandAsserts(s)
  {
    hide WakeOk, Queue, Live, Entry, QueueOk, ThreadOk, LocalOk, LedgerOk, CycOk, PowerOfTwo;
    Doubles(|Cyc(s.cpu)|);
    PowerPositive(|Cyc(s.cpu)|);
  }

  lemma PowerPositive(n: nat)
    requires PowerOfTwo(n)
    ensures n > 0
  {
  }

  lemma RemoveAssertsInv(s: State)
    requires Inv(s) && Lockstep(s)
    ensures RemoveAsserts(s)
  {
    hide LevelOk, SemOk, OldOk, LedgerOk, PowerOfTwo, InStep;
  }

  /** In every state of a clean run: an active soft interrupt never dereferences freed memory nor indexes outside
      an array, and every ASSERT of the protocol holds. */
  lemma AssertsHold(tr: seq<State>, ss: seq<Step>, i: nat, l: nat)
    requires Run(tr, ss) && Clean(tr, ss) && i < |tr| && l < 2
    ensures var s := tr[i];
            && |s.lvl| == 2 && |s.cpu.arrays| > 0
            && (forall j :: 0 <= j < 2 ==> |s.lvl[j].b| == 2 && s.lvl[j].hard < 2 && s.lvl[j].soft < 2)
            && (!s.lvl[l].th.pc.Idle? ==> SoftEnabled(s.cpu, s.lvl[l], |s.calls|))
            && SoftAsserts(s.cpu, s.lvl[l]) && ExpandAsserts(s) && RemoveAsserts(s)
  {
    hide Do, Enabled, Fits, Race, SemOk, ModOk, OldOk, CycOk, LedgerOk, QueueOk, ActOk, WakeOk,
      SoftAsserts, ExpandAsserts, RemoveAsserts, SoftEnabled, Lockstep;
    RunKeeps(tr, ss, i);
    RunLockstep(tr, ss, i);
    if !tr[i].lvl[l].th.pc.Idle? {
      AccessInv(tr[i], l);
    }
    SoftAssertsInv(tr[i], l);
    ExpandAssertsInv(tr[i]);
    RemoveAssertsInv(tr[i]);
  }

  // ---------------------------------------------------------------- the resize handshake

  /** Every resize is acknowledged exactly once by each level and posts the semaphore exactly once; while one is
      being waited for, a count of acknowledgements or posts lags by at most the one outstanding; and when the old
      arrays and buffers are freed, no activation holds a pointer to them. */
  lemma ResizeHandshake(tr: seq<State>, ss: seq<Step>, i: nat)
    requires Run(tr, ss) && Clean(tr, ss) && i < |tr|
    ensures var s := tr[i];
            && |s.lvl| == 2 && |s.cpu.arrays| > 0
            && (!s.mod.EWait? ==> s.lvl[0].acks == s.lvl[1].acks == s.cpu.posts == |s.cpu.arrays| - 1)
            && (s.mod.EWait? ==>
                  && |s.cpu.arrays| - 2 <= s.lvl[0].acks <= |s.cpu.arrays| - 1
                  && |s.cpu.arrays| - 2 <= s.lvl[1].acks <= |s.cpu.arrays| - 1
                  && s.cpu.posts == |s.cpu.arrays| - 2 + s.cpu.sem && s.cpu.sem <= 1
                  && (s.cpu.sem == 1 ==> s.lvl[0].acks == s.lvl[1].acks == |s.cpu.arrays| - 1))
            && (s.mod.EFree? ==> forall l :: 0 <= l < 2 && Busy(s.lvl[l].th) ==>
                  s.lvl[l].th.arr == Cur(s.cpu) && (InBuf(s.lvl[l].th.pc) ==> s.lvl[l].th.soft == s.lvl[l].hard))
  {
    hide Do, Enabled, Fits, Race, OldOk, CycOk, LedgerOk, QueueOk, WakeOk, BufOk;
    RunKeeps(tr, ss, i);
  }

  /** A thread blocked in cyclic_expand or cyclic_remove_here is never stranded: its semaphore has been posted, or
      a soft interrupt that will see to it is running or posted. */
  lemma WaiterNotStranded(tr: seq<State>, ss: seq<Step>, i: nat)
    requires Run(tr, ss) && Clean(tr, ss) && i < |tr| && (tr[i].mod.EWait? || tr[i].mod.RWait?)
    ensures tr[i].cpu.sem > 0 || exists l :: 0 <= l < |tr[i].lvl| && (tr[i].lvl[l].posted || !tr[i].lvl[l].th.pc.Idle?)
  {
    hide Inv, Do, Enabled, Fits, Race;
    RunKeeps(tr, ss, i);
    WaiterInv(tr[i]);
  }

  lemma WaiterInv(s: State)
    requires Inv(s) && (s.mod.EWait? || s.mod.RWait?)
    ensures |s.lvl| == 2
    ensures s.cpu.sem > 0 || s.lvl[0].posted || !s.lvl[0].th.pc.Idle? || s.lvl[1].posted || !s.lvl[1].th.pc.Idle?
  {
    hide CycOk, OldOk, LedgerOk, Queue, ThreadOk, LocalOk, BufShape;
    if s.mod.RWait? && s.cpu.sem == 0 {
      var l := Cyc(s.cpu)[s.mod.k].level;
      assert Stashed(s.cpu, s.mod, s.mod.k) && Pending(s.cpu, s.mod, s.mod.k);
      assert s.mod.k in Queue(s.lvl[l]);
    }
  }

  // ---------------------------------------------------------------- removal

  /** Registration r is over: no slot that holds it is in use or has undelivered expiries. */
  predicate Retired(s: State, r: nat)
    requires |s.cpu.arrays| > 0
  {
    && r < |s.exp| && r < |s.calls|
    && forall k :: 0 <= k < |Cyc(s.cpu)| && Cyc(s.cpu)[k].reg == r ==>
         Cyc(s.cpu)[k].free && Cyc(s.cpu)[k].pend == 0 && !Stashed(s.cpu, s.mod, k)
  }

  /** Some soft interrupt is calling, or between calls of, r's handler. */
  predicate Running(s: State, r: nat) {
    exists l :: 0 <= l < |s.lvl| && HasHandler(s.lvl[l].th.pc) && s.lvl[l].th.reg == r
  }

  lemma RetiredIdle(s: State, r: nat)
    requires Inv(s) && Retired(s, r)
    ensures !Running(s, r) && s.exp[r] == s.calls[r]
  {
    hide CycOk, OldOk, Queue, BufShape, SemOk, WakeOk, HandOk, ModOk;
    forall l | 0 <= l < 2 && HasHandler(s.lvl[l].th.pc)
      ensures s.lvl[l].th.reg != r
    {
      Current(s.lvl[l], l, s.cpu, s.mod);
    }
    RetiredLedger(s, r);
  }

  lemma RetiredLedger(s: State, r: nat)
    requires Inv(s) && Retired(s, r)
    requires forall l :: 0 <= l < 2 && HasHandler(s.lvl[l].th.pc) ==> s.lvl[l].th.reg != r
    ensures s.exp[r] == s.calls[r]
  {
    hide CycOk, OldOk, Queue, BufShape, SemOk, WakeOk, HandOk, ModOk, QueueOk, LocalOk;
    forall k | 0 <= k < |Cyc(s.cpu)| && Cyc(s.cpu)[k].reg == r
      ensures Debt(s.cpu, s.mod, s.lvl, k) == 0
    {
    }
  }

  /** r is retired in s', and no expiry or call of it happened on the way from s. */
  ghost predicate Untouched(s: State, s': State, r: nat) {
    |s'.cpu.arrays| > 0 && Retired(s', r) && r < |s.exp| && r < |s.calls| && s'.exp[r] == s.exp[r] &&
        s'.calls[r] == s.calls[r]
  }

  /** All that one access of a soft interrupt can do to the shared cyclics and counts. */
  lemma SoftEffect(s: State, l: nat, s': State)
    requires Inv(s) && Enabled(s, Soft(l)) && s' == DoSoft(s, l)
    ensures var t := s.lvl[l].th;
            && s'.mod == s.mod && s'.exp == s.exp && s'.cpu.rpend == s.cpu.rpend && s'.cpu.sem >= s.cpu.sem
            && |s'.cpu.arrays| == |s.cpu.arrays| && |Cyc(s'.cpu)| == |Cyc(s.cpu)|
            && (s'.calls == s.calls || (HasHandler(t.pc) && 0 <= t.reg < |s.calls| &&
                s'.calls == s.calls[t.reg := s.calls[t.reg] + 1]))
            && (Cyc(s'.cpu) == Cyc(s.cpu)
                || (t.pc.Cas? && t.ndx < |Cyc(s.cpu)| && exists p: nat ::
                    Cyc(s'.cpu) == Cyc(s.cpu)[t.ndx := Cyc(s.cpu)[t.ndx].(pend := p)]))
  {
    hide CycOk, OldOk, BufOk, QueueOk, WakeOk, SemOk, LedgerOk, LocalOk, HandOk, ModOk, Look;
    var t := s.lvl[l].th;
    if t.pc.Cas? && !OnlyReads(s.cpu, s.lvl[l]) {
      if t.arr == Cur(s.cpu) {
        var p := if t.pend == 0 then UINT32_MAX else t.pend - 1;
        assert Cyc(s'.cpu) == Cyc(s.cpu)[t.ndx := Cyc(s.cpu)[t.ndx].(pend := p)];
      }
    }
  }

  lemma RetiredSoft(s: State, l: nat, r: nat, s': State)
    requires |s.cpu.arrays| > 0 && |s.lvl| == 2 && l < 2 && Inv(s)
    requires Enabled(s, Soft(l)) && Retired(s, r) && s' == DoSoft(s, l)
    ensures Untouched(s, s', r)
  {
    hide Inv, Enabled, DoSoft;
    SoftEffect(s, l, s');
    RetiredIdle(s, r);
    var t := s.lvl[l].th;
    assert HasHandler(t.pc) ==> t.reg != r;
    if t.pc.Cas? {
      CasReg(s, l);
    }
  }

  lemma CasReg(s: State, l: nat)
    requires Inv(s) && l < 2 && HasHandler(s.lvl[l].th.pc)
    ensures var t := s.lvl[l].th; t.ndx < |Cyc(s.cpu)| && Cyc(s.cpu)[t.ndx].reg == t.reg
  {
    hide CycOk, OldOk, BufOk, QueueOk, WakeOk, SemOk, LedgerOk, LocalOk, HandOk, ModOk;
  }

  lemma RetiredModify(s: State, r: nat, s': State)
    requires Inv(s) && Enabled(s, Modify) && Retired(s, r) && s' == DoModify(s)
    ensures Untouched(s, s', r)
  {
    hide LevelOk, CycOk, OldOk, LedgerOk, Grown, Freed;
    if s.mod.EXcall? {
      ExpandView(s.cpu, s.mod);
    }
  }

  /** No step touches a retired registration. */
  lemma RetiredStep(s: State, st: Step, r: nat, s': State)
    requires Inv(s) && Enabled(s, st) && Retired(s, r) && s' == Do(s, st)
    ensures Untouched(s, s', r)
  {
    hide LevelOk, CycOk, OldOk, LedgerOk, SemOk, ModOk, DoSoft, DoModify, ModEnabled, SoftEnabled;
    match st
    case Expire(k) =>
    case Begin(l) =>
    case Soft(l) => RetiredSoft(s, l, r, s');
    case Add(k, level) =>
    case ExpandBegin =>
    case RemoveBegin(_, _) =>
    case Modify => RetiredModify(s, r, s');
  }

  lemma RemoveDone(s: State)
    requires Inv(s) && s.mod.RDone?
    ensures s.mod.k < |Cyc(s.cpu)| && 0 <= Cyc(s.cpu)[s.mod.k].reg < |s.exp| && Retired(s, Cyc(s.cpu)[s.mod.k].reg)
  {
    hide LevelOk, SemOk, OldOk, Debt;
  }

  lemma {:induction false} StaysRetired(tr: seq<State>, ss: seq<Step>, i: nat, j: nat, r: nat)
    requires Run(tr, ss) && Clean(tr, ss) && i <= j < |tr| && |tr[i].cpu.arrays| > 0 && Retired(tr[i], r)
    ensures Inv(tr[j]) && Untouched(tr[i], tr[j], r)
    decreases j
  {
    hide Inv, Do, Enabled, Fits, Race;
    RunKeeps(tr, ss, j);
    if i < j {
      StaysRetired(tr, ss, i, j - 1, r);
      RetiredStep(tr[j - 1], ss[j - 1], r, tr[j]);
    }
  }

  /** When a removal is about to return, the removed registration's handler is not running, all its expiries have
      had their calls, and in every later state it has been neither expired nor called again, even though its slot
      may have been given to another registration. */
  lemma RemovalGuarantee(tr: seq<State>, ss: seq<Step>, i: nat, j: nat)
    requires Run(tr, ss) && Clean(tr, ss) && i <= j < |tr| && tr[i].mod.RDone?
    ensures var s, s' := tr[i], tr[j];
            && |s.cpu.arrays| > 0 && s.mod.k < |Cyc(s.cpu)|
            && var r := Cyc(s.cpu)[s.mod.k].reg;
               && 0 <= r < |s.exp| && r < |s.calls| && s.exp[r] == s.calls[r]
               && r < |s'.exp| && r < |s'.calls| && s'.exp[r] == s.exp[r] && s'.calls[r] == s.calls[r]
               && !Running(s', r)
  {
    hide Do, Enabled, Fits, Race, LevelOk, SemOk, ModOk, CycOk, OldOk, LedgerOk, Running;
    RunKeeps(tr, ss, i);
    RemoveDone(tr[i]);
    var r := Cyc(tr[i].cpu)[tr[i].mod.k].reg;
    RetiredIdle(tr[i], r);
    StaysRetired(tr, ss, i, j, r);
    RetiredIdle(tr[j], r);
  }
}
