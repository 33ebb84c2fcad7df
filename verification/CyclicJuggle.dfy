/** Juggling a cyclic between the CPUs of the step system: it is never live on two of them. */
module CyclicJuggle {
  import opened CyclicSystem
  import opened CyclicInvariant
  import opened CyclicWrites
  import opened CyclicTheorems

  /** A step of one CPU. */
  datatype Move = Move(c: nat, st: Step)

  /** A run of any number of CPUs, each clean in every step it takes. */
  ghost predicate Joint(tr: seq<seq<State>>, ms: seq<Move>) {
    && |tr| == |ms| + 1 && (forall c :: 0 <= c < |tr[0]| ==> tr[0][c] == Init())
    && forall i :: 0 <= i < |ms| ==> Moves(tr[i], ms[i], tr[i + 1])
  }

  ghost predicate Moves(cpus: seq<State>, m: Move, cpus': seq<State>) {
    && m.c < |cpus| && Enabled(cpus[m.c], m.st) && Fits(cpus[m.c].cpu) && !Race(cpus[m.c], m.st)
    && cpus' == cpus[m.c := Do(cpus[m.c], m.st)]
  }

  lemma {:induction false} JointKeeps(tr: seq<seq<State>>, ms: seq<Move>, i: nat, c: nat)
    requires Joint(tr, ms) && i < |tr| && c < |tr[0]|
    ensures |tr[i]| == |tr[0]| && Inv(tr[i][c])
  {
    hide Inv, Do, Enabled, Fits, Race;
    if i == 0 {
      InitInv();
    } else {
      JointKeeps(tr, ms, i - 1, c);
      assert Moves(tr[i - 1], ms[i - 1], tr[i]);
      if ms[i - 1].c == c {
        StepKeeps(tr[i - 1][c], ms[i - 1].st);
      }
    }
  }

  // ---------------------------------------------------------------- registrations come and go

  lemma MoreRegistrations(s: State, st: Step)
    requires Inv(s) && Enabled(s, st)
    ensures |s.exp| <= |Do(s, st).exp|
  {
    hide Inv, Look, OnlyReads, Doubled, Zeroed, Grown, Freed;
  }

  lemma {:induction false} RegistrationsGrow(tr: seq<seq<State>>, ms: seq<Move>, i: nat, j: nat, c: nat)
    requires Joint(tr, ms) && i <= j < |tr| && c < |tr[0]|
    ensures |tr[i]| == |tr[j]| == |tr[0]| && |tr[i][c].exp| <= |tr[j][c].exp|
    decreases j
  {
    hide Inv, Do, Enabled, Fits, Race;
    JointKeeps(tr, ms, i, c);
    if i < j {
      RegistrationsGrow(tr, ms, i, j - 1, c);
      JointKeeps(tr, ms, j - 1, c);
      assert Moves(tr[j - 1], ms[j - 1], tr[j]);
      if ms[j - 1].c == c {
        MoreRegistrations(tr[j - 1][c], ms[j - 1].st);
      }
    }
  }

  lemma {:induction false} RetiredOn(tr: seq<seq<State>>, ms: seq<Move>, i: nat, j: nat, c: nat, r: nat)
    requires Joint(tr, ms) && i <= j < |tr| && c < |tr[0]| && |tr[i]| == |tr[0]|
    requires |tr[i][c].cpu.arrays| > 0 && Retired(tr[i][c], r)
    ensures |tr[j]| == |tr[0]| && Inv(tr[j][c]) && Untouched(tr[i][c], tr[j][c], r)
    decreases j
  {
    hide Inv, Do, Enabled, Fits, Race, Retired;
    JointKeeps(tr, ms, j, c);
    if i < j {
      RetiredOn(tr, ms, i, j - 1, c, r);
      assert Moves(tr[j - 1], ms[j - 1], tr[j]);
      if ms[j - 1].c == c {
        RetiredStep(tr[j - 1][c], ms[j - 1].st, r, tr[j][c]);
      }
    } else {
      RetiredSize(tr[i][c], r);
    }
  }

  lemma RetiredSize(s: State, r: nat)
    requires |s.cpu.arrays| > 0 && Retired(s, r)
    ensures r < |s.exp| && r < |s.calls|
  {
  }

  /** Registration r can be expired, has calls outstanding, or is being called. */
  predicate Live(s: State, r: nat)
    requires |s.cpu.arrays| > 0
  {
    || (exists k :: 0 <= k < |Cyc(s.cpu)| && Cyc(s.cpu)[k].reg == r && !Cyc(s.cpu)[k].free)
    || Running(s, r)
    || (r < |s.exp| && r < |s.calls| && s.exp[r] != s.calls[r])
  }

  lemma RetiredNotLive(s: State, r: nat)
    requires Inv(s) && Retired(s, r)
    ensures !Live(s, r)
  {
    hide LevelOk, SemOk, ModOk, CycOk, OldOk, LedgerOk;
    RetiredIdle(s, r);
  }

  lemma UnbornNotLive(s: State, r: nat)
    requires Inv(s) && |s.exp| <= r
    ensures !Live(s, r)
  {
    hide SemOk, ModOk, CycOk, OldOk, Debt, QueueOk, BufOk, WakeOk, LocalOk, HandOk;
    forall l | 0 <= l < 2 && HasHandler(s.lvl[l].th.pc)
      ensures s.lvl[l].th.reg != r
    {
      CasReg(s, l);
    }
  }

  // ---------------------------------------------------------------- a juggle

  /** At i the removal of slot k, which holds registration r, is about to return on src; at j, not before, dest adds the
      cyclic as registration r'. */
  ghost predicate Juggled(tr: seq<seq<State>>, ms: seq<Move>, i: nat, src: nat, r: nat, j: nat, dest: nat, r': nat) {
    && Joint(tr, ms) && i <= j < |ms| && src < |tr[0]| && dest < |tr[0]| && |tr[i]| == |tr[j]| == |tr[0]|
    && tr[i][src].mod.RDone? && |tr[i][src].cpu.arrays| > 0 && tr[i][src].mod.k < |Cyc(tr[i][src].cpu)|
    && Cyc(tr[i][src].cpu)[tr[i][src].mod.k].reg == r
    && ms[j].c == dest && ms[j].st.Add? && r' == |tr[j][dest].exp|
  }

  lemma JuggledFrom(tr: seq<seq<State>>, ms: seq<Move>, i: nat, src: nat, r: nat, j: nat, dest: nat, r': nat, t: nat)
    requires Juggled(tr, ms, i, src, r, j, dest, r') && i <= t < |tr|
    ensures |tr[t]| == |tr[0]| && Inv(tr[t][src]) && Untouched(tr[i][src], tr[t][src], r)
    ensures !Live(tr[t][src], r) && tr[i][src].exp[r] == tr[i][src].calls[r]
  {
    hide Inv, Do, Enabled, Fits, Race, Retired, Live;
    JointKeeps(tr, ms, i, src);
    RemoveDone(tr[i][src]);
    RetiredOn(tr, ms, i, t, src, r);
    RetiredOn(tr, ms, i, i, src, r);
    RetiredIdle(tr[i][src], r);
    RetiredNotLive(tr[t][src], r);
  }

  /** At no time of the run is the cyclic live on both CPUs. */
  lemma NeverLiveTwice(tr: seq<seq<State>>, ms: seq<Move>, i: nat, src: nat, r: nat, j: nat, dest: nat, r': nat, t: nat)
    requires Juggled(tr, ms, i, src, r, j, dest, r') && t < |tr|
    ensures |tr[t]| == |tr[0]| && |tr[t][src].cpu.arrays| > 0 && |tr[t][dest].cpu.arrays| > 0
    ensures !(Live(tr[t][src], r) && Live(tr[t][dest], r'))
  {
    hide LevelOk, SemOk, ModOk, CycOk, OldOk, LedgerOk, Do, Enabled, Fits, Race, Live;
    JointKeeps(tr, ms, t, src);
    JointKeeps(tr, ms, t, dest);
    if t >= i {
      JuggledFrom(tr, ms, i, src, r, j, dest, r', t);
    } else {
      RegistrationsGrow(tr, ms, t, j, dest);
      UnbornNotLive(tr[t][dest], r');
    }
  }

  /** Once it is added, the expiries on both CPUs together are the calls on both together and what the destination still
      owes: the move neither lost nor doubled one. */
  lemma NothingLostOnTheWay(tr: seq<seq<State>>, ms: seq<Move>, i: nat, src: nat, r: nat, j: nat, dest: nat, r': nat,
      t: nat)
    requires Juggled(tr, ms, i, src, r, j, dest, r') && j < t < |tr|
    ensures |tr[t]| == |tr[0]| && |tr[t][dest].cpu.arrays| > 0 && |tr[t][dest].lvl| == 2
    ensures var s, d := tr[t][src], tr[t][dest];
            && r < |s.exp| && r < |s.calls| && r' < |d.exp| && r' < |d.calls|
            && s.exp[r] + d.exp[r'] == s.calls[r] + d.calls[r'] + Owed(d, r') && 0 <= Owed(d, r')
            && r < |tr[i][src].exp| && s.exp[r] == tr[i][src].exp[r]
  {
    hide LevelOk, SemOk, ModOk, CycOk, OldOk, LedgerOk, Do, Enabled, Fits, Race, Live, Owed, Retired;
    JuggledFrom(tr, ms, i, src, r, j, dest, r', t);
    RetiredSize(tr[t][src], r);
    JointKeeps(tr, ms, j, dest);
    JointKeeps(tr, ms, t, dest);
    assert Moves(tr[j], ms[j], tr[j + 1]);
    AddRegisters(tr[j][dest], ms[j].st);
    RegistrationsGrow(tr, ms, j + 1, t, dest);
    OwedInv(tr[t][dest], r');
  }

  lemma AddRegisters(s: State, st: Step)
    requires Enabled(s, st) && st.Add?
    ensures |Do(s, st).exp| == |s.exp| + 1
  {
  }
}
