/** What speculative tracing promises, over every run and any number of CPUs. */
module SpecTheorems {
  import opened Counting
  import opened SpecSystem
  import opened SpecInvariant

  ghost predicate Run(n: nat, tr: seq<State>, ss: seq<Step>) {
    && n > 0 && |tr| == |ss| + 1 && tr[0] == Init(n)
    && forall i :: 0 <= i < |ss| ==> Enabled(tr[i], ss[i]) && tr[i + 1] == Do(tr[i], ss[i])
  }

  /** No discard frees the speculation in the middle of the same CPU's fill. */
  ghost predicate Tidy(tr: seq<State>, ss: seq<Step>)
    requires |tr| == |ss| + 1
  {
    forall i :: 0 <= i < |ss| ==> Separate(tr[i], ss[i])
  }

  lemma {:induction false} RunKeeps(n: nat, tr: seq<State>, ss: seq<Step>, i: nat)
    requires Run(n, tr, ss) && Tidy(tr, ss) && i < |tr|
    ensures Inv(tr[i]) && |tr[i].cpus| == n
  {
    hide Inv, Do, Enabled, Separate;
    if i == 0 {
      InitInv(n);
      InitSize(n);
    } else {
      RunKeeps(n, tr, ss, i - 1);
      StepKeeps(tr[i - 1], ss[i - 1]);
    }
  }

  lemma InitSize(n: nat)
    ensures |Init(n).cpus| == n
  {
  }

  /** A CPU traces into, or has traced into, the current activation. */
  predicate Involved(k: Cpu) {
    Holds(k) || (k.buf != [] && !Resetting(k))
  }

  predicate CommitsAlone(s: State, o: nat) {
    && o < |s.cpus|
    && forall c :: 0 <= c < |s.cpus| ==>
         && (s.cpus[c].pc == ComCopy(true) || s.cpus[c].pc.ComRelease? <==> c == o)
         && (c != o ==> !Involved(s.cpus[c]))
  }

  /** In ActiveOne at most one CPU is involved; in Committing there is exactly one committer and no other CPU is
      involved; in Inactive and Active none is.  (A CPU between the store that ends an activation and the reset of
      its own offset is not involved.) */
  lemma WhoIsInvolved(n: nat, tr: seq<State>, ss: seq<Step>, i: nat)
    requires Run(n, tr, ss) && Tidy(tr, ss) && i < |tr|
    ensures var s := tr[i];
            && (s.sh.spec.Inactive? || s.sh.spec.Active? ==> forall c :: 0 <= c < |s.cpus| ==> !Involved(s.cpus[c]))
            && (s.sh.spec.ActiveOne? ==>
                  forall c, d :: 0 <= c < |s.cpus| && 0 <= d < |s.cpus| && Involved(s.cpus[c]) &&
                                 Involved(s.cpus[d]) ==>
                                   c == d)
            && (s.sh.spec.Committing? ==>
                  exists o :: CommitsAlone(s, o))
  {
    hide RecsOk, PlaceOk, Do, Enabled, Separate, Recorded;
    RunKeeps(n, tr, ss, i);
    var s := tr[i];
    forall c | 0 <= c < |s.cpus|
      ensures Clear(s.cpus[c]) ==> !Involved(s.cpus[c])
    {
    }
    if s.sh.spec.Committing? {
      var o := s.sh.owner;
      assert CommitsAlone(s, o);
    }
  }

  /** The ASSERTs of the speculation routines. */
  predicate SpecAsserts(s: State) {
    && (forall c :: 0 <= c < |s.cpus| && s.sh.spec.Committing? && (s.cpus[c].pc.ComRead? || s.cpus[c].pc.BufRead?) ==>
        s.cpus[c].buf == [])
    && (forall c :: 0 <= c < |s.cpus| && s.cpus[c].pc.ComRelease? ==> s.sh.spec.Committing?)
    && (s.sh.cl.CIdle? ==> !s.sh.cleaning)
    && (s.sh.cl.CCas? ==> s.sh.spec == s.sh.cl.cur && (s.sh.spec.Discarding? || s.sh.spec.CommittingMany?))
  }

  lemma AssertsHold(n: nat, tr: seq<State>, ss: seq<Step>, i: nat)
    requires Run(n, tr, ss) && Tidy(tr, ss) && i < |tr|
    ensures SpecAsserts(tr[i])
  {
    hide RecsOk, PlaceOk, Do, Enabled, Separate, Recorded;
    RunKeeps(n, tr, ss, i);
  }

  /** Every record is in at most one principal buffer, at most once, and never in one after a discard of its
      activation has won. */
  lemma DeliveredOnce(n: nat, tr: seq<State>, ss: seq<Step>, t: nat, c: nat, i: nat, d: nat, j: nat)
    requires Run(n, tr, ss) && Tidy(tr, ss) && t < |tr| && c < n && d < n
    requires |tr[t].cpus| == n && i < |tr[t].cpus[c].out| && j < |tr[t].cpus[d].out|
    ensures tr[t].cpus[c].out[i].id == tr[t].cpus[d].out[j].id ==> c == d && i == j
    ensures tr[t].cpus[c].out[i].inc !in tr[t].sh.discarded
  {
    hide CpuOk, Do, Enabled, Separate, Recorded, SharedOk, HasId;
    RunKeeps(n, tr, ss, t);
    var a, b := tr[t].cpus[c].out[i], tr[t].cpus[d].out[j];
    assert RecsOk(tr[t].sh, c, tr[t].cpus[c]) && PlaceOk(tr[t].sh.place, c, tr[t].cpus[c]) &&
        PlaceOk(tr[t].sh.place, d, tr[t].cpus[d]);
    assert a in tr[t].cpus[c].out && b in tr[t].cpus[d].out;
  }

  /** Discards are never forgotten. */
  lemma {:induction false} DiscardStays(n: nat, tr: seq<State>, ss: seq<Step>, t: nat, u: nat)
    requires Run(n, tr, ss) && t <= u < |tr|
    ensures tr[t].sh.discarded <= tr[u].sh.discarded
    decreases u
  {
    hide Init;
    if t < u {
      DiscardStays(n, tr, ss, t, u - 1);
    }
  }

  /** Once a discard of an activation has won, no record of it is in any principal buffer, then or ever after. */
  lemma NeverAfterDiscard(n: nat, tr: seq<State>, ss: seq<Step>, t: nat, u: nat, inc: nat, c: nat, i: nat)
    requires Run(n, tr, ss) && Tidy(tr, ss) && t <= u < |tr| && inc in tr[t].sh.discarded
    requires c < n && |tr[u].cpus| == n && i < |tr[u].cpus[c].out|
    ensures tr[u].cpus[c].out[i].inc != inc
  {
    hide Do, Enabled, Separate, Init;
    DiscardStays(n, tr, ss, t, u);
    DeliveredOnce(n, tr, ss, u, c, i, c, i);
  }

  /** Every record traced so far is still in the buffer of some CPU that has yet to copy it, or in a principal
      buffer, or was dropped at a commit for lack of room, or was thrown away. */
  lemma NothingLost(n: nat, tr: seq<State>, ss: seq<Step>, t: nat, id: nat)
    requires Run(n, tr, ss) && Tidy(tr, ss) && t < |tr| && id < tr[t].sh.next
    ensures var s := tr[t];
            && id in s.sh.place
            && (|| (exists c :: 0 <= c < |s.cpus| && HasId(s.cpus[c].buf, id) && !Copied(s.cpus[c]))
                || (exists c :: 0 <= c < |s.cpus| && HasId(s.cpus[c].out, id))
                || s.sh.place[id] == Dropped || s.sh.place[id].Thrown?)
  {
    hide CpuOk, RecsOk, Do, Enabled, Separate, SharedOk, HasId;
    RunKeeps(n, tr, ss, t);
    var s := tr[t];
    match s.sh.place[id]
    case InBuf(c) => assert PlaceOk(s.sh.place, c, s.cpus[c]);
    case Out(c) => assert PlaceOk(s.sh.place, c, s.cpus[c]);
    case Dropped =>
    case Thrown(_) =>
  }

  /** A record is thrown away only when its activation has been discarded. */
  lemma ThrownOnlyDiscarded(n: nat, tr: seq<State>, ss: seq<Step>, t: nat, id: nat)
    requires Run(n, tr, ss) && Tidy(tr, ss) && t < |ss| && id in tr[t].sh.place && id in tr[t + 1].sh.place
    requires !tr[t].sh.place[id].Thrown? && tr[t + 1].sh.place[id].Thrown?
    ensures ss[t].Go? && ss[t].c < |tr[t].cpus|
    ensures exists r :: r in tr[t].cpus[ss[t].c].buf && r.id == id && r.inc in tr[t].sh.discarded
  {
    hide CpuOk, SharedOk, Separate, Recorded, GoCpu, GoShared, Begin, Base, HasId;
    RunKeeps(n, tr, ss, t);
    var s, st := tr[t], ss[t];
    if st.Go? {
      assert RecsOk(s.sh, st.c, s.cpus[st.c]) && PlaceOk(s.sh.place, st.c, s.cpus[st.c]);
      ThrownBy(s.sh, st.c, s.cpus[st.c], st.yes, id);
    }
  }

  lemma ThrownBy(sh: Shared, c: nat, k: Cpu, yes: bool, id: nat)
    requires id in sh.place && !sh.place[id].Thrown? && id in GoShared(sh, c, k, yes).place &&
        GoShared(sh, c, k, yes).place[id].Thrown?
    ensures k.pc.DisReset? || k.pc.ClnReset?
    ensures exists r :: r in k.buf && r.id == id
  {
  }

  lemma GoKeepsMany(sh: Shared, c: nat, k: Cpu, yes: bool)
    requires CpuOk(sh, c, k) && (sh.spec.CommittingMany? || sh.spec.Discarding?)
    ensures GoShared(sh, c, k, yes).spec == sh.spec
  {
    hide Sent;
  }

  /** CommittingMany and Discarding are left only by the cleaner, and only when every CPU has been through its
      cross call since: none is involved any more. */
  lemma LeftOnlyByCleaner(n: nat, tr: seq<State>, ss: seq<Step>, t: nat)
    requires Run(n, tr, ss) && Tidy(tr, ss) && t < |ss|
    requires (tr[t].sh.spec.CommittingMany? || tr[t].sh.spec.Discarding?) && tr[t + 1].sh.spec != tr[t].sh.spec
    ensures ss[t].CleanGo? && tr[t].sh.cleaning && tr[t].sh.todo == {} && tr[t + 1].sh.spec == Inactive
    ensures forall c :: 0 <= c < |tr[t].cpus| ==> !Involved(tr[t].cpus[c])
  {
    hide RecsOk, PlaceOk, Separate, Recorded, GoCpu, GoShared, Begin, Below;
    RunKeeps(n, tr, ss, t);
    var s, st := tr[t], ss[t];
    if st.Go? {
      GoKeepsMany(s.sh, st.c, s.cpus[st.c], st.yes);
    }
    forall c | 0 <= c < |s.cpus| && Clear(s.cpus[c])
      ensures !Involved(s.cpus[c])
    {
    }
  }

  // ---------------------------------------------------------------- a discard inside a fill

  function Then(s: State, c: nat, yes: bool): State
    requires c < |s.cpus| && !s.cpus[c].pc.Idle?
  {
    Do(s, Go(c, yes))
  }

  /** CPU c, in the middle of a fill, discards the speculation undisturbed and then stores its record. */
  function DiscardThenStore(s: State, c: nat): State
    requires c < |s.cpus| && s.cpus[c].pc.Filling?
  {
    var s2 := Then(Do(s, Start(c, Discard)), c, true);
    Then(if s.sh.spec.Active? || s.sh.spec.ActiveOne? || s.sh.spec.ActiveMany?
        then Then(Then(s2, c, true), c, true) else s2, c, true)
  }

  /** The speculation is free for reuse while CPU c still holds records of a discarded activation. */
  predicate Revived(s: State, c: nat) {
    && c < |s.cpus| && s.sh.spec.Inactive? && s.cpus[c].pc.Idle?
    && exists r :: r in s.cpus[c].buf && r.inc in s.sh.discarded
  }

  /** A discard inside the same CPU's fill revives what it discarded exactly when the CPU is the only one to have
      traced into the speculation and has done so before. */
  lemma RevivedExact(s: State, c: nat)
    requires Inv(s) && c < |s.cpus| && s.cpus[c].pc.Filling?
    ensures Revived(DiscardThenStore(s, c), c) <==> s.sh.spec.ActiveOne? && s.cpus[c].buf != []
  {
    hide PlaceOk, Recorded, Sent;
    var s', k := DiscardThenStore(s, c), s.cpus[c];
    assert CpuOk(s.sh, c, k) && RecsOk(s.sh, c, k);
    if s.sh.spec.ActiveOne? && k.buf != [] {
      assert s'.cpus[c].buf == k.buf + [Rec(s.sh.next, k.pc.tag)];
      assert Rec(s.sh.next, k.pc.tag) in s'.cpus[c].buf;
    }
  }

  /** In a tidy run nothing discarded is ever revived. */
  lemma TidyNeverRevives(n: nat, tr: seq<State>, ss: seq<Step>, i: nat, c: nat)
    requires Run(n, tr, ss) && Tidy(tr, ss) && i < |tr|
    ensures !Revived(tr[i], c)
  {
    hide RecsOk, PlaceOk, Do, Enabled, Separate, Recorded;
    RunKeeps(n, tr, ss, i);
    if c < |tr[i].cpus| {
      assert CpuOk(tr[i].sh, c, tr[i].cpus[c]);
    }
  }

  /** The first step that is not tidy does revive: when the fill goes on, the CPU holds what it discarded. */
  lemma UntidyRevives(s: State, c: nat, yes: bool)
    requires Inv(s) && Enabled(s, Go(c, yes)) && !Separate(s, Go(c, yes))
    ensures var s1 := Do(s, Go(c, yes)); c < |s1.cpus| && !s1.cpus[c].pc.Idle?
    ensures var s2 := Then(Do(s, Go(c, yes)), c, true);
        c < |s2.cpus| && !s2.cpus[c].pc.Idle? && Revived(Then(s2, c, true), c)
  {
    hide PlaceOk, Recorded, Sent;
    var k := s.cpus[c];
    assert CpuOk(s.sh, c, k) && RecsOk(s.sh, c, k);
    var s3 := Then(Then(Do(s, Go(c, yes)), c, true), c, true);
    assert s3.cpus[c].buf == k.held.base + [Rec(s.sh.next, k.held.tag)];
    assert Rec(s.sh.next, k.held.tag) in s3.cpus[c].buf;
  }

  /** From there the next activation delivers them: it activates the speculation, commits it, and finds room. */
  lemma RevivedDelivers(s: State, c: nat)
    requires Revived(s, c)
    ensures var a := Then(Then(Do(s, Start(c, Activate)), c, true), c, true);
            var m := Then(Then(Then(Do(a, Start(c, Commit)), c, true), c, true), c, true);
            && a.sh.spec.Active? && c < |m.cpus|
            && exists r :: r in m.cpus[c].out && r.inc in m.sh.discarded
  {
    hide Sent;
    var r :| r in s.cpus[c].buf && r.inc in s.sh.discarded;
    var a := Then(Then(Do(s, Start(c, Activate)), c, true), c, true);
    var m := Then(Then(Then(Do(a, Start(c, Commit)), c, true), c, true), c, true);
    assert m.cpus[c].out == s.cpus[c].out + s.cpus[c].buf;
    assert r in m.cpus[c].out;
  }

  lemma Extend(n: nat, tr: seq<State>, ss: seq<Step>, st: Step)
    requires Run(n, tr, ss) && Tidy(tr, ss) && Enabled(tr[|ss|], st) && Separate(tr[|ss|], st)
    ensures Run(n, tr + [Do(tr[|ss|], st)], ss + [st]) && Tidy(tr + [Do(tr[|ss|], st)], ss + [st])
  {
    hide Do, Separate, Init;
  }

  /** A run on one CPU that reaches the failing case: two records traced into a fresh speculation. */
  lemma SecondFillReachable() returns (tr: seq<State>, ss: seq<Step>)
    ensures Run(1, tr, ss) && Tidy(tr, ss)
    ensures var s := tr[|ss|]; |s.cpus| == 1 && s.cpus[0].pc.Filling? && s.cpus[0].buf != [] && s.sh.spec.ActiveOne?
  {
    hide Run, Tidy;
    tr, ss := FirstFillReachable();
    tr, ss := More(tr, ss, Go(0, true));
    tr, ss := More(tr, ss, Start(0, Speculate));
    tr, ss := More(tr, ss, Go(0, true));
  }

  lemma FirstFillReachable() returns (tr: seq<State>, ss: seq<Step>)
    ensures Run(1, tr, ss) && Tidy(tr, ss)
    ensures var s := tr[|ss|]; |s.cpus| == 1 && s.cpus[0].pc.Filling? && s.sh.spec.ActiveOne?
  {
    tr, ss := [Init(1)], [];
    tr, ss := More(tr, ss, Start(0, Activate));
    tr, ss := More(tr, ss, Go(0, true));
    tr, ss := More(tr, ss, Go(0, true));
    tr, ss := More(tr, ss, Start(0, Speculate));
    tr, ss := More(tr, ss, Go(0, true));
    tr, ss := More(tr, ss, Go(0, true));
  }

  lemma More(tr: seq<State>, ss: seq<Step>, st: Step) returns (tr': seq<State>, ss': seq<Step>)
    requires Run(1, tr, ss) && Tidy(tr, ss) && Enabled(tr[|ss|], st) && Separate(tr[|ss|], st)
    ensures Run(1, tr', ss') && Tidy(tr', ss') && tr'[|ss'|] == Do(tr[|ss|], st)
  {
    hide Do, Separate, Init;
    Extend(1, tr, ss, st);
    tr', ss' := tr + [Do(tr[|ss|], st)], ss + [st];
  }
}
