/** A run of two CPUs that loses a clean list. */
module DynWitness {
  import opened Options
  import opened Counting
  import opened DynSystem
  import opened DynInvariant
  import opened DynReads
  import opened DynCleaner
  import opened DynSteps
  import opened DynTheorems
  import opened DynRace

  datatype Cell = Cell(mark: Mark, key: Key, next: Ref)

  /** Shared memory without the history. */
  datatype Plain = Plain(
    cells: seq<Cell>, chain: seq<Ref>, lock: seq<nat>,
    free: seq<Ref>, dirty: seq<Ref>, rinsing: seq<Ref>, clean: seq<Ref>, cl: Cleaner)

  function CellOf(nd: Node): Cell { Cell(nd.mark, nd.key, nd.next) }

  /** State s shows memory p and CPUs cpus. */
  predicate Shows(s: State, p: Plain, cpus: seq<Cpu>) {
    && s.cpus == cpus && |s.m.nodes| == |p.cells| &&
        (forall v :: 0 <= v < |p.cells| ==> CellOf(s.m.nodes[v]) == p.cells[v])
    && s.m.chain == p.chain && s.m.lock == p.lock && s.m.free == p.free && s.m.dirty == p.dirty &&
        s.m.rinsing == p.rinsing
    && s.m.clean == p.clean && s.m.cl == p.cl && Sized(s.m, |cpus|)
  }

  /** A run, and what it shows at its end. */
  ghost predicate Ends(tr: seq<State>, ss: seq<Step>, p: Plain, cpus: seq<Cpu>) {
    Run(tr, ss) && Shows(tr[|ss|], p, cpus)
  }

  lemma More(tr: seq<State>, ss: seq<Step>, st: Step) returns (tr': seq<State>, ss': seq<Step>)
    requires Run(tr, ss) && Fit(tr[|ss|], st)
    ensures Run(tr', ss') && tr'[|ss'|] == Do(tr[|ss|], st)
  {
    hide Do, Initial, Fit;
    tr', ss' := tr + [Do(tr[|ss|], st)], ss + [st];
  }

  function Caller(c: nat, op: Op, key: Key): Cpu {
    Cpu(if op.Dealloc? then LockRead else Top, op, key, c, 0, Null, Null, Null, Null, Null)
  }

  function Returned(c: nat, op: Op, key: Key, lk: nat): Cpu {
    Cpu(Idle, op, key, c, lk, Null, Null, Null, Null, Null)
  }

  // ---------------------------------------------------------------- an undisturbed allocation

  /** CPU c finds the end of an empty chain. */
  lemma WalkEmpty(tr: seq<State>, ss: seq<Step>, p: Plain, cpus: seq<Cpu>, c: nat, key: Key)
      returns (tr': seq<State>, ss': seq<Step>)
    requires Ends(tr, ss, p, cpus) && c < |cpus| && cpus[c].pc.Idle? && |p.chain| > 0 &&
        p.chain[key.h % |p.chain|] == Sink
    ensures |p.lock| == |p.chain| && Ends(tr', ss', p,
        cpus[c := Caller(c, Alloc, key).(pc := FreeRead, lk := p.lock[key.h % |p.chain|], start := Sink)])
  {
    hide Run;
    tr', ss' := More(tr, ss, Start(c, Alloc, key));
    tr', ss' := More(tr', ss', Go(c, true));
    tr', ss' := More(tr', ss', Go(c, true));
    tr', ss' := More(tr', ss', Go(c, true));
  }

  /** CPU c, allocating, takes chunk v from the free list of CPU d. */
  lemma TakeChunk(tr: seq<State>, ss: seq<Step>, p: Plain, cpus: seq<Cpu>, c: nat, v: nat)
      returns (tr': seq<State>, ss': seq<Step>)
    requires Ends(tr, ss, p, cpus) && c < |cpus| && cpus[c].pc.FreeRead? && cpus[c].nx == Null
    requires |p.free| == |cpus| && cpus[c].d < |cpus| && p.free[cpus[c].d] == At(v) && v < |p.cells|
    ensures Ends(tr', ss', p.(free := p.free[cpus[c].d := p.cells[v].next]),
        cpus[c := cpus[c].(pc := FillKey, dvar := At(v))])
  {
    hide Ends;
    tr', ss' := SeeChunk(tr, ss, p, cpus, c, v);
    var k := cpus[c].(pc := FreePop, dvar := At(v), nx := p.cells[v].next);
    tr', ss' := PopChunk(tr', ss', p, cpus[c := k], c, v);
    assert cpus[c := k][c := k.(pc := FillKey, nx := Null)] == cpus[c := cpus[c].(pc := FillKey, dvar := At(v))];
  }

  lemma SeeChunk(tr: seq<State>, ss: seq<Step>, p: Plain, cpus: seq<Cpu>, c: nat, v: nat)
      returns (tr': seq<State>, ss': seq<Step>)
    requires Ends(tr, ss, p, cpus) && c < |cpus| && cpus[c].pc.FreeRead?
    requires |p.free| == |cpus| && cpus[c].d < |cpus| && p.free[cpus[c].d] == At(v) && v < |p.cells|
    ensures Ends(tr', ss', p, cpus[c := cpus[c].(pc := FreePop, dvar := At(v), nx := p.cells[v].next)])
  {
    hide Run;
    tr', ss' := More(tr, ss, Go(c, true));
    tr', ss' := More(tr', ss', Go(c, true));
  }

  lemma PopChunk(tr: seq<State>, ss: seq<Step>, p: Plain, cpus: seq<Cpu>, c: nat, v: nat)
      returns (tr': seq<State>, ss': seq<Step>)
    requires Ends(tr, ss, p, cpus) && c < |cpus| && cpus[c].pc.FreePop? && cpus[c].dvar == At(v) && v < |p.cells|
    requires |p.free| == |cpus| && cpus[c].d < |cpus| && p.free[cpus[c].d] == At(v) && cpus[c].nx == p.cells[v].next
    ensures Ends(tr', ss', p.(free := p.free[cpus[c].d := cpus[c].nx]), cpus[c := cpus[c].(pc := FillKey, nx := Null)])
  {
    hide Run;
    tr', ss' := More(tr, ss, Go(c, true));
  }

  /** CPU c writes chunk v. */
  lemma FillChunk(tr: seq<State>, ss: seq<Step>, p: Plain, cpus: seq<Cpu>, c: nat, v: nat)
      returns (tr': seq<State>, ss': seq<Step>)
    requires Ends(tr, ss, p, cpus) && c < |cpus| && cpus[c].pc.FillKey? && cpus[c].d < |cpus| &&
        cpus[c].dvar == At(v) && v < |p.cells|
    ensures Ends(tr', ss', p.(cells := p.cells[v := Cell(Hash(cpus[c].key.h), cpus[c].key, cpus[c].start)]),
        cpus[c := cpus[c].(pc := Publish)])
  {
    hide Ends;
    var k, x := cpus[c], p.cells[v];
    var x1, x2 := x.(key := k.key), x.(key := k.key, mark := Hash(k.key.h));
    tr', ss' := FillKeyStep(tr, ss, p, cpus, c, v);
    var p1, cpus1 := p.(cells := p.cells[v := x1]), cpus[c := k.(pc := FillMark)];
    tr', ss' := FillMarkStep(tr', ss', p1, cpus1, c, v);
    var p2, cpus2 := p1.(cells := p1.cells[v := x2]), cpus1[c := k.(pc := FillNext)];
    tr', ss' := FillNextStep(tr', ss', p2, cpus2, c, v);
    assert p2.cells[v := x2.(next := k.start)] == p.cells[v := Cell(Hash(k.key.h), k.key, k.start)];
    assert cpus2[c := k.(pc := Publish)] == cpus[c := k.(pc := Publish)];
  }

  lemma FillKeyStep(tr: seq<State>, ss: seq<Step>, p: Plain, cpus: seq<Cpu>, c: nat, v: nat)
      returns (tr': seq<State>, ss': seq<Step>)
    requires Ends(tr, ss, p, cpus) && c < |cpus| && cpus[c].pc.FillKey? && cpus[c].d < |cpus| &&
        cpus[c].dvar == At(v) && v < |p.cells|
    ensures Ends(tr', ss', p.(cells := p.cells[v := p.cells[v].(key := cpus[c].key)]),
        cpus[c := cpus[c].(pc := FillMark)])
  {
    hide Run;
    tr', ss' := More(tr, ss, Go(c, true));
  }

  lemma FillMarkStep(tr: seq<State>, ss: seq<Step>, p: Plain, cpus: seq<Cpu>, c: nat, v: nat)
      returns (tr': seq<State>, ss': seq<Step>)
    requires Ends(tr, ss, p, cpus) && c < |cpus| && cpus[c].pc.FillMark? && cpus[c].d < |cpus| &&
        cpus[c].dvar == At(v) && v < |p.cells|
    ensures Ends(tr', ss', p.(cells := p.cells[v := p.cells[v].(mark := Hash(cpus[c].key.h))]),
        cpus[c := cpus[c].(pc := FillNext)])
  {
    hide Run;
    tr', ss' := More(tr, ss, Go(c, true));
  }

  lemma FillNextStep(tr: seq<State>, ss: seq<Step>, p: Plain, cpus: seq<Cpu>, c: nat, v: nat)
      returns (tr': seq<State>, ss': seq<Step>)
    requires Ends(tr, ss, p, cpus) && c < |cpus| && cpus[c].pc.FillNext? && cpus[c].d < |cpus| &&
        cpus[c].dvar == At(v) && v < |p.cells|
    ensures Ends(tr', ss', p.(cells := p.cells[v := p.cells[v].(next := cpus[c].start)]),
        cpus[c := cpus[c].(pc := Publish)])
  {
    hide Run;
    tr', ss' := More(tr, ss, Go(c, true));
  }

  /** CPU c publishes chunk v on its empty chain and returns. */
  lemma PublishChunk(tr: seq<State>, ss: seq<Step>, p: Plain, cpus: seq<Cpu>, c: nat, v: nat, b: nat)
      returns (tr': seq<State>, ss': seq<Step>)
    requires Ends(tr, ss, p, cpus) && c < |cpus| && cpus[c].pc.Publish? && cpus[c].d < |cpus| &&
        cpus[c].dvar == At(v) && v < |p.cells|
    requires |p.chain| > 0 && b == cpus[c].key.h % |p.chain| && p.chain[b] == cpus[c].start
    ensures Ends(tr', ss', p.(chain := p.chain[b := At(v)]), cpus[c := Cleared(cpus[c], Idle)])
  {
    hide Run;
    tr', ss' := More(tr, ss, Go(c, true));
    tr', ss' := More(tr', ss', Leave(c));
  }

  lemma Allocate(tr: seq<State>, ss: seq<Step>, p: Plain, cpus: seq<Cpu>, c: nat, key: Key, v: nat, b: nat)
      returns (tr': seq<State>, ss': seq<Step>)
    requires Ends(tr, ss, p, cpus) && c < |cpus| && cpus[c].pc.Idle?
    requires |p.chain| == |p.lock| > 0 && b == key.h % |p.chain| && p.chain[b] == Sink && |p.free| == |cpus| &&
        p.free[c] == At(v) && v < |p.cells|
    ensures Ends(tr', ss', p.(cells := p.cells[v := Cell(Hash(key.h), key, Sink)], chain := p.chain[b := At(v)],
        free := p.free[c := p.cells[v].next]),
                 cpus[c := Returned(c, Alloc, key, p.lock[b])])
  {
    hide Ends;
    tr', ss' := WalkEmpty(tr, ss, p, cpus, c, key);
    var k := Caller(c, Alloc, key).(pc := FreeRead, lk := p.lock[b], start := Sink);
    var cpus1 := cpus[c := k];
    tr', ss' := TakeChunk(tr', ss', p, cpus1, c, v);
    var cpus2 := cpus1[c := k.(pc := FillKey, dvar := At(v))];
    var p2 := p.(free := p.free[c := p.cells[v].next]);
    tr', ss' := FillChunk(tr', ss', p2, cpus2, c, v);
    var cpus3 := cpus2[c := cpus2[c].(pc := Publish)];
    tr', ss' := PublishChunk(tr', ss', p2.(cells := p.cells[v := Cell(Hash(key.h), key, Sink)]), cpus3, c, v, b);
    assert cpus3[c := Cleared(cpus3[c], Idle)] == cpus[c := Returned(c, Alloc, key, p.lock[b])];
  }

  // ---------------------------------------------------------------- an undisturbed deallocation

  /** CPU c locks its bucket. */
  lemma LockFirst(tr: seq<State>, ss: seq<Step>, p: Plain, cpus: seq<Cpu>, c: nat, key: Key, b: nat)
      returns (tr': seq<State>, ss': seq<Step>)
    requires Ends(tr, ss, p, cpus) && c < |cpus| && cpus[c].pc.Idle?
    requires |p.chain| == |p.lock| > 0 && b == key.h % |p.chain| && p.lock[b] % 2 == 0
    ensures Ends(tr', ss', p.(lock := p.lock[b := p.lock[b] + 1]),
        cpus[c := Caller(c, Dealloc, key).(pc := Top, lk := p.lock[b])])
  {
    hide Run;
    tr', ss' := More(tr, ss, Start(c, Dealloc, key));
    tr', ss' := More(tr', ss', Go(c, true));
    tr', ss' := More(tr', ss', Go(c, true));
  }

  /** CPU c finds the key in the first chunk. */
  lemma WalkFirst(tr: seq<State>, ss: seq<Step>, p: Plain, cpus: seq<Cpu>, c: nat, v: nat, b: nat)
      returns (tr': seq<State>, ss': seq<Step>)
    requires Ends(tr, ss, p, cpus) && c < |cpus| && cpus[c].pc.Top? && cpus[c].op.Dealloc? && cpus[c].d < |cpus|
    requires |p.chain| == |p.lock| > 0 && b == cpus[c].key.h % |p.chain| && p.chain[b] == At(v) && v < |p.cells|
    requires p.cells[v].mark == Hash(cpus[c].key.h) && p.cells[v].key == cpus[c].key
    ensures Ends(tr', ss', p, cpus[c := cpus[c].(pc := UnlinkRead, lk := p.lock[b], start := At(v), dvar := At(v))])
  {
    hide Run;
    tr', ss' := More(tr, ss, Go(c, true));
    tr', ss' := More(tr', ss', Go(c, true));
    tr', ss' := More(tr', ss', Go(c, true));
    tr', ss' := More(tr', ss', Go(c, true));
  }

  /** CPU c locks the bucket and finds the key in the first chunk. */
  lemma FindFirst(tr: seq<State>, ss: seq<Step>, p: Plain, cpus: seq<Cpu>, c: nat, key: Key, v: nat, b: nat)
      returns (tr': seq<State>, ss': seq<Step>)
    requires Ends(tr, ss, p, cpus) && c < |cpus| && cpus[c].pc.Idle?
    requires |p.chain| == |p.lock| > 0 && b == key.h % |p.chain| && p.chain[b] == At(v) && v < |p.cells| &&
        p.lock[b] % 2 == 0
    requires p.cells[v].mark == Hash(key.h) && p.cells[v].key == key
    ensures Ends(tr', ss', p.(lock := p.lock[b := p.lock[b] + 1]),
                 cpus[c := Caller(c, Dealloc, key).(pc := UnlinkRead, lk := p.lock[b] + 1, start := At(v),
                     dvar := At(v))])
  {
    hide Ends;
    tr', ss' := LockFirst(tr, ss, p, cpus, c, key, b);
    var cpus1 := cpus[c := Caller(c, Dealloc, key).(pc := Top, lk := p.lock[b])];
    tr', ss' := WalkFirst(tr', ss', p.(lock := p.lock[b := p.lock[b] + 1]), cpus1, c, v, b);
    var k := Caller(c, Dealloc, key).(pc := UnlinkRead, lk := p.lock[b] + 1, start := At(v), dvar := At(v));
    assert cpus1[c := k] == cpus[c := k];
  }

  /** CPU c takes chunk v off the head of its chain. */
  lemma UnlinkFirst(tr: seq<State>, ss: seq<Step>, p: Plain, cpus: seq<Cpu>, c: nat, v: nat, b: nat)
      returns (tr': seq<State>, ss': seq<Step>)
    requires Ends(tr, ss, p, cpus) && c < |cpus| && cpus[c].pc.UnlinkRead? && cpus[c].d < |cpus| && cpus[c].op.Dealloc?
    requires cpus[c].start == At(v) && cpus[c].dvar == At(v) && cpus[c].prev == Null
    requires |p.chain| == |p.lock| > 0 && b == cpus[c].key.h % |p.chain| && p.chain[b] == At(v) && v < |p.cells|
    ensures Ends(tr', ss', p.(cells := p.cells[v := p.cells[v].(mark := Unused)],
        chain := p.chain[b := p.cells[v].next]),
                 cpus[c := Cleared(cpus[c], DirtyRead).(dvar := At(v))])
  {
    hide Ends;
    tr', ss' := CutFirst(tr, ss, p, cpus, c, v, b);
    var k, p1 := Cleared(cpus[c], Marking).(dvar := At(v)), p.(chain := p.chain[b := p.cells[v].next]);
    tr', ss' := MarkChunk(tr', ss', p1, cpus[c := k], c, v);
    assert cpus[c := k][c := k.(pc := DirtyRead)] == cpus[c := k.(pc := DirtyRead)];
  }

  lemma CutFirst(tr: seq<State>, ss: seq<Step>, p: Plain, cpus: seq<Cpu>, c: nat, v: nat, b: nat)
      returns (tr': seq<State>, ss': seq<Step>)
    requires Ends(tr, ss, p, cpus) && c < |cpus| && cpus[c].pc.UnlinkRead? && cpus[c].d < |cpus|
    requires cpus[c].start == At(v) && cpus[c].dvar == At(v) && cpus[c].prev == Null
    requires |p.chain| == |p.lock| > 0 && b == cpus[c].key.h % |p.chain| && p.chain[b] == At(v) && v < |p.cells|
    ensures Ends(tr', ss', p.(chain := p.chain[b := p.cells[v].next]),
        cpus[c := Cleared(cpus[c], Marking).(dvar := At(v))])
  {
    hide Run;
    tr', ss' := More(tr, ss, Go(c, true));
    tr', ss' := More(tr', ss', Go(c, true));
  }

  lemma MarkChunk(tr: seq<State>, ss: seq<Step>, p: Plain, cpus: seq<Cpu>, c: nat, v: nat)
      returns (tr': seq<State>, ss': seq<Step>)
    requires Ends(tr, ss, p, cpus) && c < |cpus| && cpus[c].pc.Marking? && cpus[c].d < |cpus| &&
        cpus[c].dvar == At(v) && v < |p.cells|
    ensures Ends(tr', ss', p.(cells := p.cells[v := p.cells[v].(mark := Unused)]), cpus[c := cpus[c].(pc := DirtyRead)])
  {
    hide Run;
    tr', ss' := More(tr, ss, Go(c, true));
  }

  /** CPU c links chunk v to its dirty list. */
  lemma LinkChunk(tr: seq<State>, ss: seq<Step>, p: Plain, cpus: seq<Cpu>, c: nat, v: nat)
      returns (tr': seq<State>, ss': seq<Step>)
    requires Ends(tr, ss, p, cpus) && c < |cpus| && cpus[c].pc.DirtyRead? && cpus[c].d == c && cpus[c].op.Dealloc? &&
        cpus[c].dvar == At(v)
    requires v < |p.cells| && |p.dirty| == |cpus|
    ensures Ends(tr', ss', p.(cells := p.cells[v := p.cells[v].(next := p.dirty[c])]),
        cpus[c := cpus[c].(pc := DirtyCas, nx := p.dirty[c])])
  {
    hide Run;
    tr', ss' := More(tr, ss, Go(c, true));
    tr', ss' := More(tr', ss', Go(c, true));
  }

  /** CPU c puts chunk v on its dirty list, unlocks the bucket and returns. */
  lemma SweepChunk(tr: seq<State>, ss: seq<Step>, p: Plain, cpus: seq<Cpu>, c: nat, v: nat, b: nat)
      returns (tr': seq<State>, ss': seq<Step>)
    requires Ends(tr, ss, p, cpus) && c < |cpus| && cpus[c].pc.DirtyCas? && cpus[c].d == c && cpus[c].op.Dealloc? &&
        cpus[c].dvar == At(v)
    requires |p.chain| == |p.lock| > 0 && b == cpus[c].key.h % |p.chain| && v < |p.cells| && |p.dirty| == |cpus| &&
        cpus[c].nx == p.dirty[c]
    ensures Ends(tr', ss', p.(dirty := p.dirty[c := At(v)], lock := p.lock[b := p.lock[b] + 1]),
        cpus[c := Cleared(cpus[c], Idle)])
  {
    hide Run;
    tr', ss' := More(tr, ss, Go(c, true));
    tr', ss' := More(tr', ss', Go(c, true));
    tr', ss' := More(tr', ss', Leave(c));
  }

  lemma Deallocate(tr: seq<State>, ss: seq<Step>, p: Plain, cpus: seq<Cpu>, c: nat, key: Key, v: nat, b: nat)
      returns (tr': seq<State>, ss': seq<Step>)
    requires Ends(tr, ss, p, cpus) && c < |cpus| && cpus[c].pc.Idle? && |p.dirty| == |cpus|
    requires |p.chain| == |p.lock| > 0 && b == key.h % |p.chain| && p.chain[b] == At(v) && v < |p.cells| &&
        p.lock[b] % 2 == 0
    requires p.cells[v].mark == Hash(key.h) && p.cells[v].key == key
    ensures Ends(tr', ss', p.(cells := p.cells[v := Cell(Unused, key, p.dirty[c])],
        chain := p.chain[b := p.cells[v].next],
                              lock := p.lock[b := p.lock[b] + 2], dirty := p.dirty[c := At(v)]),
                 cpus[c := Returned(c, Dealloc, key, p.lock[b] + 1)])
  {
    hide Ends;
    tr', ss' := FindFirst(tr, ss, p, cpus, c, key, v, b);
    var k := Caller(c, Dealloc, key).(pc := UnlinkRead, lk := p.lock[b] + 1, start := At(v), dvar := At(v));
    var p1, cpus1 := p.(lock := p.lock[b := p.lock[b] + 1]), cpus[c := k];
    tr', ss' := UnlinkFirst(tr', ss', p1, cpus1, c, v, b);
    var p2, cpus2 := p1.(cells := p.cells[v := p.cells[v].(mark := Unused)], chain := p.chain[b := p.cells[v].next]),
        cpus1[c := Cleared(k, DirtyRead).(dvar := At(v))];
    tr', ss' := LinkChunk(tr', ss', p2, cpus2, c, v);
    var cpus3 := cpus2[c := cpus2[c].(pc := DirtyCas, nx := p.dirty[c])];
    tr', ss' := SweepChunk(tr', ss', p2.(cells := p2.cells[v := p2.cells[v].(next := p.dirty[c])]), cpus3, c, v, b);
    assert cpus3[c := Cleared(cpus3[c], Idle)] == cpus[c := Returned(c, Dealloc, key, p.lock[b] + 1)];
    assert p2.lock[b := p2.lock[b] + 1] == p.lock[b := p.lock[b] + 2];
    assert p2.cells[v := p2.cells[v].(next := p.dirty[c])] == p.cells[v := Cell(Unused, key, p.dirty[c])];
  }

  // ---------------------------------------------------------------- the cleaner, with two CPUs

  /** The cleaner takes CPU 0's dirty list aside and starts to wait. */
  lemma GrabFirst(tr: seq<State>, ss: seq<Step>, p: Plain, cpus: seq<Cpu>) returns (tr': seq<State>, ss': seq<Step>)
    requires Ends(tr, ss, p, cpus) && |cpus| == 2 && p.cl == CIdle && |p.dirty| == |p.clean| == |p.rinsing| == 2
    requires p.dirty[0].At? && p.dirty[1] == Null && p.clean[0] == Null
    ensures Ends(tr', ss', p.(dirty := p.dirty[0 := Null], rinsing := p.rinsing[0 := p.dirty[0]],
        cl := CSync(Below(2))), cpus)
  {
    hide Ends;
    tr', ss' := Scan(tr, ss, p, cpus);
    tr', ss' := Grab(tr', ss', p.(cl := CRead(0)), cpus);
  }

  lemma Scan(tr: seq<State>, ss: seq<Step>, p: Plain, cpus: seq<Cpu>) returns (tr': seq<State>, ss': seq<Step>)
    requires Ends(tr, ss, p, cpus) && |cpus| == 2 && p.cl == CIdle && |p.dirty| == |p.clean| == 2 && p.dirty[0].At? &&
        p.clean[0] == Null
    ensures Ends(tr', ss', p.(cl := CRead(0)), cpus)
  {
    hide Run;
    tr', ss' := More(tr, ss, CleanGo);
    tr', ss' := More(tr', ss', CleanGo);
    tr', ss' := More(tr', ss', CleanGo);
  }

  lemma Grab(tr: seq<State>, ss: seq<Step>, p: Plain, cpus: seq<Cpu>) returns (tr': seq<State>, ss': seq<Step>)
    requires Ends(tr, ss, p, cpus) && |cpus| == 2 && p.cl == CRead(0) && |p.dirty| == |p.rinsing| == 2 &&
        p.dirty[0].At? && p.dirty[1] == Null
    ensures Ends(tr', ss', p.(dirty := p.dirty[0 := Null], rinsing := p.rinsing[0 := p.dirty[0]],
        cl := CSync(Below(2))), cpus)
  {
    hide Run, Below;
    tr', ss' := More(tr, ss, CleanGo);
    tr', ss' := More(tr', ss', CleanGo);
    tr', ss' := More(tr', ss', CleanGo);
    tr', ss' := More(tr', ss', CleanGo);
    tr', ss' := More(tr', ss', CleanGo);
  }

  /** CPU c is seen outside probe context. */
  lemma Acknowledge(tr: seq<State>, ss: seq<Step>, p: Plain, cpus: seq<Cpu>, c: nat)
      returns (tr': seq<State>, ss': seq<Step>)
    requires Ends(tr, ss, p, cpus) && c < |cpus| && cpus[c].pc.Idle? && p.cl.CSync?
    ensures Ends(tr', ss', p.(cl := CSync(p.cl.waiting - {c})), cpus)
  {
    hide Run;
    tr', ss' := More(tr, ss, Ack(c));
  }

  /** The wait is over: CPU 0's rinsing list becomes its clean list, and the cleaner is done. */
  lemma HandBack(tr: seq<State>, ss: seq<Step>, p: Plain, cpus: seq<Cpu>) returns (tr': seq<State>, ss': seq<Step>)
    requires Ends(tr, ss, p, cpus) && |cpus| == 2 && p.cl == CSync({}) && |p.clean| == |p.rinsing| == 2 &&
        p.rinsing[0].At? && p.rinsing[1] == Null
    ensures Ends(tr', ss', p.(clean := p.clean[0 := p.rinsing[0]], rinsing := p.rinsing[0 := Null], cl := CIdle), cpus)
  {
    hide Run;
    tr', ss' := More(tr, ss, CleanGo);
    tr', ss' := More(tr', ss', CleanGo);
    tr', ss' := More(tr', ss', CleanGo);
    tr', ss' := More(tr', ss', CleanGo);
    tr', ss' := More(tr', ss', CleanGo);
  }

  // ---------------------------------------------------------------- the race

  const A := Key(0, 0)
  const B := Key(1, 0)
  const C := Key(2, 0)

  function Start0(): State {
    State(
      Mem([Node(Unused, A, At(1), Free(0), 0, Null), Node(Unused, A, At(2), Free(0), 0, Null),
          Node(Unused, A, Null, Free(0), 0, Null)],
          [Sink, Sink, Sink], [0, 0, 0], [At(0), Null], [Null, Null], [Null, Null], [Null, Null], CIdle,
          map[Free(0) := [0, 1, 2]], 0, [None, None, None], [None, None, None], [None, None], [None, None],
              [Null, Null]),
      [Returned(0, Alloc, A, 0), Returned(1, Alloc, A, 0)])
  }

  lemma Start0Linked()
    ensures Linked(Start0().m.nodes, Free(0), [0, 1, 2]) && Linked(Start0().m.nodes, Free(1), [])
  {
    var nodes, q: seq<nat> := Start0().m.nodes, [0, 1, 2];
    forall i | 0 <= i < |q|
      ensures q[i] < |nodes| && nodes[q[i]].place == Free(0) && nodes[q[i]].next == Nth(q, i + 1, EndOf(Free(0)))
    {
    }
  }

  lemma Start0Initial()
    ensures Initial(Start0())
  {
    hide Linked;
    Start0Linked();
    var m := Start0().m;
    assert L(m, Free(0)) == [0, 1, 2] && L(m, Free(1)) == [];
    forall p | L(m, p) != []
      ensures p == Free(0)
    {
    }
    forall v | 0 <= v < |m.nodes|
      ensures m.nodes[v].mark.Unused? && m.nodes[v].stamp == 0 && m.nodes[v].place == Free(0) && v in L(m, Free(0))
    {
    }
  }

  /** Three chunks, all in CPU 0's free list. */
  function Plain0(): Plain {
    Plain([Cell(Unused, A, At(1)), Cell(Unused, A, At(2)), Cell(Unused, A, Null)],
          [Sink, Sink, Sink], [0, 0, 0], [At(0), Null], [Null, Null], [Null, Null], [Null, Null], CIdle)
  }

  /** All three allocated by CPU 0. */
  function Plain1(): Plain {
    Plain([Cell(Hash(0), A, Sink), Cell(Hash(1), B, Sink), Cell(Hash(2), C, Sink)],
          [At(0), At(1), At(2)], [0, 0, 0], [Null, Null], [Null, Null], [Null, Null], [Null, Null], CIdle)
  }

  /** All deallocated, the first two rinsed clean, the third dirty. */
  function Plain2(): Plain {
    Plain([Cell(Unused, A, Null), Cell(Unused, B, At(0)), Cell(Unused, C, Null)],
          [Sink, Sink, Sink], [2, 2, 2], [Null, Null], [At(2), Null], [Null, Null], [At(1), Null], CIdle)
  }

  const K1 := Returned(1, Alloc, A, 0)

  lemma Reach0() returns (tr: seq<State>, ss: seq<Step>)
    ensures Ends(tr, ss, Plain0(), [Returned(0, Alloc, A, 0), K1])
  {
    hide Initial;
    Start0Initial();
    tr, ss := [Start0()], [];
  }

  lemma Reach1() returns (tr: seq<State>, ss: seq<Step>)
    ensures Ends(tr, ss, Plain1(), [Returned(0, Alloc, C, 0), K1])
  {
    hide Ends;
    tr, ss := Reach0();
    tr, ss := Allocate(tr, ss, Plain0(), [Returned(0, Alloc, A, 0), K1], 0, A, 0, 0);
    var p := Plain0().(cells := Plain0().cells[0 := Cell(Hash(0), A, Sink)], chain := [At(0), Sink, Sink],
        free := [At(1), Null]);
    var q := p.(cells := p.cells[1 := Cell(Hash(1), B, Sink)], chain := [At(0), At(1), Sink], free := [At(2), Null]);
    assert [Returned(0, Alloc, A, 0), K1][0 := Returned(0, Alloc, A, 0)] == [Returned(0, Alloc, A, 0), K1];
    assert Plain0().chain[0 := At(0)] == p.chain && Plain0().free[0 := At(1)] == p.free;
    tr, ss := Allocate(tr, ss, p, [Returned(0, Alloc, A, 0), K1], 0, B, 1, 1);
    assert p.chain[1 := At(1)] == q.chain && p.free[0 := At(2)] == q.free;
    assert [Returned(0, Alloc, A, 0), K1][0 := Returned(0, Alloc, B, 0)] == [Returned(0, Alloc, B, 0), K1];
    tr, ss := Allocate(tr, ss, q, [Returned(0, Alloc, B, 0), K1], 0, C, 2, 2);
    assert q.chain[2 := At(2)] == Plain1().chain && q.free[0 := Null] == Plain1().free;
    assert q.cells[2 := Cell(Hash(2), C, Sink)] == Plain1().cells;
    assert [Returned(0, Alloc, B, 0), K1][0 := Returned(0, Alloc, C, 0)] == [Returned(0, Alloc, C, 0), K1];
  }

  /** The first two deallocated. */
  function Plain1b(): Plain {
    Plain([Cell(Unused, A, Null), Cell(Unused, B, At(0)), Cell(Hash(2), C, Sink)],
          [Sink, Sink, At(2)], [2, 2, 0], [Null, Null], [At(1), Null], [Null, Null], [Null, Null], CIdle)
  }

  lemma Reach1b() returns (tr: seq<State>, ss: seq<Step>)
    ensures Ends(tr, ss, Plain1b(), [Returned(0, Dealloc, B, 1), K1])
  {
    hide Ends;
    tr, ss := Reach1();
    var p := Plain1();
    tr, ss := Deallocate(tr, ss, p, [Returned(0, Alloc, C, 0), K1], 0, A, 0, 0);
    var q := p.(cells := [Cell(Unused, A, Null), Cell(Hash(1), B, Sink), Cell(Hash(2), C, Sink)],
        chain := [Sink, At(1), At(2)], lock := [2, 0, 0], dirty := [At(0), Null]);
    assert p.cells[0 := Cell(Unused, A, Null)] == q.cells && p.chain[0 := Sink] == q.chain &&
        p.lock[0 := 2] == q.lock && p.dirty[0 := At(0)] == q.dirty;
    assert [Returned(0, Alloc, C, 0), K1][0 := Returned(0, Dealloc, A, 1)] == [Returned(0, Dealloc, A, 1), K1];
    tr, ss := Deallocate(tr, ss, q, [Returned(0, Dealloc, A, 1), K1], 0, B, 1, 1);
    var r := Plain1b();
    assert q.cells[1 := Cell(Unused, B, At(0))] == r.cells && q.chain[1 := Sink] == r.chain &&
        q.lock[1 := 2] == r.lock && q.dirty[0 := At(1)] == r.dirty;
    assert [Returned(0, Dealloc, A, 1), K1][0 := Returned(0, Dealloc, B, 1)] == [Returned(0, Dealloc, B, 1), K1];
  }

  lemma Reach2() returns (tr: seq<State>, ss: seq<Step>)
    ensures Ends(tr, ss, Plain2(), [Returned(0, Dealloc, C, 1), K1])
  {
    hide Ends;
    tr, ss := Reach1b();
    var p, cpus := Plain1b(), [Returned(0, Dealloc, B, 1), K1];
    tr, ss := GrabFirst(tr, ss, p, cpus);
    var g := p.(dirty := p.dirty[0 := Null], rinsing := p.rinsing[0 := At(1)], cl := CSync(Below(2)));
    tr, ss := Acknowledge(tr, ss, g, cpus, 0);
    tr, ss := Acknowledge(tr, ss, g.(cl := CSync(Below(2) - {0})), cpus, 1);
    assert Below(2) - {0} - {1} == {};
    tr, ss := HandBack(tr, ss, g.(cl := CSync({})), cpus);
    var h := g.(clean := g.clean[0 := At(1)], rinsing := g.rinsing[0 := Null], cl := CIdle);
    tr, ss := Deallocate(tr, ss, h, cpus, 0, C, 2, 2);
    var r := Plain2();
    assert h.cells[2 := Cell(Unused, C, Null)] == r.cells && h.chain[2 := Sink] == r.chain &&
        h.lock[2 := 2] == r.lock && h.dirty[0 := At(2)] == r.dirty;
    assert h.rinsing == r.rinsing && h.clean == r.clean;
    assert cpus[0 := Returned(0, Dealloc, C, 1)] == [Returned(0, Dealloc, C, 1), K1];
  }

  /** CPU 1, out of chunks, turns to CPU 0 and takes its clean list. */
  lemma Carry(tr: seq<State>, ss: seq<Step>, p: Plain, cpus: seq<Cpu>) returns (tr': seq<State>, ss': seq<Step>)
    requires Ends(tr, ss, p, cpus) && |cpus| == |p.free| == |p.clean| == 2 && cpus[1].pc.FreeRead? && cpus[1].d == 1 &&
        cpus[1].dvar == Null && cpus[1].nx == Null
    requires p.free == [Null, Null] && p.clean[0].At? && p.clean[1] == Null
    ensures Ends(tr', ss', p.(clean := p.clean[0 := Null]),
        cpus[1 := cpus[1].(pc := FreeSet, d := 0, cl := p.clean[0])])
  {
    hide Run;
    tr', ss' := More(tr, ss, Go(1, true));
    tr', ss' := More(tr', ss', Go(1, true));
    tr', ss' := More(tr', ss', Go(1, true));
    tr', ss' := More(tr', ss', Go(1, true));
    tr', ss' := More(tr', ss', Go(1, true));
  }

  /** CPU 0 finds its free list empty. */
  lemma Look(tr: seq<State>, ss: seq<Step>, p: Plain, cpus: seq<Cpu>) returns (tr': seq<State>, ss': seq<Step>)
    requires Ends(tr, ss, p, cpus) && |cpus| == |p.free| == 2 && cpus[0].pc.FreeRead? && cpus[0].d == 0 &&
        p.free[0] == Null
    ensures Ends(tr', ss', p, cpus[0 := cpus[0].(pc := CleanRead)])
  {
    hide Run;
    tr', ss' := More(tr, ss, Go(0, true));
  }

  /** CPU 1 puts the list it carries on CPU 0's free list. */
  lemma PutDown(tr: seq<State>, ss: seq<Step>, p: Plain, cpus: seq<Cpu>) returns (tr': seq<State>, ss': seq<Step>)
    requires Ends(tr, ss, p, cpus) && |cpus| == |p.free| == 2 && cpus[1].pc.FreeSet? && cpus[1].d == 0 &&
        p.free[0] == Null
    ensures Ends(tr', ss', p.(free := p.free[0 := cpus[1].cl]), cpus[1 := cpus[1].(pc := FreeRead, cl := Null)])
  {
    hide Run;
    tr', ss' := More(tr, ss, Go(1, true));
  }

  /** The wait is over. */
  lemma Resume(tr: seq<State>, ss: seq<Step>, p: Plain, cpus: seq<Cpu>) returns (tr': seq<State>, ss': seq<Step>)
    requires Ends(tr, ss, p, cpus) && p.cl == CSync({})
    ensures Ends(tr', ss', p.(cl := CRefill(0)), cpus)
  {
    hide Run;
    tr', ss' := More(tr, ss, CleanGo);
  }

  function Allocator(c: nat, key: Key, lk: nat): Cpu {
    Caller(c, Alloc, key).(pc := FreeRead, lk := lk, start := Sink)
  }

  /** CPU 1 carries CPU 0's clean list when the cleaner takes CPU 0's dirty list aside; CPU 0 is seen outside probe
      context, then enters it and finds its free list empty. */
  lemma Reach3() returns (tr: seq<State>, ss: seq<Step>)
    ensures Ends(tr, ss, Plain2().(dirty := [Null, Null], rinsing := [At(2), Null], clean := [Null, Null],
        cl := CSync({1})),
                 [Allocator(0, B, 2).(pc := CleanRead), Allocator(1, A, 2).(pc := FreeSet, d := 0, cl := At(1))])
  {
    hide Ends;
    tr, ss := Reach2();
    var p, k0 := Plain2(), Returned(0, Dealloc, C, 1);
    tr, ss := WalkEmpty(tr, ss, p, [k0, K1], 1, A);
    assert [k0, K1][1 := Allocator(1, A, 2)] == [k0, Allocator(1, A, 2)];
    tr, ss := Carry(tr, ss, p, [k0, Allocator(1, A, 2)]);
    var k1 := Allocator(1, A, 2).(pc := FreeSet, d := 0, cl := At(1));
    assert [k0, Allocator(1, A, 2)][1 := k1] == [k0, k1];
    var q := p.(clean := [Null, Null]);
    assert p.clean[0 := Null] == q.clean;
    tr, ss := GrabFirst(tr, ss, q, [k0, k1]);
    var g := q.(dirty := [Null, Null], rinsing := [At(2), Null], cl := CSync(Below(2)));
    assert q.dirty[0 := Null] == g.dirty && q.rinsing[0 := At(2)] == g.rinsing;
    tr, ss := Acknowledge(tr, ss, g, [k0, k1], 0);
    assert Below(2) - {0} == {1};
    var h := g.(cl := CSync({1}));
    tr, ss := WalkEmpty(tr, ss, h, [k0, k1], 0, B);
    assert [k0, k1][0 := Allocator(0, B, 2)] == [Allocator(0, B, 2), k1];
    tr, ss := Look(tr, ss, h, [Allocator(0, B, 2), k1]);
    assert [Allocator(0, B, 2), k1][0 := Allocator(0, B, 2).(pc := CleanRead)] ==
        [Allocator(0, B, 2).(pc := CleanRead), k1];
  }

  /** CPU 1 puts the list down, takes a chunk of it, returns and is seen outside probe context: the wait is over, CPU 0
      still believes its free list empty, and it is not. */
  lemma RaceReachable() returns (tr: seq<State>, ss: seq<Step>)
    ensures Run(tr, ss) && Fit(tr[|ss|], CleanGo) && Race(tr[|ss|], CleanGo)
  {
    tr, ss := Reach4();
    var s := tr[|ss|];
    assert s.cpus[0].pc.CleanRead? && s.cpus[0].d == 0;
  }

  lemma Reach4() returns (tr: seq<State>, ss: seq<Step>)
    ensures Ends(tr, ss, Plain2().(cells := [Cell(Unused, A, Null), Cell(Hash(0), A, Sink), Cell(Unused, C, Null)],
        chain := [At(1), Sink, Sink],
                                   free := [At(0), Null], dirty := [Null, Null], rinsing := [At(2), Null],
                                       clean := [Null, Null], cl := CRefill(0)),
                 [Allocator(0, B, 2).(pc := CleanRead), Returned(0, Alloc, A, 2)])
  {
    hide Ends;
    tr, ss := Reach3();
    var p := Plain2().(dirty := [Null, Null], rinsing := [At(2), Null], clean := [Null, Null], cl := CSync({1}));
    var k0, k1 := Allocator(0, B, 2).(pc := CleanRead), Allocator(1, A, 2).(d := 0);
    tr, ss := PutDown(tr, ss, p, [k0, k1.(pc := FreeSet, cl := At(1))]);
    assert [k0, k1.(pc := FreeSet, cl := At(1))][1 := k1] == [k0, k1];
    var q := p.(free := [At(1), Null]);
    assert p.free[0 := At(1)] == q.free;
    tr, ss := TakeChunk(tr, ss, q, [k0, k1], 1, 1);
    var r, k2 := q.(free := [At(0), Null]), k1.(pc := FillKey, dvar := At(1));
    assert q.free[0 := At(0)] == r.free && [k0, k1][1 := k2] == [k0, k2];
    tr, ss := FillChunk(tr, ss, r, [k0, k2], 1, 1);
    var t, k3 := r.(cells := [Cell(Unused, A, Null), Cell(Hash(0), A, Sink), Cell(Unused, C, Null)]),
        k2.(pc := Publish);
    assert r.cells[1 := Cell(Hash(0), A, Sink)] == t.cells && [k0, k2][1 := k3] == [k0, k3];
    tr, ss := PublishChunk(tr, ss, t, [k0, k3], 1, 1, 0);
    var u := t.(chain := [At(1), Sink, Sink]);
    assert t.chain[0 := At(1)] == u.chain && [k0, k3][1 := Returned(0, Alloc, A, 2)] == [k0, Returned(0, Alloc, A, 2)];
    tr, ss := Acknowledge(tr, ss, u, [k0, Returned(0, Alloc, A, 2)], 1);
    assert {1} - {1} == {};
    tr, ss := Resume(tr, ss, u.(cl := CSync({})), [k0, Returned(0, Alloc, A, 2)]);
  }

  lemma Went(s: State, st: Step)
    requires Inv(s) && Enabled(s, st)
    ensures Fit(s, st) && Inv(Do(s, st))
  {
    hide Inv, Enabled, Fit, Do;
    NeverAstray(s, st);
    StepKeeps(s, st);
  }

  /** Whenever the race is about to happen, four more steps lose the rinsed chunks: v was one of them. */
  lemma RaceLoses(tr: seq<State>, ss: seq<Step>) returns (tr': seq<State>, ss': seq<Step>, v: nat)
    requires Run(tr, ss) && Fit(tr[|ss|], CleanGo) && Race(tr[|ss|], CleanGo)
    ensures Run(tr', ss') && v < |tr[|ss|].m.nodes| && tr[|ss|].m.nodes[v].place == Rinse(tr[|ss|].m.cl.i)
    ensures v < |tr'[|ss'|].m.nodes| && tr'[|ss'|].m.nodes[v].place == Nowhere
  {
    hide Inv, Do, Fit, Initial;
    RunKeeps(tr, ss, |ss|);
    var s := tr[|ss|];
    var c :| 0 <= c < |s.cpus| && s.cpus[c].pc.CleanRead? && s.cpus[c].d == s.m.cl.i;
    v := Rinsed(s);
    var go := Go(c, true);
    var s1 := Do(s, CleanGo);
    tr', ss' := More(tr, ss, CleanGo);
    StepKeeps(s, CleanGo);
    HandStep(s, v);
    Went(s1, go);
    SeeCleanStep(s1, c);
    tr', ss' := More(tr', ss', go);
    var s2 := Do(s1, go);
    Went(s2, go);
    TakeCleanStep(s2, c, v);
    tr', ss' := More(tr', ss', go);
    var s3 := Do(s2, go);
    Went(s3, go);
    tr', ss' := More(tr', ss', go);
    HandOverExact(s, c, s1, s2, s3, Do(s3, go), v);
  }

  lemma Rinsed(s: State) returns (v: nat)
    requires Inv(s) && Refills(s.m, |s.cpus|)
    ensures v < |s.m.nodes| && s.m.nodes[v].place == Rinse(s.m.cl.i)
  {
    hide MemOk, CpuOk, HolderOk, L;
    HeadFacts(s.m, |s.cpus|, Rinse(s.m.cl.i));
    v := s.m.rinsing[s.m.cl.i].n;
  }

  /** So a run of two CPUs and three chunks ends with a chunk that is on no list and in nobody's hands. */
  lemma ChunkLost() returns (tr: seq<State>, ss: seq<Step>, v: nat)
    ensures Run(tr, ss) && v < |tr[|ss|].m.nodes| && tr[|ss|].m.nodes[v].place == Nowhere
  {
    hide Run, Fit, Race;
    tr, ss := RaceReachable();
    tr, ss, v := RaceLoses(tr, ss);
  }
}
