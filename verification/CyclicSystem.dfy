/**
 The expiry/softint protocol of one CPU of the cyclic subsystem, as a step system.

 A step is one of: an expiry at CY_HIGH_LEVEL (cyclic_expire), one shared access of a soft
 interrupt at CY_LOCK_LEVEL or CY_LOW_LEVEL (cyclic_softint), or one action of the thread that holds
 cpu_lock (cyclic_add_here, cyclic_expand, cyclic_remove_here), whose three cross calls run at
 CY_HIGH_LEVEL and are therefore atomic.  Steps interleave arbitrarily.
 */
module CyclicSystem {

  const LOW: nat := 0
  const HIGH: nat := 2
  const UINT32_MAX: nat := 0xFFFF_FFFF
  const INT32_MAX: nat := 0x7FFF_FFFF

  /** cyclic_t.  `reg` names the registration whose handler and argument the slot holds; -1 for none yet. */
  datatype Cyclic = Cyclic(free: bool, level: nat, reg: int, pend: nat)

  /** cyc_pcbuffer_t.  The indices grow without bound and are masked by the size on use; `gen` names the
      allocation and `live` says that it has not been freed. */
  datatype Pc = Pc(buf: seq<nat>, prod: nat, cons: nat, gen: nat, live: bool)

  /** The entry at absolute index i. */
  function Entry(p: Pc, i: nat): nat
    requires |p.buf| > 0
  {
    p.buf[i % |p.buf|]
  }

  /** Where a soft interrupt stands in cyclic_softint: the label names the next shared access. */
  datatype At =
    | Idle | Top | Load | Check | ReadSlot | ReadHandler | Call | InHandler | Reread | ReadState
    | Recapture | Cas | RemRead | RemCall | RemIn | StoreCons | CheckHard | Grow | SetSoft
    | AckRead | AckCas | Post

  /** The local variables of cyclic_softint; `arr` is the cached cyclics pointer, `left` the calls that
      cyclic_remove_pend has still to make. */
  datatype Thread = Thread(
    pc: At, arr: nat, soft: nat, bgen: nat, size: nat, cons: nat, ndx: nat, reg: int, pend: nat,
    left: nat, lev: nat, resized: bool, intrResized: bool)

  /** One soft level: cyc_softbuf_t, the backend's pending interrupt, the number of acknowledgements this
      level has ever given, and its one possible activation. */
  datatype Level = Level(hard: nat, soft: nat, b: seq<Pc>, posted: bool, acks: nat, th: Thread)

  datatype CpuState = Online | Expanding | Removing

  /** The part of cyc_cpu_t the protocol shares.  `arrays` holds every cyclics array ever installed, the last
      one being cyp_cyclics; those below `freed` have been freed. `posts` counts the semaphore posts made by
      resizes. */
  datatype Cpu = Cpu(state: CpuState, arrays: seq<seq<Cyclic>>, freed: nat, levels: nat, rpend: nat,
                     sem: nat, posts: nat)

  /** Where the holder of cpu_lock stands. */
  datatype Mod =
    | MIdle
    | EAlloc | EXcall | EWait | EFree | EDone
    | RXcall(k: nat, wait: bool) | RFail(wait: bool) | RCheck(k: nat,
        wait: bool) | RWait(k: nat) | RClear(k: nat) | RDone(k: nat)

  /** `exp[r]` and `calls[r]` count the expiries and the completed handler calls of registration r. */
  datatype State = State(cpu: Cpu, lvl: seq<Level>, mod: Mod, exp: seq<nat>, calls: seq<nat>)

  datatype Step =
    | Expire(k: nat)
    | Begin(l: nat)
    | Soft(l: nat)
    | Add(k: nat, level: nat)
    | ExpandBegin
    | RemoveBegin(k: nat, wait: bool)
    | Modify

  function Cur(c: Cpu): (r: nat)
    requires |c.arrays| > 0
  {
    |c.arrays| - 1
  }

  /** The installed cyclics array. */
  function Cyc(c: Cpu): seq<Cyclic>
    requires |c.arrays| > 0
  {
    c.arrays[|c.arrays| - 1]
  }

  const IDLE_THREAD := Thread(Idle, 0, 0, 0, 0, 0, 0, -1, 0, 0, 0, false, false)

  /** cyclic_configure: room for one cyclic, one-entry buffers, nothing pending. */
  function Init(): State {
    var lv := Level(0, 0, [Pc([0], 0, 0, 0, true), Pc([], 0, 0, 0, false)], false, 0, IDLE_THREAD);
    State(Cpu(Online, [[Cyclic(true, LOW, -1, 0)]], 0, 0, 0, 0, 0), [lv, lv], MIdle, [], [])
  }

  /** Array pointers and slot numbers that can be dereferenced without touching freed memory. */
  predicate Points(c: Cpu, arr: nat, ndx: nat) {
    c.freed <= arr < |c.arrays| && ndx < |c.arrays[arr]|
  }

  /** The buffer the activation cached is still there and its masked index is in range. */
  predicate BufPoints(lv: Level) {
    var t := lv.th;
    && t.soft < |lv.b| && lv.b[t.soft].live && lv.b[t.soft].gen == t.bgen
    && 0 < t.size == |lv.b[t.soft].buf|
  }

  /** The next access of an activation is defined: it dereferences only live memory. */
  predicate SoftEnabled(c: Cpu, lv: Level, regs: nat) {
    var t := lv.th;
    match t.pc
    case Idle => false
    case Load => t.soft < |lv.b|
    case Check => t.soft < |lv.b|
    case ReadSlot => BufPoints(lv)
    case ReadHandler => Points(c, t.arr, t.ndx)
    case InHandler => 0 <= t.reg < regs
    case Reread => Points(c, t.arr, t.ndx)
    case Recapture => BufPoints(lv)
    case Cas => Points(c, t.arr, t.ndx)
    case RemRead => Points(c, t.arr, t.ndx)
    case RemIn => 0 <= t.reg < regs && t.left > 0
    case StoreCons => t.soft < |lv.b|
    case _ => true
  }

  predicate Enabled(s: State, st: Step) {
    && |s.cpu.arrays| > 0 && |s.lvl| == 2
    && (forall l :: 0 <= l < 2 ==> |s.lvl[l].b| == 2 && s.lvl[l].hard < 2 && s.lvl[l].soft < 2)
    && match st
       case Expire(k) =>
         && k < |Cyc(s.cpu)| && !Cyc(s.cpu)[k].free && 0 <= Cyc(s.cpu)[k].reg < |s.exp|
         && Cyc(s.cpu)[k].reg < |s.calls| && Cyc(s.cpu)[k].level <= HIGH
         && (Cyc(s.cpu)[k].level < HIGH ==>
               var lv := s.lvl[Cyc(s.cpu)[k].level]; |lv.b[lv.hard].buf| > 0)
       case Begin(l) => l < 2 && s.lvl[l].th.pc.Idle?
       case Soft(l) => l < 2 && SoftEnabled(s.cpu, s.lvl[l], |s.calls|)
       case Add(k, level) => s.mod.MIdle? && k < |Cyc(s.cpu)| && Cyc(s.cpu)[k].free && level <= HIGH
       case ExpandBegin => s.mod.MIdle? && forall k :: 0 <= k < |Cyc(s.cpu)| ==> !Cyc(s.cpu)[k].free
       case RemoveBegin(k, _) => s.mod.MIdle? && k < |Cyc(s.cpu)| && !Cyc(s.cpu)[k].free
       case Modify => ModEnabled(s)
  }

  predicate ModEnabled(s: State)
    requires |s.cpu.arrays| > 0
  {
    match s.mod
    case MIdle => false
    case EWait => s.cpu.sem > 0
    case RXcall(k, _) => k < |Cyc(s.cpu)|
    case RWait(_) => s.cpu.sem > 0
    case _ => true
  }

  function SetCyc(c: Cpu, k: nat, y: Cyclic): Cpu
    requires |c.arrays| > 0 && k < |Cyc(c)|
  {
    c.(arrays := c.arrays[|c.arrays| - 1 := Cyc(c)[k := y]])
  }

  function SetTh(s: State, l: nat, t: Thread): State
    requires l < |s.lvl|
  {
    s.(lvl := s.lvl[l := s.lvl[l].(th := t)])
  }

  /** Stores `ndx` at the producer index and bumps it. */
  function Push(p: Pc, ndx: nat): Pc
    requires |p.buf| > 0
  {
    p.(buf := p.buf[p.prod % |p.buf| := ndx], prod := p.prod + 1)
  }

  /** cyclic_expire on slot k. */
  function DoExpire(s: State, k: nat): State
    requires Enabled(s, Expire(k))
  {
    var y := Cyc(s.cpu)[k];
    var s1 := s.(exp := s.exp[y.reg := s.exp[y.reg] + 1]);
    if y.level == HIGH then
      s1.(calls := s.calls[y.reg := s.calls[y.reg] + 1])
    else
      var lv := s.lvl[y.level];
      var lv1 := if y.pend == 0 then lv.(b := lv.b[lv.hard := Push(lv.b[lv.hard], k)]) else lv;
      var pend := if y.pend == UINT32_MAX then UINT32_MAX else y.pend + 1;
      s1.(cpu := SetCyc(s.cpu, k, y.(pend := pend)), lvl := s.lvl[y.level := lv1.(posted := true)])
  }

  /** A 32-bit quantity read back as a signed int. */
  function Int32(x: int): int {
    if x <= INT32_MAX then x else x - UINT32_MAX - 1
  }

  /** The next access of the activation is a load (or a compare-and-swap that fails). */
  predicate OnlyReads(c: Cpu, lv: Level) {
    var t := lv.th;
    match t.pc
    case Idle => false
    case InHandler => false
    case Cas => Points(c, t.arr, t.ndx) && c.arrays[t.arr][t.ndx].pend != t.pend
    case RemCall => t.left > 0
    case RemIn => false
    case StoreCons => false
    case SetSoft => false
    case AckCas => c.levels != t.lev
    case Post => false
    case _ => true
  }

  /** The activation's locals after such a load. */
  function Look(c: Cpu, lv: Level, regs: nat): Thread
    requires |c.arrays| > 0 && |lv.b| == 2 && SoftEnabled(c, lv, regs) && OnlyReads(c, lv)
  {
    var t := lv.th;
    match t.pc
    case Top => t.(pc := Load, soft := lv.soft)
    case Load => var p := lv.b[t.soft]; t.(pc := Check, bgen := p.gen, size := |p.buf|, cons := p.cons)
    case Check => t.(pc := if t.cons != lv.b[t.soft].prod then ReadSlot else CheckHard)
    case ReadSlot => t.(pc := ReadHandler, ndx := Entry(lv.b[t.soft], t.cons))
    case ReadHandler => t.(pc := Call, reg := c.arrays[t.arr][t.ndx].reg)
    case Call => t.(pc := InHandler)
    case Reread => var pend := c.arrays[t.arr][t.ndx].pend; t.(pc := if pend == 0 then ReadState else Cas, pend := pend)
    case ReadState => t.(pc := if c.state.Removing? then RemRead else Recapture)
    case Recapture => t.(pc := Reread, arr := Cur(c), ndx := Entry(lv.b[t.soft], t.cons), intrResized := true)
    case Cas => t.(pc := Reread)
    case RemRead => t.(pc := RemCall, reg := c.arrays[t.arr][t.ndx].reg, left := if c.rpend == 0
        then UINT32_MAX else c.rpend - 1)
    case RemCall => t.(pc := RemIn)
    case CheckHard => t.(pc := if t.soft != lv.hard then Grow else if t.resized then AckRead else Idle)
    case Grow => t.(pc := SetSoft, arr := Cur(c))
    case AckRead => t.(pc := AckCas, lev := c.levels)
    case AckCas => t.(pc := AckRead)
  }

  /** One shared access of the activation at level l. */
  function DoSoft(s: State, l: nat): State
    requires Enabled(s, Soft(l))
  {
    var c, lv, t := s.cpu, s.lvl[l], s.lvl[l].th;
    if OnlyReads(c, lv) then SetTh(s, l, Look(c, lv, |s.calls|))
    else
      match t.pc
      case InHandler => SetTh(s, l, t.(pc := Reread)).(calls := s.calls[t.reg := s.calls[t.reg] + 1])
      case Cas =>
        var npend := if t.pend == 0 then UINT32_MAX else t.pend - 1;
        var y := c.arrays[t.arr][t.ndx].(pend := npend);
        SetTh(s, l, t.(pc := if Int32(npend) > 0 then Call else StoreCons))
        .(cpu := c.(arrays := c.arrays[t.arr := c.arrays[t.arr][t.ndx := y]]))
      case RemCall => SetTh(s, l, t.(pc := StoreCons)).(cpu := c.(sem := c.sem + 1))
      case RemIn =>
        SetTh(s, l, t.(pc := RemCall, left := t.left - 1)).(calls := s.calls[t.reg := s.calls[t.reg] + 1])
      case StoreCons =>
        var p := lv.b[t.soft].(cons := t.cons + 1);
        s.(lvl := s.lvl[l := lv.(b := lv.b[t.soft := p], th := t.(pc := Check, cons := t.cons + 1))])
      case SetSoft => s.(lvl := s.lvl[l := lv.(soft := lv.hard, th := t.(pc := Top, resized := true))])
      case AckCas =>
        s.(cpu := c.(levels := t.lev + 1), lvl := s.lvl[l := lv.(acks := lv.acks + 1, th := t.(pc := Post))])
      case Post =>
        var s1 := SetTh(s, l, t.(pc := Idle));
        if t.lev + 1 == 2 then s1.(cpu := c.(sem := c.sem + 1, posts := c.posts + 1))
        else if l != LOW then s1.(lvl := s1.lvl[l - 1 := s1.lvl[l - 1].(posted := true)])
        else s1
  }

  /** The array cyclic_expand_xcall installs: the old contents, then as many free slots again. */
  function Doubled(y: seq<Cyclic>): seq<Cyclic> {
    y + seq(|y|, i => Cyclic(true, LOW, -1, 0))
  }

  function Zeroed(y: seq<Cyclic>): seq<Cyclic> {
    seq(|y|, i requires 0 <= i < |y| => y[i].(pend := 0))
  }

  /** The new buffers cyclic_expand allocates beside the active ones. */
  function Grown(lv: Level, size: nat, gen: nat): Level
    requires |lv.b| == 2 && lv.hard < 2
  {
    lv.(b := lv.b[1 - lv.hard := Pc(seq(size, i => 0), 0, 0, gen, true)])
  }

  /** cyclic_expand_xcall. */
  function DoExpandXcall(s: State): State
    requires Enabled(s, Modify) && s.mod.EXcall?
  {
    var c := s.cpu;
    var arrays := c.arrays[Cur(c) := Zeroed(Cyc(c))] + [Doubled(Cyc(c))];
    s.(cpu := c.(arrays := arrays),
       lvl := [s.lvl[0].(hard := 1 - s.lvl[0].hard), s.lvl[1].(hard := 1 - s.lvl[1].hard, posted := true)],
       mod := EWait)
  }

  /** cyclic_remove_xcall, as far as the protocol sees it. */
  function DoRemoveXcall(s: State): State
    requires Enabled(s, Modify) && s.mod.RXcall?
  {
    var k := s.mod.k;
    var y := Cyc(s.cpu)[k];
    if y.pend != 0 && !s.mod.wait then s.(mod := RFail(s.mod.wait))
    else
      var c1 := SetCyc(s.cpu, k, y.(free := true, pend := 0));
      s.(cpu := if y.pend != 0 then c1.(rpend := y.pend) else c1, mod := RCheck(k, s.mod.wait))
  }

  function Freed(lv: Level): Level
    requires |lv.b| == 2 && lv.hard < 2
  {
    lv.(b := lv.b[1 - lv.hard := lv.b[1 - lv.hard].(live := false)])
  }

  /** One action of cyclic_expand or cyclic_remove_here. */
  function DoModify(s: State): State
    requires Enabled(s, Modify)
  {
    var c := s.cpu;
    match s.mod
    case EAlloc =>
      var n, g := 2 * |Cyc(c)|, |c.arrays|;
      s.(cpu := c.(levels := 0), lvl := [Grown(s.lvl[0], n, g), Grown(s.lvl[1], n, g)], mod := EXcall)
    case EXcall => DoExpandXcall(s)
    case EWait => s.(cpu := c.(sem := c.sem - 1), mod := EFree)
    case EFree => s.(cpu := c.(freed := Cur(c)), lvl := [Freed(s.lvl[0]), Freed(s.lvl[1])], mod := EDone)
    case EDone => s.(cpu := c.(state := Online), mod := MIdle)
    case RXcall(_, _) => DoRemoveXcall(s)
    case RFail(_) => s.(cpu := c.(state := Online), mod := MIdle)
    case RCheck(k, _) => s.(mod := if c.rpend != 0 then RWait(k) else RClear(k))
    case RWait(k) => s.(cpu := c.(sem := c.sem - 1), mod := RClear(k))
    case RClear(k) => s.(cpu := c.(rpend := 0), mod := RDone(k))
    case RDone(k) => s.(cpu := c.(state := Online), mod := MIdle)
  }

  function Do(s: State, st: Step): State
    requires Enabled(s, st)
  {
    match st
    case Expire(k) => DoExpire(s, k)
    case Begin(l) =>
      s.(lvl := s.lvl[l := s.lvl[l].(posted := false, th := IDLE_THREAD.(pc := Top, arr := Cur(s.cpu)))])
    case Soft(l) => DoSoft(s, l)
    case Add(k, level) =>
      s.(cpu := SetCyc(s.cpu, k, Cyc(s.cpu)[k].(free := false, level := level, reg := |s.exp|)),
         exp := s.exp + [0], calls := s.calls + [0])
    case ExpandBegin => s.(cpu := s.cpu.(state := Expanding), mod := EAlloc)
    case RemoveBegin(k, wait) => s.(cpu := s.cpu.(state := Removing), mod := RXcall(k, wait))
    case Modify => DoModify(s)
  }
}
