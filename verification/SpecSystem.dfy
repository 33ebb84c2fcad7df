/**
 One DTrace speculation on any number of CPUs, as a step system.

 Each CPU runs at most one activity at a time, with interrupts disabled: speculation(), speculate(), commit(),
 discard(), or the cleaner's cross call.  A step is one access to the speculation's state word (a load or a
 compare-and-swap) or one store to the CPU's own buffer.  The cleaner runs beside them.
 */
module SpecSystem {
  import opened Counting

  datatype SpecState = Inactive | Active | ActiveOne | ActiveMany | Committing | CommittingMany | Discarding

  /** A speculatively traced record: its identity and the activation it was traced under. */
  datatype Rec = Rec(id: nat, inc: nat)

  /** Where a CPU stands.  `Filling` holds the buffer: it has reserved after `base` and will store a record of
      activation `tag`. */
  datatype Pc =
    | Idle
    | ActRead | ActCas
    | BufRead | BufCas(cur: SpecState, nxt: SpecState) | Filling(tag: nat, base: seq<Rec>)
    | ComRead | ComCas(cur: SpecState, nxt: SpecState) | ComCopy(one: bool) | ComRelease | ComReset
    | DisRead | DisCas(cur: SpecState, nxt: SpecState) | DisReset
    | ClnRead | ClnReset | ClnLast

  datatype Held = None | Some(tag: nat, base: seq<Rec>)

  /** One CPU: its activity (`clean` when run by the cleaner's cross call, `held` when a discard interrupts a
      fill), its speculative buffer, and what it has copied into its principal buffer. */
  datatype Cpu = Cpu(pc: Pc, clean: bool, held: Held, buf: seq<Rec>, out: seq<Rec>)

  datatype Cleaner = CIdle | CWait | CRead | CCas(cur: SpecState)

  /** What became of each record; `c` is the CPU. */
  datatype Place = InBuf(c: nat) | Out(c: nat) | Dropped | Thrown(c: nat)

  /** The speculation, the cleaner, and the history the properties speak about: the number of activations, the
      CPU that took the speculation out of Active, the number of records, the discarded activations, and where
      each record is. */
  datatype Shared = Shared(
    spec: SpecState, cleaning: bool, cl: Cleaner, todo: set<nat>,
    inc: nat, owner: nat, next: nat, discarded: set<nat>, place: map<nat, Place>)

  datatype State = State(sh: Shared, cpus: seq<Cpu>)

  datatype Op = Activate | Speculate | Commit | Discard | Clean

  /** `yes` resolves what the model leaves open: whether a fill stores its record, and whether the principal
      buffer has room; `go` whether the cleaner has other work. */
  datatype Step =
    | Start(c: nat, op: Op)
    | Go(c: nat, yes: bool)
    | CleanGo(go: bool)

  function Init(n: nat): State {
    State(Shared(Inactive, false, CIdle, {}, 0, 0, 0, {}, map[]), seq(n, i => Cpu(Idle, false, None, [], [])))
  }

  predicate Enabled(s: State, st: Step) {
    match st
    case Start(c, op) =>
      && c < |s.cpus|
      && (match op
          case Clean => s.cpus[c].pc.Idle? && c in s.sh.todo
          case Discard => s.cpus[c].pc.Idle? || s.cpus[c].pc.Filling?
          case _ => s.cpus[c].pc.Idle?)
    case Go(c, _) => c < |s.cpus| && !s.cpus[c].pc.Idle?
    case CleanGo(_) => s.sh.cl.CWait? ==> s.sh.todo == {}
  }

  function Begin(k: Cpu, op: Op): Cpu {
    match op
    case Activate => k.(pc := ActRead)
    case Speculate => k.(pc := BufRead)
    case Commit => k.(pc := ComRead)
    case Discard => k.(pc := DisRead, held := if k.pc.Filling? then Some(k.pc.tag, k.pc.base) else None)
    case Clean => k.(pc := ClnRead, clean := true)
  }

  function SetCpu(s: State, c: nat, k: Cpu): State
    requires c < |s.cpus|
  {
    s.(cpus := s.cpus[c := k])
  }

  /** dtrace_speculation_buffer after reading the state word. */
  function BufLook(sh: Shared, k: Cpu): Cpu {
    match sh.spec
    case Active => k.(pc := BufCas(Active, ActiveOne))
    case ActiveOne => if k.buf != [] then k.(pc := Filling(sh.inc, k.buf)) else k.(pc := BufCas(ActiveOne, ActiveMany))
    case ActiveMany => k.(pc := Filling(sh.inc, k.buf))
    case _ => k.(pc := Idle)
  }

  /** dtrace_speculation_commit after reading the state word. */
  function ComLook(sh: Shared, k: Cpu): Cpu {
    match sh.spec
    case CommittingMany => k.(pc := ComCopy(false))
    case Active => k.(pc := ComCas(Active, Committing))
    case ActiveOne => k.(pc := ComCas(ActiveOne, if k.buf != [] then Committing else CommittingMany))
    case ActiveMany => k.(pc := ComCas(ActiveMany, CommittingMany))
    case _ => k.(pc := Idle, clean := false)
  }

  /** dtrace_speculation_discard after reading the state word. */
  function DisLook(sh: Shared, k: Cpu): Cpu {
    match sh.spec
    case Active => k.(pc := DisCas(Active, Discarding))
    case ActiveMany => k.(pc := DisCas(ActiveMany, Discarding))
    case ActiveOne => k.(pc := DisCas(ActiveOne, if k.buf != [] then Inactive else Discarding))
    case _ => Resume(k)
  }

  /** A discard returns to the fill it interrupted, if any. */
  function Resume(k: Cpu): Cpu {
    if k.held.Some? then k.(pc := Filling(k.held.tag, k.held.base), held := None) else k.(pc := Idle)
  }

  function Sent(place: map<nat, Place>, rs: seq<Rec>, p: Place): map<nat, Place> {
    place + map r | r in rs :: r.id := p
  }

  /** The shared state after CPU c's next step. */
  function GoShared(sh: Shared, c: nat, k: Cpu, yes: bool): Shared {
    match k.pc
    case ActCas => if sh.spec.Inactive? then sh.(spec := Active, inc := sh.inc + 1) else sh
    case BufCas(cur, nxt) =>
      if sh.spec != cur then sh else sh.(spec := nxt, owner := if nxt.ActiveOne? then c else sh.owner)
    case Filling(tag, base) =>
      if yes then sh.(next := sh.next + 1, place := Sent(sh.place, base, InBuf(c))[sh.next := InBuf(c)]) else sh
    case ComCas(cur, nxt) =>
      if sh.spec != cur then sh else sh.(spec := nxt, owner := if nxt.Committing? then c else sh.owner)
    case ComCopy(_) => sh.(place := Sent(sh.place, k.buf, if yes then Out(c) else Dropped))
    case ComRelease => if sh.spec.Committing? then sh.(spec := Inactive) else sh
    case ComReset => if k.clean then sh.(todo := sh.todo - {c}) else sh
    case DisCas(cur, nxt) => if sh.spec != cur then sh else sh.(spec := nxt, discarded := sh.discarded + {sh.inc})
    case DisReset => sh.(place := Sent(sh.place, k.buf, Thrown(c)))
    case ClnReset => sh.(place := Sent(sh.place, k.buf, Thrown(c)), todo := sh.todo - {c})
    case ClnLast => if sh.spec.CommittingMany? && k.buf != [] then sh else sh.(todo := sh.todo - {c})
    case _ => sh
  }

  /** CPU c after its next step. */
  function GoCpu(sh: Shared, k: Cpu, yes: bool): Cpu {
    match k.pc
    case Idle => k
    case ActRead => k.(pc := if sh.spec.Inactive? then ActCas else Idle)
    case ActCas => k.(pc := if sh.spec.Inactive? then Idle else ActRead)
    case BufRead => BufLook(sh, k)
    case BufCas(cur, nxt) => k.(pc := if sh.spec != cur then BufRead else Filling(sh.inc, k.buf))
    case Filling(tag, base) => if yes then k.(pc := Idle, buf := base + [Rec(sh.next, tag)]) else k.(pc := Idle)
    case ComRead => ComLook(sh, k)
    case ComCas(cur, nxt) => k.(pc := if sh.spec != cur then ComRead else ComCopy(nxt.Committing?))
    case ComCopy(one) => k.(pc := if one then ComRelease else ComReset, out := if yes then k.out + k.buf else k.out)
    case ComRelease => k.(pc := ComReset)
    case ComReset => k.(pc := Idle, clean := false, buf := [])
    case DisRead => DisLook(sh, k)
    case DisCas(cur, nxt) => k.(pc := if sh.spec != cur then DisRead else DisReset)
    case DisReset => Resume(k.(buf := []))
    case ClnRead => k.(pc := if sh.spec.Discarding? then ClnReset else ClnLast)
    case ClnReset => k.(pc := Idle, clean := false, buf := [])
    case ClnLast => if sh.spec.CommittingMany? && k.buf != [] then k.(pc := ComRead) else k.(pc := Idle, clean := false)
  }

  /** dtrace_speculation_clean. */
  function DoClean(s: State, go: bool): State
    requires Enabled(s, CleanGo(go))
  {
    var sh := s.sh;
    match sh.cl
    case CIdle =>
      if sh.spec.Discarding? || sh.spec.CommittingMany? then
        s.(sh := sh.(cleaning := true, cl := CWait, todo := Below(|s.cpus|)))
      else if go then s.(sh := sh.(cl := CWait, todo := Below(|s.cpus|)))
      else s
    case CWait => s.(sh := sh.(cl := if sh.cleaning then CRead else CIdle))
    case CRead => s.(sh := sh.(cl := CCas(sh.spec)))
    case CCas(cur) =>
      if sh.spec == cur then s.(sh := sh.(spec := Inactive, cleaning := false, cl := CIdle))
      else s.(sh := sh.(cleaning := false, cl := CIdle))
  }

  function Do(s: State, st: Step): State
    requires Enabled(s, st)
  {
    match st
    case Start(c, op) => SetCpu(s, c, Begin(s.cpus[c], op))
    case Go(c, yes) => SetCpu(s, c, GoCpu(s.sh, s.cpus[c], yes)).(sh := GoShared(s.sh, c, s.cpus[c], yes))
    case CleanGo(go) => DoClean(s, go)
  }
}
