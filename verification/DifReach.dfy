/** Where a validated program can get to: its control flow with the data forgotten, and which runs follow it. */
module DifReach {
  import opened Dif
  import opened DifRun

  /** What is known of a register. */
  datatype Bit = Zero | NonZero | Any

  /** The condition codes, unless they come from registers of which too little is known. */
  datatype Codes = Known(cc: Cc) | Unknown

  /** A machine with most of its data forgotten. */
  datatype Node = Node(pc: nat, codes: Codes, ttop: nat, bits: seq<Bit>)

  const CLEAR := Cc(false, false, false, false)
  const ZERO := Cc(false, true, false, false)
  const NEGATIVE := Cc(true, false, false, false)

  const ENTRY := Node(0, Known(CLEAR), 0, [Zero, Any, Any, Any, Any, Any, Any, Any])

  predicate Fits(b: Bit, v: Word) { (b.Zero? ==> v == 0) && (b.NonZero? ==> v != 0) }

  /** The machine stands at the node and runs. */
  predicate Stands<W>(s: State<W>, n: Node) {
    && s.fault.NoFault? && s.pc == n.pc && s.ttop == n.ttop && (n.codes.Known? ==> s.cc == n.codes.cc)
    && |n.bits| == |s.regs| && forall r :: 0 <= r < |s.regs| ==> Fits(n.bits[r], s.regs[r])
  }

  function At(n: Node, r: nat): Bit { if r < |n.bits| then n.bits[r] else Any }

  function Put(n: Node, r: nat, b: Bit): Node { if r < |n.bits| then n.(bits := n.bits[r := b]) else n }

  /** The register gets what is in memory or in a variable. */
  predicate Supplied(i: Instr) {
    || IsLoad(i.op) || IsCheckedLoad(i.op) || IsUserLoad(i.op)
    || (IsVarLoad(i.op) && (i.op == LDLS ==> VAR_OTHER_UBASE <= Index(i)))
  }

  /** The register gets what is computed from other registers, tables or subroutines. */
  predicate Computed(op: nat) {
    IsAlu(op) || op == NOT || op == SETX || op == SETS || op == LDGA || op == LDLS || op == CALL || op == ALLOCS
  }

  /** Where a turn can lead without a fault: nowhere after a ret, an ldta, a division by zero or a push on a full
      stack. */
  function Follows(i: Instr, n: Node): set<Node> {
    var next := n.(pc := n.pc + 1);
    if i.op == RET || i.op == LDTA || (IsDivide(i.op) && At(n, i.r2).Zero?) then {}
    else if IsBranch(i.op) then
      if i.op == BA then {n.(pc := Label(i))}
      else if n.codes.Unknown? then {next, n.(pc := Label(i))}
      else if Taken(i.op, n.codes.cc) then {n.(pc := Label(i))} else {next}
    else if i.op == SCMP then
      {next.(codes := Known(CLEAR)), next.(codes := Known(ZERO)), next.(codes := Known(NEGATIVE))}
    else if i.op == CMP then {next.(codes := Unknown)}
    else if i.op == TST then {next.(codes := Tested(At(n, i.r1)))}
    else if i.op == PUSHTR || i.op == PUSHTV then if n.ttop == NTUPLE then {} else {next.(ttop := n.ttop + 1)}
    else if i.op == POPTS then {next.(ttop := if n.ttop != 0 then n.ttop - 1 else 0)}
    else if i.op == FLUSHTS then {next.(ttop := 0)}
    else if i.op == MOV then {Put(next, i.rd, At(n, i.r1))}
    else if Supplied(i) then {Put(next, i.rd, Zero), Put(next, i.rd, NonZero)}
    else if Computed(i.op) then {Put(next, i.rd, Any)}
    else {next}
  }

  function Tested(b: Bit): Codes {
    match b
    case Zero => Known(ZERO)
    case NonZero => Known(CLEAR)
    case Any => Unknown
  }

  /** Where the turn leads is known: whether it divides by zero and, if it branches, the codes. */
  predicate Sure(i: Instr, n: Node) {
    (IsDivide(i.op) ==> !At(n, i.r2).Any?) && (IsBranch(i.op) && i.op != BA ==> n.codes.Known?)
  }

  /** Where turns at the instruction at pc lead from these nodes; if `sure`, sure turns only. */
  function Onward(nodes: set<Node>, i: Instr, pc: nat, sure: bool): set<Node> {
    set n, m | n in nodes && n.pc == pc && (sure ==> Sure(i, n)) && m in Follows(i, n) :: m
  }

  /** The nodes reached by turns at the first k instructions. */
  function Reach(text: seq<Instr>, k: nat, sure: bool): set<Node>
    requires k <= |text|
  {
    if k == 0 then {ENTRY}
    else
      var before := Reach(text, k - 1, sure);
      before + Onward(before, text[k - 1], k - 1, sure)
  }

  lemma {:induction false} ReachGrows(text: seq<Instr>, j: nat, k: nat, sure: bool)
    requires j <= k <= |text|
    ensures Reach(text, j, sure) <= Reach(text, k, sure)
    decreases k
  {
    hide Onward;
    if j < k {
      ReachGrows(text, j, k - 1, sure);
    }
  }

  // ---------------------------------------------------------------- every run keeps to the reached nodes

  /** Some node is reached where the machine stands. */
  ghost predicate Tracked<W>(text: seq<Instr>, s: State<W>) {
    s.pc < |text| && exists n :: n in Reach(text, s.pc, false) && Stands(s, n)
  }

  /** The node where a turn has led. */
  function Image<W>(i: Instr, n: Node, s: State<W>): Node
    requires |n.bits| == |s.regs|
  {
    var m := Node(s.pc, if i.op == CMP then Unknown else if i.op == TST then Tested(At(n, i.r1))
                        else if i.op == SCMP then Known(s.cc) else n.codes, s.ttop, n.bits);
    if i.op == MOV then Put(m, i.rd, At(n, i.r1))
    else if Supplied(i) then Put(m, i.rd, if i.rd < |s.regs| && s.regs[i.rd] == 0 then Zero else NonZero)
    else if Computed(i.op) then Put(m, i.rd, Any)
    else m
  }

  /** A turn that neither faults nor ends the program goes to a following node. */
  ghost predicate GoesOn<W>(env: Env<W>, len: nat, s: State<W>, i: Instr, n: Node)
    requires InRange(env, s, i) && Bytes(i) && Stands(s, n)
  {
    var s' := Step(env, len, s, i);
    !Stopped(len, s') ==> |s'.regs| == |n.bits| && Image(i, n, s') in Follows(i, n) && Stands(s', Image(i, n, s'))
  }

  lemma CalcGoesOn<W>(env: Env<W>, len: nat, s: State<W>, i: Instr, n: Node)
    requires InRange(env, s, i) && Bytes(i) && Stands(s, n) && i.op <= 14
    ensures GoesOn(env, len, s, i, n)
  {
    hide Alu, Tuple, Index, Label, Taken;
  }

  lemma BranchGoesOn<W>(env: Env<W>, len: nat, s: State<W>, i: Instr, n: Node)
    requires InRange(env, s, i) && Bytes(i) && Stands(s, n) && 15 <= i.op <= 27
    ensures GoesOn(env, len, s, i, n)
  {
    hide Alu, Tuple, Index, Label;
  }

  lemma LoadGoesOn<W>(env: Env<W>, len: nat, s: State<W>, i: Instr, n: Node)
    requires InRange(env, s, i) && Bytes(i) && Stands(s, n) && (28 <= i.op <= 34 || 64 <= i.op)
    ensures GoesOn(env, len, s, i, n)
  {
    hide Alu, Tuple, Index, Label, Taken, Width;
  }

  lemma SetGoesOn<W>(env: Env<W>, len: nat, s: State<W>, i: Instr, n: Node)
    requires InRange(env, s, i) && Bytes(i) && Stands(s, n) && (35 <= i.op <= 39 || 48 <= i.op <= 51)
    ensures GoesOn(env, len, s, i, n)
  {
    hide Alu, Tuple, Index, Label, Taken;
  }

  lemma VarGoesOn<W>(env: Env<W>, len: nat, s: State<W>, i: Instr, n: Node)
    requires InRange(env, s, i) && Bytes(i) && Stands(s, n) && 40 <= i.op <= 47
    ensures GoesOn(env, len, s, i, n)
  {
    hide Alu, Tuple, Index, Label, Taken;
  }

  lemma StoreGoesOn<W>(env: Env<W>, len: nat, s: State<W>, i: Instr, n: Node)
    requires InRange(env, s, i) && Bytes(i) && Stands(s, n) && 52 <= i.op <= 63
    ensures GoesOn(env, len, s, i, n)
  {
    hide Alu, Tuple, Index, Label, Taken;
  }

  lemma TurnGoesOn<W>(env: Env<W>, len: nat, s: State<W>, i: Instr, n: Node)
    requires InRange(env, s, i) && Bytes(i) && Stands(s, n)
    ensures GoesOn(env, len, s, i, n)
  {
    hide Step, InRange, Bytes, Stands, GoesOn;
    if i.op <= 14 {
      CalcGoesOn(env, len, s, i, n);
    } else if i.op <= 27 {
      BranchGoesOn(env, len, s, i, n);
    } else if i.op <= 34 || 64 <= i.op {
      LoadGoesOn(env, len, s, i, n);
    } else if i.op <= 39 || 48 <= i.op <= 51 {
      SetGoesOn(env, len, s, i, n);
    } else if i.op <= 47 {
      VarGoesOn(env, len, s, i, n);
    } else {
      StoreGoesOn(env, len, s, i, n);
    }
  }

  lemma TurnTracked<W>(env: Env<W>, d: Difo, s: State<W>)
    requires Valid(d, NREGS) && AllBytes(d.text) && Tables(env, d.intlen, d.strlen) && Good(|d.text|, s)
    requires Tracked(d.text, s) && InRange(env, s, d.text[s.pc]) && Bytes(d.text[s.pc])
    requires s.pc < Step(env, |d.text|, s, d.text[s.pc]).pc && !Stopped(|d.text|, Step(env, |d.text|, s, d.text[s.pc]))
    ensures Tracked(d.text, Step(env, |d.text|, s, d.text[s.pc]))
  {
    hide Step, Valid, InRange, Bytes, Follows, Stands, Reach;
    var i, s' := d.text[s.pc], Step(env, |d.text|, s, d.text[s.pc]);
    var n :| n in Reach(d.text, s.pc, false) && Stands(s, n);
    TurnGoesOn(env, |d.text|, s, i, n);
    StandsAt(s, n);
    var m := Image(i, n, s');
    Reached(d.text, n, m, false);
    ReachGrows(d.text, s.pc + 1, s'.pc, false);
  }

  lemma StandsAt<W>(s: State<W>, n: Node)
    requires Stands(s, n)
    ensures s.pc == n.pc && |n.bits| == |s.regs|
  {
  }

  lemma Reached(text: seq<Instr>, n: Node, m: Node, sure: bool)
    requires n.pc < |text| && n in Reach(text, n.pc, sure) && m in Follows(text[n.pc], n)
    requires sure ==> Sure(text[n.pc], n)
    ensures m in Reach(text, n.pc + 1, sure)
  {
    hide Follows, Sure;
  }

  /** A run from a tracked machine stands at reached nodes until it stops. */
  lemma {:induction false} RunTracked<W>(env: Env<W>, d: Difo, s: State<W>, k: nat)
    requires Valid(d, NREGS) && AllBytes(d.text) && Tables(env, d.intlen, d.strlen) && Good(|d.text|, s)
    requires !Stopped(|d.text|, s) ==> Tracked(d.text, s)
    ensures !Stopped(|d.text|, Run(env, d, s, k)) ==> Tracked(d.text, Run(env, d, s, k))
    decreases k
  {
    hide Step, Valid, InRange, Bytes, Tracked;
    if k > 0 && !Stopped(|d.text|, s) {
      StepSafe(env, d, s);
      var s' := Step(env, |d.text|, s, d.text[s.pc]);
      if !Stopped(|d.text|, s') {
        TurnTracked(env, d, s);
      }
      RunTracked(env, d, s', k - 1);
    }
  }

  /** Whatever the environment, the registers and the world, the emulator is only ever at instructions in the reach
      set. */
  lemma RunReaches<W>(env: Env<W>, d: Difo, regs: seq<Word>, tup: seq<Key>, world: W, k: nat)
    requires Valid(d, NREGS) && AllBytes(d.text) && Tables(env, d.intlen, d.strlen)
    requires |regs| == NREGS && |tup| == NTUPLE + 2
    ensures var r := Run(env, d, Start(|d.text|, regs, tup, world), k);
            !Stopped(|d.text|, r) ==> r.pc < |d.text| && exists n :: n in Reach(d.text, |d.text|, false) && Stands(r, n)
  {
    hide Valid, Run;
    var s := Start(|d.text|, regs, tup, world);
    if !Stopped(|d.text|, s) {
      assert Stands(s, ENTRY) && ENTRY in Reach(d.text, 0, false);
    }
    RunTracked(env, d, s, k);
    var r := Run(env, d, s, k);
    if !Stopped(|d.text|, r) {
      ReachGrows(d.text, r.pc, |d.text|, false);
    }
  }

  // ---------------------------------------------------------------- every surely reached node is stood at

  /** The world as a list of what the coming loads and string comparisons find. */
  type Script = seq<Word>

  /** The next entry of the script. */
  function Next(w: Script): Effect<Script> {
    if w == [] then Effect(w, 0, false) else Effect(w[1..], w[0], false)
  }

  /** Nothing faults, and each load and string comparison takes its result from the script. */
  function Scripted(d: Difo): (env: Env<Script>)
    ensures Tables(env, d.intlen, d.strlen)
  {
    Env(seq(d.intlen, _ => 0), 0, d.strlen, (op, a, b) => 0, (w, n, a) => Next(w), (w, n, a) => Next(w),
        (w, a, n) => true,
        (w, i: Instr, regs, tup, ttop) => if i.op == SCMP || Supplied(i) then Next(w) else Effect(w, 0, false), 0)
  }

  /** What the script must hold before a turn so that it leads to m and the rest is left. */
  function Feed(i: Instr, m: Node, rest: Script): Script {
    if i.op == SCMP then
      [if m.codes.Unknown? then 0 else if m.codes.cc.z then 0 else if m.codes.cc.n then WORDS - 1 else 1] + rest
    else if Supplied(i) then [if At(m, i.rd).Zero? then 0 else 1] + rest
    else rest
  }

  ghost predicate Goes(d: Difo, s: State<Script>, i: Instr, m: Node, rest: Script)
    requires InRange(Scripted(d), s, i) && Bytes(i)
  {
    var s' := Step(Scripted(d), |d.text|, s, i);
    Stands(s', m) && s'.world == rest
  }

  lemma CalcGoes(d: Difo, s: State<Script>, i: Instr, n: Node, m: Node, rest: Script)
    requires InRange(Scripted(d), s, i) && Bytes(i) && Stands(s, n) && Sure(i, n) && m in Follows(i, n)
    requires s.world == Feed(i, m, rest) && i.op <= 14
    ensures Goes(d, s, i, m, rest)
  {
    hide Alu, Tuple, Index, Label, Taken, Scripted;
  }

  lemma BranchGoes(d: Difo, s: State<Script>, i: Instr, n: Node, m: Node, rest: Script)
    requires InRange(Scripted(d), s, i) && Bytes(i) && Stands(s, n) && Sure(i, n) && m in Follows(i, n)
    requires s.world == Feed(i, m, rest) && 15 <= i.op <= 27
    ensures Goes(d, s, i, m, rest)
  {
    hide Alu, Tuple, Index, Label, Scripted;
  }

  lemma LoadGoes(d: Difo, s: State<Script>, i: Instr, n: Node, m: Node, rest: Script)
    requires InRange(Scripted(d), s, i) && Bytes(i) && Stands(s, n) && Sure(i, n) && m in Follows(i, n)
    requires s.world == Feed(i, m, rest) && (28 <= i.op <= 34 || 64 <= i.op)
    ensures Goes(d, s, i, m, rest)
  {
    hide Alu, Tuple, Index, Label, Taken, Width;
  }

  lemma SetGoes(d: Difo, s: State<Script>, i: Instr, n: Node, m: Node, rest: Script)
    requires InRange(Scripted(d), s, i) && Bytes(i) && Stands(s, n) && Sure(i, n) && m in Follows(i, n)
    requires s.world == Feed(i, m, rest) && (35 <= i.op <= 39 || 48 <= i.op <= 51)
    ensures Goes(d, s, i, m, rest)
  {
    hide Alu, Tuple, Index, Label, Taken;
  }

  lemma VarGoes(d: Difo, s: State<Script>, i: Instr, n: Node, m: Node, rest: Script)
    requires InRange(Scripted(d), s, i) && Bytes(i) && Stands(s, n) && Sure(i, n) && m in Follows(i, n)
    requires s.world == Feed(i, m, rest) && 40 <= i.op <= 47
    ensures Goes(d, s, i, m, rest)
  {
    hide Alu, Tuple, Index, Label, Taken;
  }

  lemma StoreGoes(d: Difo, s: State<Script>, i: Instr, n: Node, m: Node, rest: Script)
    requires InRange(Scripted(d), s, i) && Bytes(i) && Stands(s, n) && Sure(i, n) && m in Follows(i, n)
    requires s.world == Feed(i, m, rest) && 52 <= i.op <= 63
    ensures Goes(d, s, i, m, rest)
  {
    hide Alu, Tuple, Index, Label, Taken;
  }

  /** Fed rightly, a sure turn goes to any node that follows. */
  lemma TurnGoes(d: Difo, s: State<Script>, i: Instr, n: Node, m: Node, rest: Script)
    requires InRange(Scripted(d), s, i) && Bytes(i) && Stands(s, n) && Sure(i, n) && m in Follows(i, n)
    requires s.world == Feed(i, m, rest)
    ensures Goes(d, s, i, m, rest)
  {
    hide Step, InRange, Bytes, Stands, Goes, Follows, Sure, Feed, Scripted;
    if i.op <= 14 {
      CalcGoes(d, s, i, n, m, rest);
    } else if i.op <= 27 {
      BranchGoes(d, s, i, n, m, rest);
    } else if i.op <= 34 || 64 <= i.op {
      LoadGoes(d, s, i, n, m, rest);
    } else if i.op <= 39 || 48 <= i.op <= 51 {
      SetGoes(d, s, i, n, m, rest);
    } else if i.op <= 47 {
      VarGoes(d, s, i, n, m, rest);
    } else {
      StoreGoes(d, s, i, n, m, rest);
    }
  }

  /** One more turn at the end of a run. */
  lemma {:induction false} RunThen<W>(env: Env<W>, d: Difo, s: State<W>, k: nat)
    requires Valid(d, NREGS) && AllBytes(d.text) && Tables(env, d.intlen, d.strlen) && Good(|d.text|, s)
    requires !Stopped(|d.text|, Run(env, d, s, k))
    ensures var r := Run(env, d, s, k);
            InRange(env, r, d.text[r.pc]) && Bytes(d.text[r.pc])
            && Run(env, d, s, k + 1) == Step(env, |d.text|, r, d.text[r.pc])
    decreases k
  {
    hide Step, Valid, InRange, Bytes;
    StepSafe(env, d, Run(env, d, s, k));
    if k > 0 {
      StepSafe(env, d, s);
      RunThen(env, d, Step(env, |d.text|, s, d.text[s.pc]), k - 1);
    }
  }

  const IDLE: seq<Word> := seq(NREGS, _ => 0)
  const BLANK: seq<Key> := seq(NTUPLE + 2, _ => Key(0, 0))

  /** For a surely reached node there is a script after which the emulator stands there. */
  lemma {:induction false} Steer(d: Difo, k: nat, n: Node, rest: Script) returns (w: Script, t: nat)
    requires Valid(d, NREGS) && AllBytes(d.text) && k <= |d.text| && n in Reach(d.text, k, true)
    ensures var r := Run(Scripted(d), d, Start(|d.text|, IDLE, BLANK, w), t); Stands(r, n) && r.world == rest
    decreases k
  {
    hide Step, Valid, InRange, Bytes, Follows, Sure, Scripted, Feed;
    if k == 0 {
      w, t := rest, 0;
    } else if n in Reach(d.text, k - 1, true) {
      w, t := Steer(d, k - 1, n, rest);
    } else {
      var i := d.text[k - 1];
      var m :| m in Reach(d.text, k - 1, true) && m.pc == k - 1 && Sure(i, m) && n in Follows(i, m);
      w, t := Steer(d, k - 1, m, Feed(i, n, rest));
      var s := Start(|d.text|, IDLE, BLANK, w);
      RunThen(Scripted(d), d, s, t);
      TurnGoes(d, Run(Scripted(d), d, s, t), i, m, n, rest);
      t := t + 1;
    }
  }

  // ---------------------------------------------------------------- what holds at every turn

  /** At every turn of every run, the instruction has the property. */
  ghost predicate EveryTurn<W(!new)>(d: Difo, ok: Instr -> bool)
    requires Valid(d, NREGS) && AllBytes(d.text)
  {
    forall env: Env<W>, regs, tup, world, k: nat
      | Tables(env, d.intlen, d.strlen) && |regs| == NREGS && |tup| == NTUPLE + 2 ::
      var r := Run(env, d, Start(|d.text|, regs, tup, world), k);
      !Stopped(|d.text|, r) ==> ok(d.text[r.pc])
  }

  /** Every instruction in the reach set has the property. */
  predicate Throughout(text: seq<Instr>, sure: bool, ok: Instr -> bool) {
    forall n :: n in Reach(text, |text|, sure) && n.pc < |text| ==> ok(text[n.pc])
  }

  /** Wherever the program can get to, it is known where the turn leads. */
  predicate Decided(text: seq<Instr>) {
    forall n :: n in Reach(text, |text|, false) && n.pc < |text| ==> Sure(text[n.pc], n)
  }

  /** What holds throughout the reach set holds at every turn, whatever the world is. */
  lemma ReachedSuffices<W(!new)>(d: Difo, ok: Instr -> bool)
    requires Valid(d, NREGS) && AllBytes(d.text) && Throughout(d.text, false, ok)
    ensures EveryTurn<W>(d, ok)
  {
    hide Valid, Run, Step, Reach;
    forall env: Env<W>, regs, tup, world, k: nat
      | Tables(env, d.intlen, d.strlen) && |regs| == NREGS && |tup| == NTUPLE + 2
      ensures var r := Run(env, d, Start(|d.text|, regs, tup, world), k); !Stopped(|d.text|, r) ==> ok(d.text[r.pc])
    {
      RunReaches(env, d, regs, tup, world, k);
    }
  }

  /** What holds at every turn holds throughout the sure part of it. */
  lemma SureNecessary(d: Difo, ok: Instr -> bool)
    requires Valid(d, NREGS) && AllBytes(d.text) && EveryTurn<Script>(d, ok)
    ensures Throughout(d.text, true, ok)
  {
    hide Valid, Run, Step, Reach, Scripted;
    forall n | n in Reach(d.text, |d.text|, true) && n.pc < |d.text|
      ensures ok(d.text[n.pc])
    {
      var w, t := Steer(d, |d.text|, n, []);
      assert !Stopped(|d.text|, Run(Scripted(d), d, Start(|d.text|, IDLE, BLANK, w), t));
    }
  }

  lemma OnwardSure(nodes: set<Node>, i: Instr, pc: nat)
    requires forall n :: n in nodes && n.pc == pc ==> Sure(i, n)
    ensures Onward(nodes, i, pc, true) == Onward(nodes, i, pc, false)
  {
    hide Follows, Sure;
  }

  lemma {:induction false} DecidedSure(text: seq<Instr>, k: nat)
    requires k <= |text| && Decided(text)
    ensures Reach(text, k, true) == Reach(text, k, false)
    decreases k
  {
    hide Onward, Sure;
    if k > 0 {
      DecidedSure(text, k - 1);
      ReachGrows(text, k - 1, |text|, false);
      OnwardSure(Reach(text, k - 1, false), text[k - 1], k - 1);
    }
  }

  /** Where the way is known, every turn has the property exactly if every reached instruction has it. */
  lemma EveryTurnExact(d: Difo, ok: Instr -> bool)
    requires Valid(d, NREGS) && AllBytes(d.text) && Decided(d.text)
    ensures EveryTurn<Script>(d, ok) <==> Throughout(d.text, false, ok)
  {
    hide Valid, EveryTurn, Reach;
    DecidedSure(d.text, |d.text|);
    if Throughout(d.text, false, ok) {
      ReachedSuffices<Script>(d, ok);
    } else if EveryTurn<Script>(d, ok) {
      SureNecessary(d, ok);
      assert false;
    }
  }

  // ---------------------------------------------------------------- straight-line code

  function Pushes(text: seq<Instr>, k: nat): nat
    requires k <= |text|
  {
    if k == 0 then 0 else Pushes(text, k - 1) + if text[k - 1].op == PUSHTR || text[k - 1].op == PUSHTV then 1 else 0
  }

  /** Before k nothing branches, returns, faults by its opcode or divides, and the pushes fit the tuple stack. */
  predicate Straight(text: seq<Instr>, k: nat)
    requires k <= |text|
  {
    && Pushes(text, k) <= NTUPLE
    && forall q :: 0 <= q < k ==>
        !IsBranch(text[q].op) && text[q].op != RET && text[q].op != LDTA && !IsDivide(text[q].op)
  }

  /** All of it is surely reached. */
  lemma {:induction false} StraightReached(text: seq<Instr>, k: nat) returns (n: Node)
    requires k <= |text| && Straight(text, k)
    ensures n in Reach(text, k, true) && n.pc == k && n.ttop <= Pushes(text, k)
    decreases k
  {
    hide Follows;
    if k == 0 {
      n := ENTRY;
    } else {
      var m := StraightReached(text, k - 1);
      n := StraightTurn(text[k - 1], m);
    }
  }

  lemma StraightTurn(i: Instr, m: Node) returns (n: Node)
    requires !IsBranch(i.op) && i.op != RET && i.op != LDTA && !IsDivide(i.op)
    requires i.op == PUSHTR || i.op == PUSHTV ==> m.ttop < NTUPLE
    ensures n in Follows(i, m) && n.pc == m.pc + 1
    ensures n.ttop <= m.ttop + if i.op == PUSHTR || i.op == PUSHTV then 1 else 0
  {
    var next := m.(pc := m.pc + 1);
    n := if i.op == SCMP then next.(codes := Known(CLEAR))
      else if i.op == CMP then next.(codes := Unknown)
      else if i.op == TST then next.(codes := Tested(At(m, i.r1)))
      else if i.op == PUSHTR || i.op == PUSHTV then next.(ttop := m.ttop + 1)
      else if i.op == POPTS then next.(ttop := if m.ttop != 0 then m.ttop - 1 else 0)
      else if i.op == FLUSHTS then next.(ttop := 0)
      else if i.op == MOV then Put(next, i.rd, At(m, i.r1))
      else if Supplied(i) then Put(next, i.rd, NonZero)
      else if Computed(i.op) then Put(next, i.rd, Any)
      else next;
  }
}
