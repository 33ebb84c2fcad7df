/** Running DIF: what every validated program does, and what rewriting its loads changes. */
module DifRun {
  import opened Dif

  const WORDS: int := 0x1_0000_0000_0000_0000

  /** A 64-bit unsigned value. */
  type Word = x: int | 0 <= x < WORDS

  datatype Key = Key(value: Word, size: Word)

  datatype Cc = Cc(n: bool, z: bool, v: bool, c: bool)

  /** Why emulation stopped early; `Kpriv` is a load that the consumer may not do. */
  datatype Fault = NoFault | DivZero | IllOp | TupOflow | Kpriv(illval: Word) | Other

  /** The machine while it runs: the world is everything outside registers, condition codes and tuple stack. */
  datatype State<W> = State(
    regs: seq<Word>, cc: Cc, pc: nat, tup: seq<Key>, ttop: nat, rval: Word, returned: bool, fault: Fault, world: W)

  /** What an operation on the outside world does: the new world, a value, and whether it faults. */
  datatype Effect<W> = Effect(world: W, value: Word, faults: bool)

  /** The outside world: memory, variables and subroutines, whatever they do. */
  datatype Env<!W> = Env(
    inttab: seq<Word>, strtab: Word, strlen: nat,
    alu: (nat, Word, Word) -> Word,
    load: (W, nat, Word) -> Effect<W>,
    userload: (W, nat, Word) -> Effect<W>,
    canstore: (W, Word, nat) -> bool,
    act: (W, Instr, seq<Word>, seq<Key>, nat) -> Effect<W>,
    thread: Word)

  /** The integer and string tables are those of the program. */
  predicate Tables<W>(env: Env<W>, intlen: nat, strlen: nat) {
    |env.inttab| == intlen && env.strlen == strlen
  }

  /** A machine in order: pc within the program or at its end, %r0 zero, the tuple stack within its array. */
  predicate Good<W>(len: nat, s: State<W>) {
    && |s.regs| == NREGS && s.regs[0] == 0 && |s.tup| == NTUPLE + 2 && s.ttop <= NTUPLE
    && s.pc <= len && (s.pc == len && len > 0 && s.fault.NoFault? ==> s.returned)
  }

  // ---------------------------------------------------------------- one instruction

  function Set<W>(s: State<W>, rd: nat, v: Word): State<W>
    requires rd < |s.regs|
  {
    s.(regs := s.regs[rd := v])
  }

  function Faulted<W>(s: State<W>, faults: bool): State<W> {
    if faults then s.(fault := Other) else s
  }

  /** OR, XOR or AND, bit by bit. */
  function Bitwise(op: nat, a: nat, b: nat): nat {
    if a == 0 && b == 0 then 0
    else
      var x, y := a % 2, b % 2;
      2 * Bitwise(op, a / 2, b / 2) + if op == 1 then x + y - x * y else if op == 2 then (x + y) % 2 else x * y
  }

  function Quotient(a: Word, b: Word): Word
    requires b != 0
  {
    QuotientWord(a, b);
    a / b
  }

  lemma QuotientWord(a: Word, b: Word)
    requires b != 0
    ensures 0 <= a / b < WORDS
  {
  }

  /** The unsigned operations; the environment supplies shifts and signed division. */
  function Alu<W>(env: Env<W>, op: nat, a: Word, b: Word): Word
    requires IsDivide(op) ==> b != 0
  {
    if op <= 3 then Bitwise(op, a, b) % WORDS
    else if op == 6 then (a - b) % WORDS
    else if op == 7 then (a + b) % WORDS
    else if op == 8 then a * b % WORDS
    else if op == 10 then Quotient(a, b)
    else if op == 12 then a % b
    else env.alu(op, a, b)
  }

  /** Whether a conditional branch is taken. */
  function Taken(op: nat, cc: Cc): bool {
    if op == 17 then true
    else if op == 18 then cc.z
    else if op == 19 then !cc.z
    else if op == 20 then !(cc.z || cc.n != cc.v)
    else if op == 21 then !(cc.c || cc.z)
    else if op == 22 then cc.n == cc.v
    else if op == 23 then !cc.c
    else if op == 24 then cc.n != cc.v
    else if op == 25 then cc.c
    else if op == 26 then cc.z || cc.n != cc.v
    else cc.c || cc.z
  }

  /** Reading kernel memory. */
  function Load<W>(env: Env<W>, s: State<W>, n: nat, i: Instr): State<W>
    requires i.r1 < |s.regs| && i.rd < |s.regs|
  {
    var e := env.load(s.world, n, s.regs[i.r1]);
    Faulted(Set(s.(world := e.world), i.rd, e.value), e.faults)
  }

  /** The registers, integer and string table entries and tuple slots an instruction touches exist. */
  predicate InRange<W>(env: Env<W>, s: State<W>, i: Instr) {
    && |s.regs| == NREGS && |s.tup| == NTUPLE + 2 && s.ttop <= NTUPLE
    && (IsAlu(i.op) || i.op == COPYS || i.op == CMP || i.op == SCMP ==> i.r1 < NREGS && i.r2 < NREGS && i.rd < NREGS)
    && (i.op == NOT || i.op == MOV || i.op == ALLOCS || IsLoad(i.op) || IsCheckedLoad(i.op) || IsUserLoad(i.op) ||
        IsStore(i.op) ==>
            i.r1 < NREGS && i.rd < NREGS)
    && (i.op == TST ==> i.r1 < NREGS)
    && (i.op == RET || i.op == SETS || i.op == LDGA || i.op == LDTA || IsVarLoad(i.op) || IsVarStore(i.op) ||
        i.op == CALL ==>
            i.rd < NREGS)
    && (i.op == SETX ==> Index(i) < |env.inttab| && i.rd < NREGS)
    && (i.op == SETS ==> Index(i) < env.strlen)
    && (i.op == PUSHTR || i.op == PUSHTV ==> i.r2 < NREGS && i.rd < NREGS)
  }

  /** The identifier less the base of user variables, as the 32-bit unsigned value it is held in. */
  function VarKey(i: Instr): Word
    requires Bytes(i)
  {
    (Index(i) + 0x1_0000_0000 - VAR_OTHER_UBASE) % 0x1_0000_0000
  }

  /** The tuple that names an associative array element or a thread-local variable. */
  function Tuple<W>(env: Env<W>, s: State<W>, i: Instr): seq<Key>
    requires |s.tup| == NTUPLE + 2 && s.ttop <= NTUPLE && Bytes(i)
  {
    var id := Key(VarKey(i), 0);
    if i.op == LDTS || i.op == STTS then s.tup[NTUPLE := id][NTUPLE + 1 := Key(env.thread, 0)]
    else if i.op == LDTAA || i.op == STTAA then s.tup[s.ttop := id][s.ttop + 1 := Key(env.thread, 0)]
    else if i.op == LDGAA || i.op == STGAA then s.tup[s.ttop := id]
    else s.tup
  }

  /** One turn of dtrace_dif_emulate. */
  function Step<W>(env: Env<W>, len: nat, s0: State<W>, i: Instr): State<W>
    requires InRange(env, s0, i) && Bytes(i)
  {
    var s := s0.(pc := s0.pc + 1);
    if IsAlu(i.op) then
      if IsDivide(i.op) && s.regs[i.r2] == 0 then Set(s, i.rd, 0).(fault := DivZero)
      else Set(s, i.rd, Alu(env, i.op, s.regs[i.r1], s.regs[i.r2]))
    else if i.op == NOT then Set(s, i.rd, WORDS - 1 - s.regs[i.r1])
    else if i.op == MOV then Set(s, i.rd, s.regs[i.r1])
    else if i.op == CMP then
      var a, b := s.regs[i.r1], s.regs[i.r2];
      s.(cc := Cc((a - b) % WORDS >= WORDS / 2, a == b, false, a < b))
    else if i.op == TST then s.(cc := Cc(false, s.regs[i.r1] == 0, false, false))
    else if IsBranch(i.op) then if Taken(i.op, s.cc) then s.(pc := Label(i)) else s
    else if IsLoad(i.op) then Load(env, s, i.op - 28, i)
    else if IsCheckedLoad(i.op) then
      if !env.canstore(s.world, s.regs[i.r1], Width(i.op - 71))
          then s.(fault := Kpriv(s.regs[i.r1])) else Load(env, s, i.op - 71, i)
    else if IsUserLoad(i.op) then
      var e := env.userload(s.world, i.op - 64, s.regs[i.r1]);
      Faulted(Set(s.(world := e.world), i.rd, e.value), e.faults)
    else if i.op == RET then s.(rval := s.regs[i.rd], pc := len, returned := true)
    else if i.op == NOP then s
    else if i.op == SETX then Set(s, i.rd, env.inttab[Index(i)])
    else if i.op == SETS then Set(s, i.rd, (env.strtab + Index(i)) % WORDS)
    else if i.op == SCMP then
      var e := env.act(s.world, i, s.regs, s.tup, s.ttop);
      if e.faults then Faulted(s.(world := e.world), true)
      else s.(world := e.world, cc := Cc(e.value >= WORDS / 2, e.value == 0, false, false))
    else if i.op == LDTA then Set(s, i.rd, 0).(fault := IllOp)
    else if i.op == LDGA || IsVarLoad(i.op) || i.op == CALL || i.op == ALLOCS then
      var tup := Tuple(env, s, i);
      var e := env.act(s.world, i, s.regs, tup, s.ttop);
      Faulted(Set(s.(world := e.world, tup := tup), i.rd, e.value), e.faults)
    else if IsVarStore(i.op) || i.op == COPYS || IsStore(i.op) then
      var tup := Tuple(env, s, i);
      var e := env.act(s.world, i, s.regs, tup, s.ttop);
      Faulted(s.(world := e.world, tup := tup), e.faults)
    else if i.op == PUSHTR || i.op == PUSHTV then
      if s.ttop == NTUPLE then s.(fault := TupOflow)
      else
        var e := env.act(s.world, i, s.regs, s.tup, s.ttop);
        var size := if i.op == PUSHTV then 0 else if i.r1 == TYPE_STRING then e.value else s.regs[i.r2];
        Faulted(s.(tup := s.tup[s.ttop := Key(s.regs[i.rd], size)], ttop := s.ttop + 1), i.op == PUSHTR &&
            i.r1 == TYPE_STRING && e.faults)
    else if i.op == POPTS then s.(ttop := if s.ttop != 0 then s.ttop - 1 else 0)
    else if i.op == FLUSHTS then s.(ttop := 0)
    else s
  }

  /** Instruction fields are bytes. */
  predicate Bytes(i: Instr) { i.op < 256 && i.r1 < 256 && i.r2 < 256 && i.rd < 256 }

  predicate AllBytes(text: seq<Instr>) {
    forall i :: 0 <= i < |text| ==> Bytes(text[i])
  }

  // ---------------------------------------------------------------- validated programs run safely to an end

  /** The instruction at pc, and what the validator knows about it. */
  predicate Vetted(i: Instr, pc: nat, len: nat, intlen: nat, strlen: nat) {
    Bytes(i) && pc < len && Passes(i, pc, len, intlen, strlen, NREGS) && (pc == len - 1 ==> i.op == RET)
  }

  lemma ValidVets(d: Difo, pc: nat)
    requires Valid(d, NREGS) && AllBytes(d.text) && pc < |d.text|
    ensures Vetted(d.text[pc], pc, |d.text|, d.intlen, d.strlen)
  {
    hide Passes;
    assert Passes(d.text[pc], pc, |d.text|, d.intlen, d.strlen, NREGS);
  }

  /** What the validator has checked is what the emulator relies on for registers, tables and the tuple stack; for
      variable identifiers it is not, as DifVars shows. */
  lemma PassesInRange<W>(env: Env<W>, s: State<W>, i: Instr, len: nat, intlen: nat, strlen: nat)
    requires Vetted(i, s.pc, len, intlen, strlen) && Tables(env, intlen, strlen) && Good(len, s)
    ensures InRange(env, s, i)
  {
    hide Index, Label;
  }

  lemma TupleSize<W>(env: Env<W>, s: State<W>, i: Instr)
    requires |s.tup| == NTUPLE + 2 && s.ttop <= NTUPLE && Bytes(i)
    ensures |Tuple(env, s, i)| == NTUPLE + 2
  {
  }

  /** The machine stays in order and moves forward. */
  ghost predicate Advances<W>(env: Env<W>, len: nat, s: State<W>, i: Instr)
    requires InRange(env, s, i) && Bytes(i)
  {
    Good(len, Step(env, len, s, i)) && s.pc < Step(env, len, s, i).pc
  }

  lemma CalcAdvances<W>(env: Env<W>, s: State<W>, i: Instr, len: nat, intlen: nat, strlen: nat)
    requires Vetted(i, s.pc, len, intlen, strlen) && Tables(env, intlen, strlen) && Good(len, s) &&
        InRange(env, s, i) && i.op <= 27
    ensures Advances(env, len, s, i)
  {
    hide Index, Label, Alu, Taken, Tuple, InRange;
  }

  lemma LoadAdvances<W>(env: Env<W>, s: State<W>, i: Instr, len: nat, intlen: nat, strlen: nat)
    requires Vetted(i, s.pc, len, intlen, strlen) && Tables(env, intlen, strlen) && Good(len, s) && InRange(env, s, i)
    requires 28 <= i.op <= 34 || 64 <= i.op
    ensures Advances(env, len, s, i)
  {
    hide Index, Label, Alu, Taken, Tuple, InRange, Width;
  }

  lemma SetAdvances<W>(env: Env<W>, s: State<W>, i: Instr, len: nat, intlen: nat, strlen: nat)
    requires Vetted(i, s.pc, len, intlen, strlen) && Tables(env, intlen, strlen) && Good(len, s) && InRange(env, s, i)
    requires 35 <= i.op <= 39
    ensures Advances(env, len, s, i)
  {
    hide Index, Label, Alu, Taken, Tuple, InRange, Width;
  }

  lemma VarAdvances<W>(env: Env<W>, s: State<W>, i: Instr, len: nat, intlen: nat, strlen: nat)
    requires Vetted(i, s.pc, len, intlen, strlen) && Tables(env, intlen, strlen) && Good(len, s) && InRange(env, s, i)
    requires 40 <= i.op <= 47
    ensures Advances(env, len, s, i)
  {
    hide Index, Label, Alu, Taken, Tuple, InRange, Width;
    TupleSize(env, s.(pc := s.pc + 1), i);
  }

  lemma TupleAdvances<W>(env: Env<W>, s: State<W>, i: Instr, len: nat, intlen: nat, strlen: nat)
    requires Vetted(i, s.pc, len, intlen, strlen) && Tables(env, intlen, strlen) && Good(len, s) && InRange(env, s, i)
    requires 48 <= i.op <= 51
    ensures Advances(env, len, s, i)
  {
    hide Index, Label, Alu, Taken, Tuple, InRange, Width;
  }

  lemma StoreAdvances<W>(env: Env<W>, s: State<W>, i: Instr, len: nat, intlen: nat, strlen: nat)
    requires Vetted(i, s.pc, len, intlen, strlen) && Tables(env, intlen, strlen) && Good(len, s) && InRange(env, s, i)
    requires 52 <= i.op <= 63
    ensures Advances(env, len, s, i)
  {
    hide Index, Label, Alu, Taken, Tuple, InRange, Width;
    TupleSize(env, s.(pc := s.pc + 1), i);
  }

  /** Each instruction of a validated program stays within registers, integer and string tables and tuple stack, keeps
      the machine in order and moves forward. */
  lemma StepSafe<W>(env: Env<W>, d: Difo, s: State<W>)
    requires Valid(d, NREGS) && AllBytes(d.text) && Tables(env, d.intlen, d.strlen) && Good(|d.text|, s) &&
        s.pc < |d.text|
    ensures InRange(env, s, d.text[s.pc]) && Bytes(d.text[s.pc]) && Advances(env, |d.text|, s, d.text[s.pc])
  {
    hide Valid, Passes, Advances, InRange;
    var i, len := d.text[s.pc], |d.text|;
    ValidVets(d, s.pc);
    PassesInRange(env, s, i, len, d.intlen, d.strlen);
    if i.op <= 27 {
      CalcAdvances(env, s, i, len, d.intlen, d.strlen);
    } else if i.op <= 34 || 64 <= i.op {
      LoadAdvances(env, s, i, len, d.intlen, d.strlen);
    } else if i.op <= 39 {
      SetAdvances(env, s, i, len, d.intlen, d.strlen);
    } else if i.op <= 47 {
      VarAdvances(env, s, i, len, d.intlen, d.strlen);
    } else if i.op <= 51 {
      TupleAdvances(env, s, i, len, d.intlen, d.strlen);
    } else {
      StoreAdvances(env, s, i, len, d.intlen, d.strlen);
    }
  }

  // ---------------------------------------------------------------- whole runs

  /** The machine has stopped. */
  predicate Stopped<W>(len: nat, s: State<W>) {
    s.pc >= len || !s.fault.NoFault?
  }

  /** The machine after n turns, or as it stopped before. */
  ghost function Run<W>(env: Env<W>, d: Difo, s: State<W>, n: nat): (r: State<W>)
    requires Valid(d, NREGS) && AllBytes(d.text) && Tables(env, d.intlen, d.strlen) && Good(|d.text|, s)
    ensures Good(|d.text|, r)
    decreases n
  {
    if n == 0 || Stopped(|d.text|, s) then s
    else
      StepSafe(env, d, s);
      Run(env, d, Step(env, |d.text|, s, d.text[s.pc]), n - 1)
  }

  /** A validated program stops after at most as many turns as it has instructions, by a ret or a fault. */
  lemma {:induction false} RunsToAnEnd<W>(env: Env<W>, d: Difo, s: State<W>, n: nat)
    requires Valid(d, NREGS) && AllBytes(d.text) && Tables(env, d.intlen, d.strlen) && Good(|d.text|, s) &&
        n + s.pc >= |d.text|
    ensures var r := Run(env, d, s, n); Stopped(|d.text|, r) && (|d.text| > 0 ==> r.returned || !r.fault.NoFault?)
    decreases n
  {
    hide Step, Valid, InRange, Bytes;
    if !Stopped(|d.text|, s) {
      StepSafe(env, d, s);
      assert n > 0;
      RunsToAnEnd(env, d, Step(env, |d.text|, s, d.text[s.pc]), n - 1);
    }
  }

  /** The machine as the emulator starts: the registers hold whatever was there, but for %r0. */
  function Start<W>(len: nat, regs: seq<Word>, tup: seq<Key>, world: W): (s: State<W>)
    requires |regs| == NREGS && |tup| == NTUPLE + 2
    ensures Good(len, s)
  {
    State(regs[0 := 0], Cc(false, false, false, false), 0, tup, 0, 0, len == 0, NoFault, world)
  }

  /** dtrace_dif_emulate: the value returned, or 0 after a fault. */
  method Emulate<W>(env: Env<W>, d: Difo, regs: seq<Word>, tup: seq<Key>, world: W)
      returns (rval: Word, s: State<W>, turns: nat)
    requires Valid(d, NREGS) && AllBytes(d.text) && Tables(env, d.intlen, d.strlen) && |regs| == NREGS &&
        |tup| == NTUPLE + 2
    ensures s == Run(env, d, Start(|d.text|, regs, tup, world), |d.text|)
    ensures Good(|d.text|, s) && Stopped(|d.text|, s) && turns <= |d.text|
    ensures rval == if s.fault.NoFault? then s.rval else 0
  {
    hide Step, Valid, InRange, Bytes;
    s := Start(|d.text|, regs, tup, world);
    ghost var s0 := s;
    turns := 0;
    RunsToAnEnd(env, d, s0, |d.text|);
    while s.pc < |d.text| && s.fault.NoFault?
      invariant Good(|d.text|, s) && turns <= s.pc
      invariant Run(env, d, s0, |d.text|) == Run(env, d, s, |d.text| - turns)
      decreases |d.text| - s.pc
    {
      StepSafe(env, d, s);
      s := Step(env, |d.text|, s, d.text[s.pc]);
      turns := turns + 1;
    }
    rval := if s.fault.NoFault? then s.rval else 0;
  }

  // ---------------------------------------------------------------- rewritten loads

  /** A program with its loads rewritten still validates. */
  lemma RewriteValid(d: Difo)
    requires Valid(d, NREGS)
    ensures Valid(d.(text := RewriteAll(d.text)), NREGS)
  {
    hide Index, Label;
    var d' := d.(text := RewriteAll(d.text));
    forall pc | 0 <= pc < |d'.text|
      ensures Passes(d'.text[pc], pc, |d'.text|, d.intlen, d.strlen, NREGS)
    {
      assert Passes(d.text[pc], pc, |d.text|, d.intlen, d.strlen, NREGS);
    }
  }

  lemma RewriteBytes(text: seq<Instr>)
    requires AllBytes(text)
    ensures AllBytes(RewriteAll(text))
  {
  }

  /** The original is about to load what the rewritten program may not. */
  predicate Denied<W>(env: Env<W>, s: State<W>, i: Instr)
    requires InRange(env, s, i)
  {
    IsLoad(i.op) && !env.canstore(s.world, s.regs[i.r1], Width(i.op - 28))
  }

  lemma LoadReg<W>(env: Env<W>, s: State<W>, i: Instr)
    requires InRange(env, s, i) && IsLoad(i.op)
    ensures i.r1 < |s.regs|
  {
  }

  /** One turn of the rewritten program: the same, or the load is denied and it stops. */
  lemma RewriteStep<W>(env: Env<W>, len: nat, s: State<W>, i: Instr)
    requires InRange(env, s, i) && Bytes(i)
    ensures InRange(env, s, Rewrite(i)) && Bytes(Rewrite(i))
    ensures var s' := Step(env, len, s, Rewrite(i));
            if Denied(env, s, i) then s' == s.(pc := s.pc + 1, fault := Kpriv(s.regs[i.r1]))
            else s' == Step(env, len, s, i)
  {
    hide Alu, Taken, Tuple, Index, Label;
  }

  /** The rewritten program runs exactly as the original, turn by turn, unless and until the original comes to a load of
      memory it could not store to; there it stops with Kpriv, the address being what that load would have read. */
  lemma {:induction false} RewritePreserves<W>(env: Env<W>, d: Difo, s: State<W>, n: nat)
    requires Valid(d, NREGS) && AllBytes(d.text) && Tables(env, d.intlen, d.strlen) && Good(|d.text|, s)
    ensures var d' := d.(text := RewriteAll(d.text));
            Valid(d', NREGS) && AllBytes(d'.text)
            && (Run(env, d', s, n) == Run(env, d, s, n) || exists k :: 0 <= k < n && StopsAt(env, d, s, n, k))
    decreases n
  {
    hide Step, Valid, InRange, Bytes;
    RewriteValid(d);
    RewriteBytes(d.text);
    var d' := d.(text := RewriteAll(d.text));
    if n > 0 && !Stopped(|d.text|, s) {
      StepSafe(env, d, s);
      var i := d.text[s.pc];
      RewriteStep(env, |d.text|, s, i);
      if Denied(env, s, i) {
        LoadReg(env, s, i);
        assert Run(env, d', s, n) == Run(env, d', s.(pc := s.pc + 1, fault := Kpriv(s.regs[i.r1])), n - 1);
        assert StopsAt(env, d, s, n, 0);
      } else {
        var s' := Step(env, |d.text|, s, i);
        RewritePreserves(env, d, s', n - 1);
        if Run(env, d', s', n - 1) != Run(env, d, s', n - 1) {
          var k :| 0 <= k < n - 1 && StopsAt(env, d, s', n - 1, k);
          assert StopsAt(env, d, s, n, k + 1);
        }
      }
    }
  }

  /** After k turns, the same in both programs, the original is at a denied load, and the rewritten one stops there. */
  ghost predicate StopsAt<W>(env: Env<W>, d: Difo, s: State<W>, n: nat, k: nat)
    requires Valid(d, NREGS) && AllBytes(d.text) && Tables(env, d.intlen, d.strlen) && Good(|d.text|, s)
    requires Valid(d.(text := RewriteAll(d.text)), NREGS) && AllBytes(RewriteAll(d.text))
  {
    var d' := d.(text := RewriteAll(d.text));
    var r := Run(env, d, s, k);
    && Run(env, d', s, k) == r && !Stopped(|d.text|, r)
    && InRange(env, r, d.text[r.pc]) && Denied(env, r, d.text[r.pc])
    && Run(env, d', s, n) == r.(pc := r.pc + 1, fault := Kpriv(r.regs[d.text[r.pc].r1]))
  }
}
