/** DIF, the bytecode of D: its instructions, the validator and the emulator. */
module Dif {

  const NREGS: nat := 8
  const NTUPLE: nat := 8
  const VAR_ARRAY_MAX: nat := 0xff
  const VAR_OTHER_MIN: nat := 0x100
  const VAR_OTHER_UBASE: nat := 0x500
  const VAR_OTHER_MAX: nat := 0xffff
  const SUBR_MAX: nat := 43
  const TYPE_CTF: nat := 0
  const TYPE_STRING: nat := 1

  /** The four bytes of an instruction word. */
  datatype Instr = Instr(op: nat, r1: nat, r2: nat, rd: nat)

  function Label(i: Instr): nat { i.r1 * 0x10000 + i.r2 * 0x100 + i.rd }

  function Index(i: Instr): nat { i.r1 * 0x100 + i.r2 }

  /** A program and the sizes of its integer and string tables. */
  datatype Difo = Difo(text: seq<Instr>, intlen: nat, strlen: nat)

  // ---------------------------------------------------------------- opcodes

  predicate IsAlu(op: nat) { 1 <= op <= 12 || op == 46 }

  predicate IsDivide(op: nat) { 9 <= op <= 12 }

  const NOT: nat := 13
  const MOV: nat := 14
  const CMP: nat := 15
  const TST: nat := 16

  const BA: nat := 17

  predicate IsBranch(op: nat) { 17 <= op <= 27 }

  predicate IsLoad(op: nat) { 28 <= op <= 34 }

  const RET: nat := 35
  const NOP: nat := 36
  const SETX: nat := 37
  const SETS: nat := 38
  const SCMP: nat := 39
  const LDGA: nat := 40
  const LDGS: nat := 41
  const STGS: nat := 42
  const LDTA: nat := 43
  const LDTS: nat := 44
  const STTS: nat := 45
  const CALL: nat := 47
  const PUSHTR: nat := 48
  const PUSHTV: nat := 49
  const POPTS: nat := 50
  const FLUSHTS: nat := 51
  const LDGAA: nat := 52
  const LDTAA: nat := 53
  const STGAA: nat := 54
  const STTAA: nat := 55
  const LDLS: nat := 56
  const STLS: nat := 57
  const ALLOCS: nat := 58
  const COPYS: nat := 59

  predicate IsStore(op: nat) { 60 <= op <= 63 }

  predicate IsUserLoad(op: nat) { 64 <= op <= 70 }

  predicate IsCheckedLoad(op: nat) { 71 <= op <= 77 }

  predicate IsVarLoad(op: nat) { op == LDGS || op == LDTS || op == LDLS || op == LDGAA || op == LDTAA }

  predicate IsVarStore(op: nat) { op == STGS || op == STTS || op == STLS || op == STGAA || op == STTAA }

  /** The checked form of a load. */
  const CHECKED: nat := 71 - 28

  /** How many bytes the n-th of the seven loads reads. */
  function Width(n: nat): nat {
    if n == 0 || n == 3 then 1 else if n == 1 || n == 4 then 2 else if n == 2 || n == 5 then 4 else 8
  }

  // ---------------------------------------------------------------- the validator

  /** The destination is a register other than %r0. */
  predicate Writable(rd: nat, nregs: nat) { 0 < rd < nregs }

  /** The instruction at pc passes the validator. */
  predicate Passes(i: Instr, pc: nat, len: nat, intlen: nat, strlen: nat, nregs: nat) {
    if IsAlu(i.op) || i.op == COPYS then i.r1 < nregs && i.r2 < nregs && Writable(i.rd, nregs)
    else if i.op == NOT || i.op == MOV || i.op == ALLOCS || IsLoad(i.op) || IsCheckedLoad(i.op) || IsUserLoad(i.op) ||
        IsStore(i.op) then
      i.r1 < nregs && i.r2 == 0 && Writable(i.rd, nregs)
    else if i.op == CMP || i.op == SCMP then i.r1 < nregs && i.r2 < nregs && i.rd == 0
    else if i.op == TST then i.r1 < nregs && i.r2 == 0 && i.rd == 0
    else if IsBranch(i.op) then pc < Label(i) < len
    else if i.op == RET then i.r1 == 0 && i.r2 == 0 && i.rd < nregs
    else if i.op == NOP || i.op == POPTS || i.op == FLUSHTS then i.r1 == 0 && i.r2 == 0 && i.rd == 0
    else if i.op == SETX then Index(i) < intlen && Writable(i.rd, nregs)
    else if i.op == SETS then Index(i) < strlen && Writable(i.rd, nregs)
    else if i.op == LDGA || i.op == LDTA then i.r1 <= VAR_ARRAY_MAX && i.r2 < nregs && Writable(i.rd, nregs)
    else if IsVarLoad(i.op) then VAR_OTHER_MIN <= Index(i) <= VAR_OTHER_MAX && Writable(i.rd, nregs)
    else if IsVarStore(i.op) then VAR_OTHER_UBASE <= Index(i) <= VAR_OTHER_MAX && i.rd < nregs
    else if i.op == CALL then Index(i) <= SUBR_MAX && Writable(i.rd, nregs)
    else if i.op == PUSHTR then (i.r1 == TYPE_STRING || i.r1 == TYPE_CTF) && i.r2 < nregs && i.rd < nregs
    else if i.op == PUSHTV then i.r1 == TYPE_CTF && i.r2 < nregs && i.rd < nregs
    else false
  }

  /** Every instruction passes and the last one is a ret. */
  predicate Valid(d: Difo, nregs: nat) {
    && (forall pc :: 0 <= pc < |d.text| ==> Passes(d.text[pc], pc, |d.text|, d.intlen, d.strlen, nregs))
    && (|d.text| != 0 ==> d.text[|d.text| - 1].op == RET)
  }

  /** A load becomes its checked form. */
  function Rewrite(i: Instr): Instr {
    if IsLoad(i.op) then Instr(i.op + CHECKED, i.r1, 0, i.rd) else i
  }

  function RewriteAll(text: seq<Instr>): (r: seq<Instr>)
    ensures |r| == |text| && forall i :: 0 <= i < |r| ==> r[i] == Rewrite(text[i])
  {
    seq(|text|, i requires 0 <= i < |text| => Rewrite(text[i]))
  }

  /** dtrace_difo_validate, up to the return type: how many errors, and loads rewritten in place if the consumer may not
      see kernel memory. */
  method Validate(text: array<Instr>, intlen: nat, strlen: nat, nregs: nat, kcheckload: bool) returns (err: nat)
    modifies text
    ensures err == 0 <==> Valid(Difo(old(text[..]), intlen, strlen), nregs)
    ensures err == 0 ==> text[..] == if kcheckload then RewriteAll(old(text[..])) else old(text[..])
  {
    ghost var was := text[..];
    err := 0;
    var pc := 0;
    while pc < text.Length && err == 0
      invariant 0 <= pc <= text.Length
      invariant err == 0 ==> forall j :: 0 <= j < pc ==> Passes(was[j], j, text.Length, intlen, strlen, nregs)
      invariant err != 0 ==> exists j :: 0 <= j < pc && !Passes(was[j], j, text.Length, intlen, strlen, nregs)
      invariant forall j :: 0 <= j < text.Length ==> text[j] == if j < pc && kcheckload then Rewrite(was[j]) else was[j]
    {
      var i := text[pc];
      if !Passes(i, pc, text.Length, intlen, strlen, nregs) {
        err := err + 1;
      }
      if IsLoad(i.op) && kcheckload {
        text[pc] := Instr(i.op + CHECKED, i.r1, 0, i.rd);
      }
      pc := pc + 1;
    }
    if text.Length != 0 && text[text.Length - 1].op != RET {
      err := err + 1;
    }
  }
}
