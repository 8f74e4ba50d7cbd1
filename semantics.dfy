/** What one call of `emulate_instruction` does, as a function on a snapshot
    of the CPU state: fetch the opcode at PC, decode it, execute the
    instruction, then `advance` PC past it unless the instruction moved PC
    itself. The imperative `State` class is proved to follow this function
    step for step. */
module Semantics {
  import opened Wrappers
  import opened Bytes
  import opened ConditionCodes
  import opened Alu
  import opened Decoder

  /** The flat 64 KiB address space. */
  type Memory = m: seq<bv8> | |m| == 0x10000 witness seq(0x10000, _ => 0)

  /** The register file, SP, PC, the interrupt-enable flag, the condition
      codes and memory. */
  datatype Cpu = Cpu(a: bv8, b: bv8, c: bv8, d: bv8, e: bv8, h: bv8, l: bv8,
                     sp: word, pc: word, intEnable: bool, cc: Flags, mem: Memory)

  /** A byte written to an output port by OUT: the host's `output(port, value)`. */
  datatype PortWrite = PortWrite(port: bv8, value: bv8)

  /** What a step did: it ran an instruction (possibly writing a port), or it
      met an opcode the core does not implement, at the given PC. */
  datatype Outcome = Stepped(output: Option<PortWrite>) | Fault(opcode: bv8, pc: word)

  /** The state after an instruction's own work, before `advance`; `moved`
      records that the instruction set PC itself. */
  datatype Effect = Effect(cpu: Cpu, output: Option<PortWrite>, moved: bool)

  /** `get_hl_address`: the address held by HL. */
  function Hl(s: Cpu): (w: word)
    ensures w == s.h as int * 256 + s.l as int
  {
    AssembleWord(s.h, s.l)
  }

  /** `get_arg(n)`: the byte n places after the opcode. */
  function Arg(s: Cpu, n: nat): bv8
  {
    s.mem[Wrap16(s.pc + n)]
  }

  /** The sixteen-bit operand of an instruction, stored low byte first. */
  function Arg16(s: Cpu): (w: word)
    ensures w == Arg(s, 2) as int * 256 + Arg(s, 1) as int
  {
    AssembleWord(Arg(s, 2), Arg(s, 1))
  }

  /** `memory.set`: one byte of memory replaced, everything else kept. */
  function Store(s: Cpu, address: word, v: bv8): (t: Cpu)
    ensures t.mem == s.mem[address := v]
    ensures t.(mem := s.mem) == s
  {
    s.(mem := s.mem[address := v])
  }

  /** `get_operand` and `get_m`: the value of an operand register. */
  function Get(s: Cpu, r: Reg): bv8
  {
    match r
    case B => s.b
    case C => s.c
    case D => s.d
    case E => s.e
    case H => s.h
    case L => s.l
    case M => s.mem[Hl(s)]
    case A => s.a
  }

  /** Every register other than `r` (and other than M, which moves with H
      and L) has the same value in `t` as in `s`. */
  predicate Untouched(s: Cpu, t: Cpu, r: Reg)
  {
    && (r != B ==> t.b == s.b) && (r != C ==> t.c == s.c)
    && (r != D ==> t.d == s.d) && (r != E ==> t.e == s.e)
    && (r != H ==> t.h == s.h) && (r != L ==> t.l == s.l)
    && (r != A ==> t.a == s.a)
  }

  /** Assignment to an operand register; M is `set_m`, a store at HL. */
  function Set(s: Cpu, r: Reg, v: bv8): (t: Cpu)
    ensures Get(t, r) == v
    ensures Untouched(s, t, r)
    ensures r != M ==> t.mem == s.mem
    ensures r == M ==> t.mem == s.mem[Hl(s) := v]
    ensures t.sp == s.sp && t.pc == s.pc && t.cc == s.cc && t.intEnable == s.intEnable
  {
    match r
    case B => s.(b := v)
    case C => s.(c := v)
    case D => s.(d := v)
    case E => s.(e := v)
    case H => s.(h := v)
    case L => s.(l := v)
    case M => Store(s, Hl(s), v)
    case A => s.(a := v)
  }

  /** The high register of a pair: B, D or H. */
  function High(s: Cpu, p: Pair): bv8
  {
    match p
    case BC => s.b
    case DE => s.d
    case HL => s.h
  }

  /** The low register of a pair: C, E or L. */
  function Low(s: Cpu, p: Pair): bv8
  {
    match p
    case BC => s.c
    case DE => s.e
    case HL => s.l
  }

  /** The two halves of a pair written with the given high and low byte. */
  function SetHalves(s: Cpu, p: Pair, hi: bv8, lo: bv8): Cpu
  {
    match p
    case BC => s.(b := hi, c := lo)
    case DE => s.(d := hi, e := lo)
    case HL => s.(h := hi, l := lo)
  }

  /** A register pair, or SP, read as one word. */
  function GetWide(s: Cpu, w: Wide): word
  {
    match w
    case RegPair(BC) => AssembleWord(s.b, s.c)
    case RegPair(DE) => AssembleWord(s.d, s.e)
    case RegPair(HL) => Hl(s)
    case SP => s.sp
  }

  /** A word written back split across the two halves of a pair, or to SP. */
  function SetWide(s: Cpu, w: Wide, v: word): (t: Cpu)
    ensures GetWide(t, w) == v
    ensures t.a == s.a && t.mem == s.mem && t.cc == s.cc && t.pc == s.pc && t.intEnable == s.intEnable
    ensures w != RegPair(BC) ==> t.b == s.b && t.c == s.c
    ensures w != RegPair(DE) ==> t.d == s.d && t.e == s.e
    ensures w != RegPair(HL) ==> t.h == s.h && t.l == s.l
    ensures w != SP ==> t.sp == s.sp
  {
    match w
    case RegPair(BC) => AssembleSplit(v); s.(b := HighOrderByte(v), c := LowOrderByte(v))
    case RegPair(DE) => AssembleSplit(v); s.(d := HighOrderByte(v), e := LowOrderByte(v))
    case RegPair(HL) => AssembleSplit(v); s.(h := HighOrderByte(v), l := LowOrderByte(v))
    case SP => s.(sp := v)
  }

  /** `push8`: SP moves down one byte, then the byte is written there. */
  function Push8(s: Cpu, v: bv8): (t: Cpu)
    ensures t.sp == Wrap16(s.sp - 1) && t.mem == s.mem[t.sp := v]
    ensures t.(sp := s.sp, mem := s.mem) == s
  {
    var sp := Wrap16(s.sp - 1);
    s.(sp := sp, mem := s.mem[sp := v])
  }

  /** `pop8`: the byte at SP is read, then SP moves up one byte. */
  function Pop8(s: Cpu): (r: (bv8, Cpu))
    ensures r.0 == s.mem[s.sp]
    ensures r.1 == s.(sp := Wrap16(s.sp + 1))
  {
    (s.mem[s.sp], s.(sp := Wrap16(s.sp + 1)))
  }

  /** Whether a branch condition holds for the current flags. */
  predicate Holds(cc: Flags, c: Cond)
  {
    match c
    case Always => true
    case NotZero => !cc.z
    case Zero => cc.z
    case NoCarry => !cc.cy
    case Carry => cc.cy
    case ParityOdd => !cc.p
    case ParityEven => cc.p
    case Plus => !cc.s
    case Minus => cc.s
  }

  /** The result of one of `add8` .. `cmp8`; CMP gives A back unchanged. */
  function Operate(op: AluOp, a: bv8, cc: Flags, v: bv8): (o: AluOut)
    ensures op == Cmp ==> o.a == a
  {
    match op
    case Add => Add8(a, cc, v)
    case Adc => Adc8(a, cc, v)
    case Sub => Sub8(a, cc, v)
    case Sbb => Sbb8(a, cc, v)
    case Ana => And8(a, cc, v)
    case Xra => Xor8(a, cc, v)
    case Ora => Or8(a, cc, v)
    case Cmp => AluOut(a, Cmp8(a, cc, v))
  }

  /** One of `add8` .. `cmp8` applied to A and an operand value. */
  function ApplyAlu(s: Cpu, op: AluOp, v: bv8): (t: Cpu)
    ensures t.(a := s.a, cc := s.cc) == s
    ensures op == Cmp ==> t.a == s.a
  {
    var o := Operate(op, s.a, s.cc, v);
    s.(a := o.a, cc := o.cc)
  }

  /** An accumulator rotate result written back to A and the flags. */
  function Rotated(s: Cpu, o: AluOut): Cpu
  {
    s.(a := o.a, cc := o.cc)
  }

  /** `jump_if`: when the condition holds, PC takes the operand address. */
  function JumpIf(s: Cpu, c: Cond): (e: Effect)
    ensures e.moved <==> Holds(s.cc, c)
    ensures e.cpu == if e.moved then s.(pc := Arg16(s)) else s
  {
    if Holds(s.cc, c) then Effect(s.(pc := Arg16(s)), None, true)
    else Effect(s, None, false)
  }

  /** `call_if`: when the condition holds, the address of the next
      instruction is pushed high byte first and PC takes the operand address. */
  function CallIf(s: Cpu, c: Cond): (e: Effect)
    ensures e.moved <==> Holds(s.cc, c)
    ensures !e.moved ==> e.cpu == s
    ensures e.moved ==> var ret := Wrap16(s.pc + 3);
      e.cpu == s.(pc := Arg16(s), sp := Wrap16(s.sp - 2),
                  mem := s.mem[Wrap16(s.sp - 1) := HighOrderByte(ret)][Wrap16(s.sp - 2) := LowOrderByte(ret)])
  {
    if Holds(s.cc, c) then
      var ret := Wrap16(s.pc + 3);
      var t := Push8(Push8(s, HighOrderByte(ret)), LowOrderByte(ret));
      Effect(t.(pc := Arg16(s)), None, true)
    else Effect(s, None, false)
  }

  /** `ret_if`: when the condition holds, PC is popped low byte first. */
  function RetIf(s: Cpu, c: Cond): (e: Effect)
    ensures e.moved <==> Holds(s.cc, c)
    ensures !e.moved ==> e.cpu == s
    ensures e.moved ==>
      e.cpu == s.(pc := AssembleWord(s.mem[Wrap16(s.sp + 1)], s.mem[s.sp]), sp := Wrap16(s.sp + 2))
  {
    if Holds(s.cc, c) then
      var (lo, s1) := Pop8(s);
      var (hi, s2) := Pop8(s1);
      Effect(s2.(pc := AssembleWord(hi, lo)), None, true)
    else Effect(s, None, false)
  }

  /** An effect that leaves PC to `advance`. */
  function Done(s: Cpu): Effect
  {
    Effect(s, None, false)
  }

  /** INR r: the operand plus one, wrapping; only Z and S follow the result. */
  function Increment(s: Cpu, r: Reg): (t: Cpu)
    ensures Get(t, r) == Get(s, r) + 1
    ensures t.cc == s.cc.(z := Get(s, r) + 1 == 0, s := Get(s, r) + 1 >= 0x80)
    ensures Untouched(s, t, r)
    ensures t.mem == if r == M then s.mem[Hl(s) := Get(s, r) + 1] else s.mem
    ensures t.sp == s.sp && t.pc == s.pc && t.intEnable == s.intEnable
  {
    var v := Get(s, r) + 1;
    var t := Set(s, r, v);
    t.(cc := SetS(SetZ(s.cc, v), v))
  }

  /** DCR r: the operand minus one, wrapping; only Z and S follow the result. */
  function Decrement(s: Cpu, r: Reg): (t: Cpu)
    ensures Get(t, r) == Get(s, r) - 1
    ensures t.cc == s.cc.(z := Get(s, r) - 1 == 0, s := Get(s, r) - 1 >= 0x80)
    ensures Untouched(s, t, r)
    ensures t.mem == if r == M then s.mem[Hl(s) := Get(s, r) - 1] else s.mem
    ensures t.sp == s.sp && t.pc == s.pc && t.intEnable == s.intEnable
  {
    var v := Get(s, r) - 1;
    var t := Set(s, r, v);
    t.(cc := SetS(SetZ(s.cc, v), v))
  }

  /** DAD: HL plus a pair or SP, `add16` setting CY from the carry out of bit 15. */
  function AddToHl(s: Cpu, w: Wide): (t: Cpu)
    ensures Hl(t) + (if t.cc.cy then 0x10000 else 0) == Hl(s) + GetWide(s, w)
    ensures t.cc == s.cc.(cy := t.cc.cy)
    ensures t.(h := s.h, l := s.l, cc := s.cc) == s
  {
    var (sum, carry) := Add16(Hl(s), GetWide(s, w));
    SetWide(s, RegPair(HL), sum).(cc := s.cc.(cy := carry))
  }

  /** SHLD: L to the address, H to the byte after it. */
  function StoreHl(s: Cpu, address: word): (t: Cpu)
    ensures t.mem == s.mem[address := s.l][Wrap16(address + 1) := s.h]
    ensures t.(mem := s.mem) == s
  {
    Store(Store(s, address, s.l), Wrap16(address + 1), s.h)
  }

  /** LHLD: L from the address, H from the byte after it. */
  function LoadHl(s: Cpu, address: word): (t: Cpu)
    ensures t.l == s.mem[address] && t.h == s.mem[Wrap16(address + 1)]
    ensures t.(l := s.l, h := s.h) == s
  {
    s.(l := s.mem[address], h := s.mem[Wrap16(address + 1)])
  }

  /** PUSH: the high register of the pair, then the low one. */
  function PushPair(s: Cpu, p: Pair): (t: Cpu)
    ensures t.sp == Wrap16(s.sp - 2)
    ensures t.mem == s.mem[Wrap16(s.sp - 1) := High(s, p)][t.sp := Low(s, p)]
    ensures t.(sp := s.sp, mem := s.mem) == s
  {
    Push8(Push8(s, High(s, p)), Low(s, p))
  }

  /** POP: the low register of the pair is popped first, then the high one. */
  function PopPair(s: Cpu, p: Pair): (t: Cpu)
    ensures t.sp == Wrap16(s.sp + 2)
    ensures Low(t, p) == s.mem[s.sp] && High(t, p) == s.mem[Wrap16(s.sp + 1)]
    ensures t == SetHalves(s, p, s.mem[Wrap16(s.sp + 1)], s.mem[s.sp]).(sp := t.sp)
  {
    var (lo, s1) := Pop8(s);
    var (hi, s2) := Pop8(s1);
    match p
    case BC => s2.(c := lo, b := hi)
    case DE => s2.(e := lo, d := hi)
    case HL => s2.(l := lo, h := hi)
  }

  /** PUSH PSW: A, then the flag byte. */
  function PushStatus(s: Cpu): (t: Cpu)
    ensures t.sp == Wrap16(s.sp - 2)
    ensures t.mem == s.mem[Wrap16(s.sp - 1) := s.a][t.sp := Serialize(s.cc)]
    ensures t.(sp := s.sp, mem := s.mem) == s
  {
    Push8(Push8(s, s.a), Serialize(s.cc))
  }

  /** POP PSW: the flag byte, then A. */
  function PopStatus(s: Cpu): (t: Cpu)
    ensures t.sp == Wrap16(s.sp + 2)
    ensures t.cc == Deserialize(s.mem[s.sp]) && t.a == s.mem[Wrap16(s.sp + 1)]
    ensures t.(sp := s.sp, cc := s.cc, a := s.a) == s
  {
    var (f, s1) := Pop8(s);
    var (a, s2) := Pop8(s1);
    s2.(cc := Deserialize(f), a := a)
  }

  /** XTHL, as the source writes it: two pops into L and H, then pushes of
      the old H and L. */
  function ExchangeStackTop(s: Cpu): (t: Cpu)
    ensures t.l == s.mem[s.sp] && t.h == s.mem[Wrap16(s.sp + 1)]
    ensures t.mem == s.mem[s.sp := s.l][Wrap16(s.sp + 1) := s.h]
    ensures t.(l := s.l, h := s.h, mem := s.mem) == s
  {
    var (newL, s1) := Pop8(s);
    var (newH, s2) := Pop8(s1);
    var s3 := Push8(Push8(s2, s.h), s.l);
    s3.(l := newL, h := newH)
  }

  /** XCHG: D swaps with H and E with L. */
  function ExchangeDeHl(s: Cpu): (t: Cpu)
    ensures Hl(t) == GetWide(s, RegPair(DE)) && GetWide(t, RegPair(DE)) == Hl(s)
    ensures t.(d := s.d, e := s.e, h := s.h, l := s.l) == s
  {
    s.(d := s.h, h := s.d, e := s.l, l := s.e)
  }

  /** The arms that load a register or a pair: LXI, MVI and MOV. */
  predicate IsTransfer(i: Instr)
  {
    i.Lxi? || i.Mvi? || i.Mov?
  }

  /** The arms that address memory directly: STAX, LDAX, STA, LDA, SHLD, LHLD. */
  predicate IsAccess(i: Instr)
  {
    i.Stax? || i.Ldax? || i.Sta? || i.Lda? || i.Shld? || i.Lhld?
  }

  /** The arms that count and add: INX, DCX, INR, DCR and DAD. */
  predicate IsCount(i: Instr)
  {
    i.Inx? || i.Dcx? || i.Inr? || i.Dcr? || i.Dad?
  }

  /** The accumulator arms: the rotates, CMA, STC, CMC and the
      arithmetic/logic group on an operand or an immediate byte. */
  predicate IsAccumulate(i: Instr)
  {
    i.Rlc? || i.Rrc? || i.Ral? || i.Rar? || i.Cma? || i.Stc? || i.Cmc? || i.Arith? || i.ArithImm?
  }

  /** The stack arms: PUSH, POP, PUSH PSW, POP PSW and XTHL. */
  predicate IsStack(i: Instr)
  {
    i.Push? || i.Pop? || i.PushPsw? || i.PopPsw? || i.Xthl?
  }

  /** SPHL, XCHG, DI and EI. */
  predicate IsExchange(i: Instr)
  {
    i.Sphl? || i.Xchg? || i.Di? || i.Ei?
  }

  /** LXI loads a pair or SP from the operand word, MVI an operand register
      from the immediate byte, MOV one operand register from another. */
  function Transfer(s: Cpu, i: Instr): (t: Cpu)
    requires IsTransfer(i)
    ensures t.pc == s.pc && t.cc == s.cc && t.intEnable == s.intEnable
    ensures !i.Lxi? ==> t.sp == s.sp
  {
    if i.Lxi? then SetWide(s, i.w, Arg16(s))
    else if i.Mvi? then Set(s, i.r, Arg(s, 1))
    else Set(s, i.dst, Get(s, i.src))
  }

  /** Stores and loads of A at the address in BC or DE or at the operand
      address, and of HL at the operand address. */
  function Access(s: Cpu, i: Instr): (t: Cpu)
    requires IsAccess(i)
    ensures t.pc == s.pc && t.sp == s.sp && t.cc == s.cc && t.intEnable == s.intEnable
    ensures t.b == s.b && t.c == s.c && t.d == s.d && t.e == s.e
    ensures (i.Stax? || i.Sta? || i.Shld?) ==> t.(mem := s.mem) == s
    ensures (i.Ldax? || i.Lda? || i.Lhld?) ==> t.mem == s.mem
    ensures i.Stax? ==> t.mem == s.mem[GetWide(s, RegPair(i.p)) := s.a]
    ensures i.Sta? ==> t.mem == s.mem[Arg16(s) := s.a]
    ensures i.Ldax? ==> t == s.(a := s.mem[GetWide(s, RegPair(i.p))])
    ensures i.Lda? ==> t == s.(a := s.mem[Arg16(s)])
  {
    if i.Stax? then Store(s, GetWide(s, RegPair(i.p)), s.a)
    else if i.Ldax? then s.(a := s.mem[GetWide(s, RegPair(i.p))])
    else if i.Sta? then Store(s, Arg16(s), s.a)
    else if i.Lda? then s.(a := s.mem[Arg16(s)])
    else if i.Shld? then StoreHl(s, Arg16(s))
    else LoadHl(s, Arg16(s))
  }

  /** INX/DCX on a pair or SP (no flags), INR/DCR on an operand, DAD. */
  function Count(s: Cpu, i: Instr): (t: Cpu)
    requires IsCount(i)
    ensures t.pc == s.pc && t.intEnable == s.intEnable
    ensures (i.Inx? || i.Dcx?) ==> t.cc == s.cc && t.mem == s.mem
    ensures i.Dad? ==> t.cc == s.cc.(cy := t.cc.cy) && t.mem == s.mem && t.sp == s.sp
    ensures (i.Inr? || i.Dcr?) ==> t.cc.cy == s.cc.cy && t.cc.p == s.cc.p && t.cc.ac == s.cc.ac
  {
    if i.Inx? then SetWide(s, i.w, Wrap16(GetWide(s, i.w) + 1))
    else if i.Dcx? then SetWide(s, i.w, Wrap16(GetWide(s, i.w) - 1))
    else if i.Inr? then Increment(s, i.r)
    else if i.Dcr? then Decrement(s, i.r)
    else AddToHl(s, i.w)
  }

  /** The rotates, CMA, STC, CMC and the arithmetic/logic group on A. */
  function Accumulate(s: Cpu, i: Instr): (t: Cpu)
    requires IsAccumulate(i)
    ensures t == s.(a := t.a, cc := t.cc)
    ensures (i.Stc? || i.Cmc?) ==> t.a == s.a
    ensures i.Cma? ==> t == s.(a := !s.a)
    ensures i.Stc? ==> t == s.(cc := s.cc.(cy := true))
    ensures i.Cmc? ==> t == s.(cc := s.cc.(cy := !s.cc.cy))
  {
    // RLC and RAL take the 8080's carry (the old bit 7), not the source's
    // `(x & 0x80) == 1`, which is always false; see Alu.RlcAsWritten and
    // Alu.RalAsWritten for the code as written
    if i.Rlc? then Rotated(s, Alu.Rlc(s.a, s.cc))
    else if i.Rrc? then Rotated(s, Alu.Rrc(s.a, s.cc))
    else if i.Ral? then Rotated(s, Alu.Ral(s.a, s.cc))
    else if i.Rar? then Rotated(s, Alu.Rar(s.a, s.cc))
    else if i.Cma? then s.(a := !s.a)
    else if i.Stc? then s.(cc := s.cc.(cy := true))
    else if i.Cmc? then s.(cc := s.cc.(cy := !s.cc.cy))
    else if i.Arith? then ApplyAlu(s, i.op, Get(s, i.src))
    else ApplyAlu(s, i.op, Arg(s, 1))
  }

  /** PUSH, POP, PUSH PSW, POP PSW and XTHL. */
  function Stack(s: Cpu, i: Instr): (t: Cpu)
    requires IsStack(i)
    ensures t.pc == s.pc && t.intEnable == s.intEnable
    ensures (i.Push? || i.PushPsw?) ==> t.sp == Wrap16(s.sp - 2)
    ensures (i.Pop? || i.PopPsw?) ==> t.sp == Wrap16(s.sp + 2) && t.mem == s.mem
    ensures i.Xthl? ==> t.sp == s.sp
  {
    if i.Push? then PushPair(s, i.p)
    else if i.Pop? then PopPair(s, i.p)
    else if i.PushPsw? then PushStatus(s)
    else if i.PopPsw? then PopStatus(s)
    else ExchangeStackTop(s)
  }

  /** SPHL loads SP from HL, XCHG swaps DE and HL, DI and EI write the
      interrupt-enable flag. */
  function Exchange(s: Cpu, i: Instr): (t: Cpu)
    requires IsExchange(i)
    ensures t.pc == s.pc && t.a == s.a && t.cc == s.cc && t.mem == s.mem
    ensures i.Sphl? ==> t == s.(sp := Hl(s))
    ensures i.Di? ==> t == s.(intEnable := false)
    ensures i.Ei? ==> t == s.(intEnable := true)
  {
    if i.Sphl? then s.(sp := Hl(s))
    else if i.Xchg? then ExchangeDeHl(s)
    else if i.Di? then s.(intEnable := false)
    else s.(intEnable := true)
  }

  /** NOP, the branches, PCHL, OUT and IN: the only arms that can move PC or
      talk to the host. `input` is the host's `input(port)`. */
  function Control(s: Cpu, i: Instr, input: bv8 -> bv8): (e: Effect)
    ensures e.output.Some? <==> i.Out?
    ensures e.output.Some? ==> e.output.value == PortWrite(Arg(s, 1), s.a) && e.cpu == s
    ensures e.moved ==> i.Jump? || i.Call? || i.Ret? || i.Pchl?
    ensures !e.moved ==> e.cpu.pc == s.pc
    ensures i.In? ==> e == Effect(s.(a := input(Arg(s, 1))), None, false)
    ensures i.Nop? ==> e == Effect(s, None, false)
  {
    if i.Jump? then JumpIf(s, i.c)
    else if i.Call? then CallIf(s, i.c)
    else if i.Ret? then RetIf(s, i.c)
    else if i.Pchl? then Effect(s.(pc := Hl(s)), None, true)
    else if i.Out? then Effect(s, Some(PortWrite(Arg(s, 1), s.a)), false)
    else if i.In? then Done(s.(a := input(Arg(s, 1))))
    else Done(s)
  }

  /** The body of one arm of the dispatcher, by group. */
  function Execute(s: Cpu, i: Instr, input: bv8 -> bv8): (e: Effect)
    ensures e.output.Some? <==> i.Out?
    ensures e.moved ==> i.Jump? || i.Call? || i.Ret? || i.Pchl?
    ensures !e.moved ==> e.cpu.pc == s.pc
    ensures i.Pchl? ==> e.moved && e.cpu == s.(pc := Hl(s))
  {
    if IsTransfer(i) then Done(Transfer(s, i))
    else if IsAccess(i) then Done(Access(s, i))
    else if IsCount(i) then Done(Count(s, i))
    else if IsAccumulate(i) then Done(Accumulate(s, i))
    else if IsStack(i) then Done(Stack(s, i))
    else if IsExchange(i) then Done(Exchange(s, i))
    else Control(s, i, input)
  }

  /** `advance`: PC moves past the instruction unless the instruction set it. */
  function Advance(s: Cpu, length: nat, moved: bool): (t: Cpu)
    ensures t.(pc := s.pc) == s
    ensures t.pc == if moved then s.pc else Wrap16(s.pc + length)
  {
    if moved then s else s.(pc := Wrap16(s.pc + length))
  }

  /** `emulate_instruction`: one fetch-decode-execute-advance step. An opcode
      the core does not implement is a fault that carries the opcode and PC
      and leaves the state as it was. */
  function Exec(s: Cpu, input: bv8 -> bv8): (r: (Cpu, Outcome))
    ensures r.1.Fault? <==> Decode(s.mem[s.pc] as int).None?
    ensures r.1.Fault? ==> r == (s, Fault(s.mem[s.pc], s.pc))
    ensures r.1.Stepped? ==> (r.1.output.Some? <==> Decode(s.mem[s.pc] as int) == Some(Out))
  {
    var opcode := s.mem[s.pc];
    match Decode(opcode as int)
    case None => (s, Fault(opcode, s.pc))
    case Some(i) =>
      var e := Execute(s, i, input);
      (Advance(e.cpu, Length(i), e.moved), Stepped(e.output))
  }
}
