/** Properties of the dispatcher: which opcodes fault, which are aliases,
    what each instruction group changes and what it leaves alone, and the
    round trips between instructions that undo one another. */
module Properties {
  import opened Wrappers
  import opened Bytes
  import opened ConditionCodes
  import opened Alu
  import opened Decoder
  import opened Semantics

  /** The seven further opcodes the source lists as NOP. */
  lemma NopAliases()
    ensures Decode(0x08) == Decode(0x10) == Decode(0x18) == Decode(0x20) == Some(Nop)
    ensures Decode(0x28) == Decode(0x30) == Decode(0x38) == Decode(0x00) == Some(Nop)
  {
  }

  /** The second JMP and RET, and the three further CALLs. */
  lemma BranchAliases()
    ensures Decode(0xcb) == Decode(0xc3) == Some(Jump(Always))
    ensures Decode(0xd9) == Decode(0xc9) == Some(Ret(Always))
    ensures Decode(0xdd) == Decode(0xed) == Decode(0xfd) == Decode(0xcd) == Some(Call(Always))
  {
  }

  /** The MOV ranges: bits 5..3 name the destination, bits 2..0 the source. */
  lemma MovFields(op: Opcode)
    requires 0x40 <= op <= 0x7f && op != 0x76
    ensures Decode(op) == Some(Mov(Operand(op / 8), Operand(op)))
  {
  }

  /** The arithmetic/logic group in the order of the bits 5..3 of the opcode. */
  function GroupOp(op: Opcode): AluOp
  {
    match op / 8 % 8
    case 0 => Add
    case 1 => Adc
    case 2 => Sub
    case 3 => Sbb
    case 4 => Ana
    case 5 => Xra
    case 6 => Ora
    case _ => Cmp
  }

  /** The arithmetic/logic ranges: bits 5..3 name the operation and bits 2..0
      the operand. */
  lemma ArithFields(op: Opcode)
    requires 0x80 <= op <= 0xbf
    ensures Decode(op) == Some(Arith(GroupOp(op), Operand(op)))
  {
  }

  /** The immediate forms 0xC6, 0xCE, .., 0xFE take the same operation from
      the same bits. */
  lemma ImmediateFields(op: Opcode)
    requires 0xc0 <= op && op % 8 == 6
    ensures Decode(op) == Some(ArithImm(GroupOp(op)))
  {
  }

  /** The eight conditions of the conditional branches come in complementary
      pairs, each pair testing one flag; the unconditional forms always go. */
  lemma ConditionsComplement(cc: Flags)
    ensures Holds(cc, Always)
    ensures Holds(cc, NotZero) != Holds(cc, Zero) && (Holds(cc, Zero) <==> cc.z)
    ensures Holds(cc, NoCarry) != Holds(cc, Carry) && (Holds(cc, Carry) <==> cc.cy)
    ensures Holds(cc, ParityOdd) != Holds(cc, ParityEven) && (Holds(cc, ParityEven) <==> cc.p)
    ensures Holds(cc, Plus) != Holds(cc, Minus) && (Holds(cc, Minus) <==> cc.s)
  {
  }

  /** Everything but the registers and memory: SP, PC, interrupt flag, flags. */
  predicate SameControl(s: Cpu, t: Cpu)
  {
    t.sp == s.sp && t.intEnable == s.intEnable && t.cc == s.cc
  }

  /** MOV dst,src: dst takes the value of src; every other register, SP,
      the flags and (unless dst is M) memory are left alone. */
  lemma MovCopies(s: Cpu, input: bv8 -> bv8, dst: Reg, src: Reg)
    ensures var e := Execute(s, Mov(dst, src), input);
      && e == Effect(e.cpu, None, false)
      && Get(e.cpu, dst) == Get(s, src)
      && Untouched(s, e.cpu, dst)
      && (dst != M ==> e.cpu.mem == s.mem)
      && (dst == M ==> e.cpu.mem == s.mem[Hl(s) := Get(s, src)])
      && SameControl(s, e.cpu) && e.cpu.pc == s.pc
  {
  }

  /** INR r: the operand goes up by one modulo 256, Z and S follow the new
      value, CY, P and AC keep theirs, and nothing else changes. */
  lemma IncrementByOne(s: Cpu, input: bv8 -> bv8, r: Reg)
    ensures var e := Execute(s, Inr(r), input);
      && e.cpu.sp == s.sp && e.cpu.pc == s.pc && e.cpu.intEnable == s.intEnable
      && (r == M ==> e.cpu.mem == s.mem[Hl(s) := Get(s, r) + 1])
      && e == Done(e.cpu) && Get(e.cpu, r) == Get(s, r) + 1
      && e.cpu.cc == s.cc.(z := Get(e.cpu, r) == 0, s := Get(e.cpu, r) >= 0x80)
      && Untouched(s, e.cpu, r) && (r != M ==> e.cpu.mem == s.mem)
  {
    assert Execute(s, Inr(r), input) == Done(Count(s, Inr(r)));
  }

  /** DCR r: the operand goes down by one modulo 256, Z and S follow the new
      value, CY, P and AC keep theirs, and nothing else changes. */
  lemma DecrementByOne(s: Cpu, input: bv8 -> bv8, r: Reg)
    ensures var e := Execute(s, Dcr(r), input);
      && e.cpu.sp == s.sp && e.cpu.pc == s.pc && e.cpu.intEnable == s.intEnable
      && (r == M ==> e.cpu.mem == s.mem[Hl(s) := Get(s, r) - 1])
      && e == Done(e.cpu) && Get(e.cpu, r) == Get(s, r) - 1
      && e.cpu.cc == s.cc.(z := Get(e.cpu, r) == 0, s := Get(e.cpu, r) >= 0x80)
      && Untouched(s, e.cpu, r) && (r != M ==> e.cpu.mem == s.mem)
  {
    assert Execute(s, Dcr(r), input) == Done(Count(s, Dcr(r)));
  }

  /** INX: the pair (or SP) goes up by one modulo 65536; the flags, A,
      memory and the other pairs keep their values. */
  lemma IncrementWideByOne(s: Cpu, input: bv8 -> bv8, w: Wide)
    ensures var e := Execute(s, Inx(w), input);
      && e.cpu.pc == s.pc && e.cpu.intEnable == s.intEnable
      && e == Done(e.cpu) && GetWide(e.cpu, w) == Wrap16(GetWide(s, w) + 1)
      && e.cpu.cc == s.cc && e.cpu.a == s.a && e.cpu.mem == s.mem
      && (w != SP ==> e.cpu.sp == s.sp)
      && (w != RegPair(BC) ==> e.cpu.b == s.b && e.cpu.c == s.c)
      && (w != RegPair(DE) ==> e.cpu.d == s.d && e.cpu.e == s.e)
      && (w != RegPair(HL) ==> e.cpu.h == s.h && e.cpu.l == s.l)
  {
    assert Execute(s, Inx(w), input) == Done(Count(s, Inx(w)));
  }

  /** DCX: the pair (or SP) goes down by one modulo 65536; the flags, A,
      memory and the other pairs keep their values. */
  lemma DecrementWideByOne(s: Cpu, input: bv8 -> bv8, w: Wide)
    ensures var e := Execute(s, Dcx(w), input);
      && e.cpu.pc == s.pc && e.cpu.intEnable == s.intEnable
      && e == Done(e.cpu) && GetWide(e.cpu, w) == Wrap16(GetWide(s, w) - 1)
      && e.cpu.cc == s.cc && e.cpu.a == s.a && e.cpu.mem == s.mem
      && (w != SP ==> e.cpu.sp == s.sp)
      && (w != RegPair(BC) ==> e.cpu.b == s.b && e.cpu.c == s.c)
      && (w != RegPair(DE) ==> e.cpu.d == s.d && e.cpu.e == s.e)
      && (w != RegPair(HL) ==> e.cpu.h == s.h && e.cpu.l == s.l)
  {
    assert Execute(s, Dcx(w), input) == Done(Count(s, Dcx(w)));
  }

  /** Writing an operand twice keeps only the second value; a flags update
      in between commutes with the write. */
  lemma SetTwice(s: Cpu, r: Reg, x: bv8, y: bv8, f: Flags)
    ensures Set(Set(s, r, x).(cc := f), r, y) == Set(s, r, y).(cc := f)
  {
    match r
    case B => case C => case D => case E => case H => case L => case A =>
    case M =>
      assert s.mem[Hl(s) := x][Hl(s) := y] == s.mem[Hl(s) := y];
  }

  /** Writing back the value an operand already holds changes nothing. */
  lemma SetSame(s: Cpu, r: Reg)
    ensures Set(s, r, Get(s, r)) == s
  {
    match r
    case B => case C => case D => case E => case H => case L => case A =>
    case M =>
      assert s.mem[Hl(s) := s.mem[Hl(s)]] == s.mem;
  }

  /** DCR r undoes INR r on everything but the flags. */
  lemma DecrementUndoesIncrement(s: Cpu, r: Reg)
    ensures var u := Decrement(Increment(s, r), r); u == s.(cc := u.cc)
  {
    var v := Get(s, r);
    SetTwice(s, r, v + 1, v + 1 - 1, Increment(s, r).cc);
    SetSame(s, r);
  }

  /** INR r undoes DCR r on everything but the flags. */
  lemma IncrementUndoesDecrement(s: Cpu, r: Reg)
    ensures var u := Increment(Decrement(s, r), r); u == s.(cc := u.cc)
  {
    var v := Get(s, r);
    SetTwice(s, r, v - 1, v - 1 + 1, Decrement(s, r).cc);
    SetSame(s, r);
  }

  /** Rewriting a pair twice keeps only the second value. */
  lemma SetWideTwice(s: Cpu, w: Wide, x: word, y: word)
    ensures SetWide(SetWide(s, w, x), w, y) == SetWide(s, w, y)
  {
    match w
    case RegPair(BC) =>
    case RegPair(DE) =>
    case RegPair(HL) =>
    case SP =>
  }

  /** Writing back the value a pair already holds changes nothing. */
  lemma SetWideSame(s: Cpu, w: Wide)
    ensures SetWide(s, w, GetWide(s, w)) == s
  {
    match w
    case RegPair(BC) =>
      SplitAssembled(s.b, s.c);
      assert SetWide(s, w, AssembleWord(s.b, s.c)) == s.(b := s.b, c := s.c);
    case RegPair(DE) =>
      SplitAssembled(s.d, s.e);
      assert SetWide(s, w, AssembleWord(s.d, s.e)) == s.(d := s.d, e := s.e);
    case RegPair(HL) =>
      SplitAssembled(s.h, s.l);
      assert SetWide(s, w, AssembleWord(s.h, s.l)) == s.(h := s.h, l := s.l);
    case SP =>
  }

  /** DCX undoes INX, on pairs and SP alike: adding and then subtracting one
      modulo 65536 gives back the word, and the pair is all that changes. */
  lemma DecrementUndoesIncrementWide(s: Cpu, w: Wide)
    ensures var t := SetWide(s, w, Wrap16(GetWide(s, w) + 1));
      SetWide(t, w, Wrap16(GetWide(t, w) - 1)) == s
  {
    var v: int := GetWide(s, w);
    SetWideTwice(s, w, Wrap16(v + 1), GetWide(s, w));
    SetWideSame(s, w);
  }

  /** INX undoes DCX, on pairs and SP alike. */
  lemma IncrementUndoesDecrementWide(s: Cpu, w: Wide)
    ensures var t := SetWide(s, w, Wrap16(GetWide(s, w) - 1));
      SetWide(t, w, Wrap16(GetWide(t, w) + 1)) == s
  {
    var v: int := GetWide(s, w);
    SetWideTwice(s, w, Wrap16(v - 1), GetWide(s, w));
    SetWideSame(s, w);
  }

  /** POP p after PUSH p gives back the pair and SP; only the two stack bytes
      below SP have been written. */
  lemma PushPopPair(s: Cpu, p: Pair)
    ensures var t := PushPair(s, p); PopPair(t, p) == s.(mem := t.mem)
  {
    StackArith(s.sp);
    var t := PushPair(s, p);
    assert t.mem[t.sp] == Low(s, p) && t.mem[Wrap16(t.sp + 1)] == High(s, p);
    var u := PopPair(t, p);
    assert Low(u, p) == Low(s, p) && High(u, p) == High(s, p);
    assert u.mem == t.mem && u.sp == s.sp;
    match p
    case BC => case DE => case HL =>
  }

  /** `pop8` straight after `push8(v)` returns v and puts SP back; only the
      byte below SP has been written. */
  lemma PopAfterPush(s: Cpu, v: bv8)
    ensures var t := Push8(s, v); Pop8(t) == (v, s.(mem := t.mem))
  {
    assert Wrap16(Wrap16(s.sp - 1) + 1) == s.sp;
  }

  /** Two bytes pushed below SP sit at SP - 1 and SP - 2, wrapping, and two
      pops from there come back to SP. */
  lemma StackArith(sp: word)
    ensures Wrap16(Wrap16(sp - 2) + 1) == Wrap16(sp - 1)
    ensures Wrap16(Wrap16(sp - 2) + 2) == sp
    ensures Wrap16(sp - 1) != Wrap16(sp - 2)
  {
  }

  /** POP PSW after PUSH PSW gives back A, the flags and SP. */
  lemma PushPopStatus(s: Cpu)
    ensures var t := PushStatus(s); PopStatus(t) == s.(mem := t.mem)
  {
    var t := PushStatus(s);
    assert Wrap16(t.sp + 1) == Wrap16(s.sp - 1);
    DeserializeSerialize(s.cc);
  }

  /** XCHG twice is the identity. */
  lemma ExchangeDeHlTwice(s: Cpu)
    ensures ExchangeDeHl(ExchangeDeHl(s)) == s
  {
  }

  /** XTHL twice is the identity: the second exchange puts the old stack top
      back in memory and the old HL back in the registers. */
  lemma ExchangeStackTopTwice(s: Cpu)
    ensures ExchangeStackTop(ExchangeStackTop(s)) == s
  {
    var t := ExchangeStackTop(s);
    var next := Wrap16(s.sp + 1);
    assert next != s.sp;
    assert t.mem[s.sp := t.l][next := t.h] == s.mem;
  }

  /** LHLD at the address SHLD wrote reloads the H and L that were stored, and
      the two bytes at the address hold L and H. */
  lemma StoreLoadHl(s: Cpu, address: word)
    ensures var t := StoreHl(s, address);
      && t.mem[address] == s.l && t.mem[Wrap16(address + 1)] == s.h
      && LoadHl(t, address) == t
  {
    assert Wrap16(address + 1) != address;
  }

  /** A taken CALL pushes the address of the next instruction and jumps to
      the operand; RET there comes back to that address with SP restored. */
  lemma CallReturn(s: Cpu, c: Cond)
    requires Holds(s.cc, c)
    ensures var t := CallIf(s, c).cpu;
      && t.pc == Arg16(s) && t.sp == Wrap16(s.sp - 2)
      && RetIf(t, Always).cpu == s.(pc := Wrap16(s.pc + 3), mem := t.mem)
  {
    var ret := Wrap16(s.pc + 3);
    var t := CallIf(s, c).cpu;
    var hi := Wrap16(s.sp - 1);
    assert t.sp == Wrap16(s.sp - 2);
    assert Wrap16(t.sp + 1) == hi;
    assert Wrap16(t.sp + 2) == s.sp;
    assert t.sp != hi;
    assert t.mem[t.sp] == LowOrderByte(ret) && t.mem[hi] == HighOrderByte(ret);
    AssembleSplit(ret);
  }

  /** A conditional jump, call or return whose condition fails only moves PC
      past the instruction. */
  lemma BranchNotTaken(s: Cpu, input: bv8 -> bv8, i: Instr)
    requires Decode(s.mem[s.pc] as int) == Some(i)
    requires (i.Jump? || i.Call? || i.Ret?) && !Holds(s.cc, i.c)
    ensures Exec(s, input) == (s.(pc := Wrap16(s.pc + Length(i))), Stepped(None))
  {
    if i.Jump? {
      JumpNotTaken(s, input, i.c);
    } else if i.Call? {
      CallNotTaken(s, input, i.c);
    } else {
      ReturnNotTaken(s, input, i.c);
    }
    Fetched(s, input, i);
    assert Advance(s, Length(i), false) == s.(pc := Wrap16(s.pc + Length(i)));
  }

  /** Proof step: a jump whose condition fails is a NOP before `advance`. */
  lemma JumpNotTaken(s: Cpu, input: bv8 -> bv8, c: Cond)
    requires !Holds(s.cc, c)
    ensures Execute(s, Jump(c), input) == Done(s)
  {
    assert Execute(s, Jump(c), input) == Control(s, Jump(c), input) == JumpIf(s, c);
  }

  /** Proof step: a call whose condition fails is a NOP before `advance`. */
  lemma CallNotTaken(s: Cpu, input: bv8 -> bv8, c: Cond)
    requires !Holds(s.cc, c)
    ensures Execute(s, Call(c), input) == Done(s)
  {
    assert Execute(s, Call(c), input) == Control(s, Call(c), input) == CallIf(s, c);
  }

  /** Proof step: a return whose condition fails is a NOP before `advance`. */
  lemma ReturnNotTaken(s: Cpu, input: bv8 -> bv8, c: Cond)
    requires !Holds(s.cc, c)
    ensures Execute(s, Ret(c), input) == Done(s)
  {
    assert Execute(s, Ret(c), input) == Control(s, Ret(c), input) == RetIf(s, c);
  }

  /** Proof step: a fetched instruction is executed and then advanced past. */
  lemma Fetched(s: Cpu, input: bv8 -> bv8, i: Instr)
    requires Decode(s.mem[s.pc] as int) == Some(i)
    ensures var e := Execute(s, i, input);
      Exec(s, input) == (Advance(e.cpu, Length(i), e.moved), Stepped(e.output))
  {
  }

  /** JMP 0x0010 (C3 10 00): PC becomes 0x0010 and nothing else changes. */
  lemma JumpExample(s: Cpu, input: bv8 -> bv8)
    requires s.mem[s.pc] == 0xc3 && Arg(s, 1) == 0x10 && Arg(s, 2) == 0x00
    ensures Exec(s, input) == (s.(pc := 0x10), Stepped(None))
  {
    assert Decode(0xc3) == Some(Jump(Always));
    Fetched(s, input, Jump(Always));
    JumpTaken(s, input, Always);
    assert Arg16(s) == 0x10;
  }

  /** Proof step: the CALL arm is `call_if`. */
  lemma CallTaken(s: Cpu, input: bv8 -> bv8, c: Cond)
    ensures Execute(s, Call(c), input) == CallIf(s, c)
  {
    assert Execute(s, Call(c), input) == Control(s, Call(c), input);
  }

  /** Proof step: a jump whose condition holds sets PC to the operand address. */
  lemma JumpTaken(s: Cpu, input: bv8 -> bv8, c: Cond)
    requires Holds(s.cc, c)
    ensures Execute(s, Jump(c), input) == Effect(s.(pc := Arg16(s)), None, true)
  {
    assert Execute(s, Jump(c), input) == Control(s, Jump(c), input) == JumpIf(s, c);
  }

  /** ADI 0x02 (C6 02) with A = 0x3E: A becomes 0x40 with Z, S and CY clear. */
  lemma AddImmediateExample(s: Cpu, input: bv8 -> bv8)
    requires s.a == 0x3e && s.mem[s.pc] == 0xc6 && Arg(s, 1) == 0x02
    ensures var t := Exec(s, input).0;
      t.a == 0x40 && !t.cc.z && !t.cc.s && !t.cc.cy && t.pc == Wrap16(s.pc + 2)
  {
    assert Decode(0xc6) == Some(ArithImm(Add));
    Fetched(s, input, ArithImm(Add));
    assert Execute(s, ArithImm(Add), input) == Done(ApplyAlu(s, Add, 0x02));
  }

  /** HLT (0x76) is a fault carrying its opcode and PC. */
  lemma HaltExample(s: Cpu, input: bv8 -> bv8)
    requires s.mem[s.pc] == 0x76
    ensures Exec(s, input) == (s, Fault(0x76, s.pc))
  {
  }

  /** CALL 0x0006 at address 0 (CD 06 00): PC becomes 6 with the return
      address 0x0003 on top of the stack, low byte first, and a RET there
      comes back to 3 with SP restored. */
  lemma CallReturnExample(s: Cpu, input: bv8 -> bv8)
    requires s.pc == 0 && s.mem[0] == 0xcd && Arg(s, 1) == 0x06 && Arg(s, 2) == 0x00
    ensures var (t, outcome) := Exec(s, input);
      && outcome == Stepped(None) && t.pc == 6
      && t.mem[t.sp] == 0x03 && t.mem[Wrap16(t.sp + 1)] == 0x00
      && RetIf(t, Always).cpu == s.(pc := 3, mem := t.mem)
  {
    assert Decode(0xcd) == Some(Call(Always));
    Fetched(s, input, Call(Always));
    CallTaken(s, input, Always);
    CallReturn(s, Always);
    StackArith(s.sp);
    assert Arg16(s) == 6;
  }
}
