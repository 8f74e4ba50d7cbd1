/** The CPU as the dispatcher sees it: one object whose registers, flags and
    64 KiB memory `emulate_instruction` updates in place, a field at a time.
    `Snapshot` reads the object as a `Semantics.Cpu` value, and every method
    here is specified by the pure function of `Semantics` it carries out, so
    `Step` is proved to be one step of `Semantics.Exec`. */
module Machine {
  import opened Wrappers
  import opened Bytes
  import opened ConditionCodes
  import opened Decoder
  import opened Semantics
  import Alu

  class State {
    var a: bv8
    var b: bv8
    var c: bv8
    var d: bv8
    var e: bv8
    var h: bv8
    var l: bv8
    var sp: word
    var pc: word
    var intEnable: bool
    var cc: Flags
    const memory: array<bv8>

    /** The memory buffer covers the whole 16-bit address space. */
    ghost predicate Valid()
      reads this
    {
      memory.Length == 0x10000
    }

    /** The state as a value. */
    ghost function Snapshot(): Cpu
      requires Valid()
      reads this, memory
    {
      Cpu(a, b, c, d, e, h, l, sp, pc, intEnable, cc, memory[..])
    }

    /** A machine with the given memory image, registers, SP and PC zero,
        interrupts disabled and every flag clear. */
    constructor (image: Memory)
      ensures Valid() && fresh(memory)
      ensures Snapshot() == Cpu(0, 0, 0, 0, 0, 0, 0, 0, 0, false, Cleared, image)
    {
      a, b, c, d, e, h, l := 0, 0, 0, 0, 0, 0, 0;
      sp, pc := 0, 0;
      intEnable := false;
      cc := Cleared;
      memory := new bv8[0x10000](i requires 0 <= i < 0x10000 => image[i]);
      new;
      assert memory[..] == image;
    }

    /** `get_arg(n)`: the byte n places after the opcode. */
    method GetArg(n: nat) returns (v: bv8)
      requires Valid()
      ensures v == Arg(Snapshot(), n)
    {
      v := memory[Wrap16(pc + n)];
    }

    /** The sixteen-bit operand, `assemble_word(get_arg(2), get_arg(1))`. */
    method GetArg16() returns (w: word)
      requires Valid()
      ensures w == Arg16(Snapshot())
    {
      var lo := GetArg(1);
      var hi := GetArg(2);
      w := AssembleWord(hi, lo);
    }

    /** `get_operand`: a register, or for M the byte HL addresses (`get_m`). */
    method GetOperand(r: Reg) returns (v: bv8)
      requires Valid()
      ensures v == Get(Snapshot(), r)
    {
      match r
      case B => v := b;
      case C => v := c;
      case D => v := d;
      case E => v := e;
      case H => v := h;
      case L => v := l;
      case M => v := memory[AssembleWord(h, l)];
      case A => v := a;
    }

    /** Assignment to an operand; for M this is `set_m`, a store at HL. */
    method SetOperand(r: Reg, v: bv8)
      requires Valid()
      modifies this, memory
      ensures Valid()
      ensures Snapshot() == Set(old(Snapshot()), r, v)
    {
      match r
      case B => b := v;
      case C => c := v;
      case D => d := v;
      case E => e := v;
      case H => h := v;
      case L => l := v;
      case M => memory[AssembleWord(h, l)] := v;
      case A => a := v;
    }

    /** A register pair as `assemble_word(high, low)`, or SP. */
    method GetPair(w: Wide) returns (v: word)
      requires Valid()
      ensures v == GetWide(Snapshot(), w)
    {
      match w
      case RegPair(BC) => v := AssembleWord(b, c);
      case RegPair(DE) => v := AssembleWord(d, e);
      case RegPair(HL) => v := AssembleWord(h, l);
      case SP => v := sp;
    }

    /** A word written to a pair as `high_order_byte` and `low_order_byte`,
        or to SP. */
    method SetPair(w: Wide, v: word)
      requires Valid()
      modifies this
      ensures Valid()
      ensures Snapshot() == SetWide(old(Snapshot()), w, v)
    {
      match w
      case RegPair(BC) => b := HighOrderByte(v); c := LowOrderByte(v);
      case RegPair(DE) => d := HighOrderByte(v); e := LowOrderByte(v);
      case RegPair(HL) => h := HighOrderByte(v); l := LowOrderByte(v);
      case SP => sp := v;
    }

    /** `push8`. */
    method Push8(v: bv8)
      requires Valid()
      modifies this, memory
      ensures Valid()
      ensures Snapshot() == Semantics.Push8(old(Snapshot()), v)
    {
      sp := Wrap16(sp - 1);
      memory[sp] := v;
    }

    /** `pop8`. */
    method Pop8() returns (v: bv8)
      requires Valid()
      modifies this
      ensures Valid()
      ensures (v, Snapshot()) == Semantics.Pop8(old(Snapshot()))
    {
      v := memory[sp];
      sp := Wrap16(sp + 1);
    }

    /** `jump_if`. */
    method JumpIf(cond: Cond) returns (moved: bool)
      requires Valid()
      modifies this
      ensures Valid()
      ensures Effect(Snapshot(), None, moved) == Semantics.JumpIf(old(Snapshot()), cond)
    {
      moved := Holds(cc, cond);
      if moved {
        pc := GetArg16();
      }
    }

    /** `call_if`: the operand is read before the return address is pushed. */
    method CallIf(cond: Cond) returns (moved: bool)
      requires Valid()
      modifies this, memory
      ensures Valid()
      ensures Effect(Snapshot(), None, moved) == Semantics.CallIf(old(Snapshot()), cond)
    {
      moved := Holds(cc, cond);
      if moved {
        var target := GetArg16();
        var ret := Wrap16(pc + 3);
        Push8(HighOrderByte(ret));
        Push8(LowOrderByte(ret));
        pc := target;
      }
    }

    /** `ret_if`. */
    method RetIf(cond: Cond) returns (moved: bool)
      requires Valid()
      modifies this
      ensures Valid()
      ensures Effect(Snapshot(), None, moved) == Semantics.RetIf(old(Snapshot()), cond)
    {
      moved := Holds(cc, cond);
      if moved {
        var lo := Pop8();
        var hi := Pop8();
        pc := AssembleWord(hi, lo);
      }
    }

    /** `add8` .. `cmp8` on A and an operand value. */
    method ApplyAlu(op: AluOp, v: bv8)
      requires Valid()
      modifies this
      ensures Valid()
      ensures Snapshot() == Semantics.ApplyAlu(old(Snapshot()), op, v)
    {
      var o := Operate(op, a, cc, v);
      a, cc := o.a, o.cc;
    }

    /** `memory.set`: one byte stored. */
    method StoreByte(address: word, v: bv8)
      requires Valid()
      modifies memory
      ensures Valid()
      ensures Snapshot() == Store(old(Snapshot()), address, v)
    {
      memory[address] := v;
    }

    /** SHLD: L to the address, H to the byte after it. */
    method StoreHl(address: word)
      requires Valid()
      modifies memory
      ensures Valid()
      ensures Snapshot() == Semantics.StoreHl(old(Snapshot()), address)
    {
      memory[address] := l;
      memory[Wrap16(address as int + 1)] := h;
    }

    /** LHLD: L from the address, H from the byte after it. */
    method LoadHl(address: word)
      requires Valid()
      modifies this
      ensures Valid()
      ensures Snapshot() == Semantics.LoadHl(old(Snapshot()), address)
    {
      l := memory[address];
      h := memory[Wrap16(address as int + 1)];
    }

    /** INR r: Z and S from the new value, then the value itself. */
    method Increment(r: Reg)
      requires Valid()
      modifies this, memory
      ensures Valid()
      ensures Snapshot() == Semantics.Increment(old(Snapshot()), r)
    {
      var v := GetOperand(r);
      var next := v + 1;
      SetOperand(r, next);
      cc := SetS(SetZ(cc, next), next);
    }

    /** DCR r: Z and S from the new value, then the value itself. */
    method Decrement(r: Reg)
      requires Valid()
      modifies this, memory
      ensures Valid()
      ensures Snapshot() == Semantics.Decrement(old(Snapshot()), r)
    {
      var v := GetOperand(r);
      var next := v - 1;
      SetOperand(r, next);
      cc := SetS(SetZ(cc, next), next);
    }

    /** DAD: `add16` of a pair or SP into HL. */
    method AddToHl(w: Wide)
      requires Valid()
      modifies this
      ensures Valid()
      ensures Snapshot() == Semantics.AddToHl(old(Snapshot()), w)
    {
      var addend := GetPair(w);
      var (sum, carry) := Alu.Add16(AssembleWord(h, l), addend);
      SetPair(RegPair(HL), sum);
      cc := cc.(cy := carry);
    }

    /** PUSH: the high register, then the low one. */
    method PushPair(p: Pair)
      requires Valid()
      modifies this, memory
      ensures Valid()
      ensures Snapshot() == Semantics.PushPair(old(Snapshot()), p)
    {
      match p
      case BC => Push8(b); Push8(c);
      case DE => Push8(d); Push8(e);
      case HL => Push8(h); Push8(l);
    }

    /** POP: the low register is popped first. */
    method PopPair(p: Pair)
      requires Valid()
      modifies this
      ensures Valid()
      ensures Snapshot() == Semantics.PopPair(old(Snapshot()), p)
    {
      var lo := Pop8();
      var hi := Pop8();
      match p
      case BC => c := lo; b := hi;
      case DE => e := lo; d := hi;
      case HL => l := lo; h := hi;
    }

    /** PUSH PSW: A, then the serialized flags. */
    method PushStatus()
      requires Valid()
      modifies this, memory
      ensures Valid()
      ensures Snapshot() == Semantics.PushStatus(old(Snapshot()))
    {
      var flags := Serialize(cc);
      Push8(a);
      Push8(flags);
    }

    /** POP PSW: the flag byte, then A. */
    method PopStatus()
      requires Valid()
      modifies this
      ensures Valid()
      ensures Snapshot() == Semantics.PopStatus(old(Snapshot()))
    {
      var flags := Pop8();
      var v := Pop8();
      cc := Deserialize(flags);
      a := v;
    }

    /** XTHL: two pops into L and H, then pushes of the old H and L. */
    method ExchangeStackTop()
      requires Valid()
      modifies this, memory
      ensures Valid()
      ensures Snapshot() == Semantics.ExchangeStackTop(old(Snapshot()))
    {
      var newL := Pop8();
      var newH := Pop8();
      var oldH, oldL := h, l;
      Push8(oldH);
      Push8(oldL);
      l, h := newL, newH;
    }

    /** LXI, MVI and MOV. */
    method Transfer(i: Instr)
      requires Valid()
      requires IsTransfer(i)
      modifies this, memory
      ensures Valid()
      ensures Snapshot() == Semantics.Transfer(old(Snapshot()), i)
    {
      if i.Lxi? {
        var v := GetArg16();
        SetPair(i.w, v);
      } else if i.Mvi? {
        var v := GetArg(1);
        SetOperand(i.r, v);
      } else {
        var v := GetOperand(i.src);
        SetOperand(i.dst, v);
      }
    }

    /** The arms that address memory directly: STAX, LDAX, STA, LDA, SHLD
        and LHLD. */
    method Access(i: Instr)
      requires Valid()
      requires IsAccess(i)
      modifies this, memory
      ensures Valid()
      ensures Snapshot() == Semantics.Access(old(Snapshot()), i)
    {
      if i.Stax? {
        var address := GetPair(RegPair(i.p));
        StoreByte(address, a);
      } else if i.Ldax? {
        var address := GetPair(RegPair(i.p));
        a := memory[address];
      } else if i.Sta? {
        var address := GetArg16();
        StoreByte(address, a);
      } else if i.Lda? {
        var address := GetArg16();
        a := memory[address];
      } else if i.Shld? {
        var address := GetArg16();
        StoreHl(address);
      } else {
        var address := GetArg16();
        LoadHl(address);
      }
    }

    /** The arms that count and add: INX, DCX, INR, DCR and DAD. */
    method Count(i: Instr)
      requires Valid()
      requires IsCount(i)
      modifies this, memory
      ensures Valid()
      ensures Snapshot() == Semantics.Count(old(Snapshot()), i)
    {
      if i.Inx? {
        var v := GetPair(i.w);
        SetPair(i.w, Wrap16(v as int + 1));
      } else if i.Dcx? {
        var v := GetPair(i.w);
        SetPair(i.w, Wrap16(v as int - 1));
      } else if i.Inr? {
        Increment(i.r);
      } else if i.Dcr? {
        Decrement(i.r);
      } else {
        AddToHl(i.w);
      }
    }

    /** The accumulator arms: the four rotates, CMA, STC, CMC and the
        arithmetic/logic group on an operand or an immediate byte. */
    method Accumulate(i: Instr)
      requires Valid()
      requires IsAccumulate(i)
      modifies this
      ensures Valid()
      ensures Snapshot() == Semantics.Accumulate(old(Snapshot()), i)
    {
      if i.Rlc? {
        var o := Alu.Rlc(a, cc);
        a, cc := o.a, o.cc;
      } else if i.Rrc? {
        var o := Alu.Rrc(a, cc);
        a, cc := o.a, o.cc;
      } else if i.Ral? {
        var o := Alu.Ral(a, cc);
        a, cc := o.a, o.cc;
      } else if i.Rar? {
        var o := Alu.Rar(a, cc);
        a, cc := o.a, o.cc;
      } else if i.Cma? {
        a := !a;
      } else if i.Stc? {
        cc := cc.(cy := true);
      } else if i.Cmc? {
        cc := cc.(cy := !cc.cy);
      } else if i.Arith? {
        var v := GetOperand(i.src);
        ApplyAlu(i.op, v);
      } else {
        var v := GetArg(1);
        ApplyAlu(i.op, v);
      }
    }

    /** The stack arms: PUSH, POP, PUSH PSW, POP PSW and XTHL. */
    method Stack(i: Instr)
      requires Valid()
      requires IsStack(i)
      modifies this, memory
      ensures Valid()
      ensures Snapshot() == Semantics.Stack(old(Snapshot()), i)
    {
      if i.Push? {
        PushPair(i.p);
      } else if i.Pop? {
        PopPair(i.p);
      } else if i.PushPsw? {
        PushStatus();
      } else if i.PopPsw? {
        PopStatus();
      } else {
        ExchangeStackTop();
      }
    }

    /** The register exchanges SPHL and XCHG, and DI and EI. */
    method Exchange(i: Instr)
      requires Valid()
      requires IsExchange(i)
      modifies this
      ensures Valid()
      ensures Snapshot() == Semantics.Exchange(old(Snapshot()), i)
    {
      if i.Sphl? {
        sp := AssembleWord(h, l);
      } else if i.Xchg? {
        d, h := h, d;
        e, l := l, e;
      } else if i.Di? {
        intEnable := false;
      } else {
        intEnable := true;
      }
    }

    /** The conditional and unconditional JMP, CALL and RET. */
    method Branch(i: Instr, ghost input: bv8 -> bv8) returns (moved: bool)
      requires Valid()
      requires i.Jump? || i.Call? || i.Ret?
      modifies this, memory
      ensures Valid()
      ensures Effect(Snapshot(), None, moved) == Semantics.Control(old(Snapshot()), i, input)
    {
      if i.Jump? {
        moved := JumpIf(i.c);
      } else if i.Call? {
        moved := CallIf(i.c);
      } else {
        moved := RetIf(i.c);
      }
    }

    /** The remaining arms: NOP, the branches, PCHL, OUT and IN. Only these
        can move PC or talk to the host. */
    method Control(i: Instr, input: bv8 -> bv8) returns (moved: bool, output: Option<PortWrite>)
      requires Valid()
      modifies this, memory
      ensures Valid()
      ensures Effect(Snapshot(), output, moved) == Semantics.Control(old(Snapshot()), i, input)
    {
      moved, output := false, None;
      if i.Jump? || i.Call? || i.Ret? {
        moved := Branch(i, input);
      } else if i.Pchl? {
        pc := AssembleWord(h, l);
        moved := true;
      } else if i.Out? {
        var port := GetArg(1);
        output := Some(PortWrite(port, a));
      } else if i.In? {
        var port := GetArg(1);
        a := input(port);
      }
    }

    /** One arm of the dispatcher, by group. */
    method Run(i: Instr, input: bv8 -> bv8) returns (moved: bool, output: Option<PortWrite>)
      requires Valid()
      modifies this, memory
      ensures Valid()
      ensures Effect(Snapshot(), output, moved) == Execute(old(Snapshot()), i, input)
    {
      moved, output := false, None;
      if IsTransfer(i) {
        Transfer(i);
      } else if IsAccess(i) {
        Access(i);
      } else if IsCount(i) {
        Count(i);
      } else if IsAccumulate(i) {
        Accumulate(i);
      } else if IsStack(i) {
        Stack(i);
      } else if IsExchange(i) {
        Exchange(i);
      } else {
        moved, output := Control(i, input);
      }
    }

    /** `advance`: PC moves past the instruction unless the arm set it. */
    method Advance(length: nat, moved: bool)
      requires Valid()
      modifies this
      ensures Valid()
      ensures Snapshot() == Semantics.Advance(old(Snapshot()), length, moved)
    {
      if !moved {
        pc := Wrap16(pc + length);
      }
    }

    /** `emulate_instruction`: fetch the opcode at PC, run its arm and advance
        PC, or report a fault for an opcode the core does not implement. */
    method Step(input: bv8 -> bv8) returns (outcome: Outcome)
      requires Valid()
      modifies this, memory
      ensures Valid()
      ensures (Snapshot(), outcome) == Exec(old(Snapshot()), input)
    {
      var opcode := memory[pc];
      match Decode(opcode as int)
      case None =>
        outcome := Fault(opcode, pc);
      case Some(i) =>
        var moved, output := Run(i, input);
        Advance(Length(i), moved);
        outcome := Stepped(output);
    }
  }
}
