/** The instruction decoder: the 256-way `match` at the head of
    `emulate_instruction`, split off as a pure map from an opcode byte to the
    instruction it selects. `None` stands for the arms that call
    `unimplemented_instruction` (DAA, HLT, the eight RST opcodes). */
module Decoder {
  import opened Wrappers

  /** An opcode byte, read as its value 0..255. */
  type Opcode = x: int | 0 <= x < 0x100

  /** The operand field of an opcode: registers B..L and A, and M, the memory
      byte addressed by HL. */
  datatype Reg = B | C | D | E | H | L | M | A

  /** The register pairs named by their high register: BC, DE and HL. */
  datatype Pair = BC | DE | HL

  /** The sixteen-bit operand of LXI, INX, DCX and DAD: a register pair or SP. */
  datatype Wide = RegPair(pair: Pair) | SP

  /** The branch conditions; `Always` is the unconditional JMP/CALL/RET. */
  datatype Cond = Always | NotZero | Zero | NoCarry | Carry | ParityOdd | ParityEven | Plus | Minus

  /** The eight operations of the arithmetic/logic group, in opcode order. */
  datatype AluOp = Add | Adc | Sub | Sbb | Ana | Xra | Ora | Cmp

  datatype Instr =
    | Nop
    | Lxi(w: Wide)
    | Stax(p: Pair)
    | Ldax(p: Pair)
    | Inx(w: Wide)
    | Dcx(w: Wide)
    | Inr(r: Reg)
    | Dcr(r: Reg)
    | Mvi(r: Reg)
    | Rlc | Rrc | Ral | Rar
    | Dad(w: Wide)
    | Shld | Lhld | Sta | Lda
    | Cma | Stc | Cmc
    | Mov(dst: Reg, src: Reg)
    | Arith(op: AluOp, src: Reg)
    | ArithImm(op: AluOp)
    | Jump(c: Cond)
    | Call(c: Cond)
    | Ret(c: Cond)
    | Push(p: Pair)
    | Pop(p: Pair)
    | PushPsw | PopPsw
    | Out | In
    | Xthl | Pchl | Sphl | Xchg
    | Di | Ei

  /** `get_operand`: the register named by the low three bits of an opcode
      (`op & 0x07`, which on a value 0..255 is `op % 8`). */
  function Operand(op: Opcode): (r: Reg)
    ensures r == M <==> op % 8 == 6
    ensures r == A <==> op % 8 == 7
  {
    match op % 8
    case 0 => B
    case 1 => C
    case 2 => D
    case 3 => E
    case 4 => H
    case 5 => L
    case 6 => M
    case _ => A
  }

  /** The opcodes 0x40..0xBF: MOV dst,src with HLT taking the place of MOV M,M,
      then the arithmetic/logic group; the source's arms are eight-opcode ranges. */
  function DecodeMovAlu(op: Opcode): (r: Option<Instr>)
    requires 0x40 <= op < 0xc0
    ensures r.None? <==> op == 0x76
    ensures op < 0x80 && r.Some? ==> r.value.Mov?
    ensures 0x80 <= op ==> r.Some? && r.value.Arith? && r.value.src == Operand(op)
  {
    if op == 0x76 then None                          // HLT
    else if 0x40 <= op <= 0x47 then Some(Mov(B, Operand(op)))
    else if 0x48 <= op <= 0x4f then Some(Mov(C, Operand(op)))
    else if 0x50 <= op <= 0x57 then Some(Mov(D, Operand(op)))
    else if 0x58 <= op <= 0x5f then Some(Mov(E, Operand(op)))
    else if 0x60 <= op <= 0x67 then Some(Mov(H, Operand(op)))
    else if 0x68 <= op <= 0x6f then Some(Mov(L, Operand(op)))
    else if 0x70 <= op <= 0x77 then Some(Mov(M, Operand(op)))
    else if 0x78 <= op <= 0x7f then Some(Mov(A, Operand(op)))
    else if 0x80 <= op <= 0x87 then Some(Arith(Add, Operand(op)))
    else if 0x88 <= op <= 0x8f then Some(Arith(Adc, Operand(op)))
    else if 0x90 <= op <= 0x97 then Some(Arith(Sub, Operand(op)))
    else if 0x98 <= op <= 0x9f then Some(Arith(Sbb, Operand(op)))
    else if 0xa0 <= op <= 0xa7 then Some(Arith(Ana, Operand(op)))
    else if 0xa8 <= op <= 0xaf then Some(Arith(Xra, Operand(op)))
    else if 0xb0 <= op <= 0xb7 then Some(Arith(Ora, Operand(op)))
    else if 0xb8 <= op <= 0xbf then Some(Arith(Cmp, Operand(op)))
    else None
  }

  /** The dispatcher's `match opcode`, arm for arm, in three blocks of the
      opcode space; `None` is a call of `unimplemented_instruction`. */
  function Decode(op: Opcode): (r: Option<Instr>)
    ensures r.None? <==> op in {0x27, 0x76, 0xc7, 0xcf, 0xd7, 0xdf, 0xe7, 0xef, 0xf7, 0xff}
  {
    if op < 0x40 then DecodeLow(op)
    else if op < 0xc0 then DecodeMovAlu(op)
    else DecodeHigh(op)
  }

  /** The opcodes 0x00..0x3F: loads, stores, increments, rotates, DAD. */
  function DecodeLow(op: Opcode): (r: Option<Instr>)
    requires op < 0x40
    ensures r.None? <==> op == 0x27
    ensures op % 8 == 0 ==> r == Some(Nop)
  {
    match op
    case 0x00 => Some(Nop)
    case 0x01 => Some(Lxi(RegPair(BC)))
    case 0x02 => Some(Stax(BC))
    case 0x03 => Some(Inx(RegPair(BC)))
    case 0x04 => Some(Inr(B))
    case 0x05 => Some(Dcr(B))
    case 0x06 => Some(Mvi(B))
    case 0x07 => Some(Rlc)
    case 0x08 => Some(Nop)
    case 0x09 => Some(Dad(RegPair(BC)))
    case 0x0a => Some(Ldax(BC))
    case 0x0b => Some(Dcx(RegPair(BC)))
    case 0x0c => Some(Inr(C))
    case 0x0d => Some(Dcr(C))
    case 0x0e => Some(Mvi(C))
    case 0x0f => Some(Rrc)

    case 0x10 => Some(Nop)
    case 0x11 => Some(Lxi(RegPair(DE)))
    case 0x12 => Some(Stax(DE))
    case 0x13 => Some(Inx(RegPair(DE)))
    case 0x14 => Some(Inr(D))
    case 0x15 => Some(Dcr(D))
    case 0x16 => Some(Mvi(D))
    case 0x17 => Some(Ral)
    case 0x18 => Some(Nop)
    case 0x19 => Some(Dad(RegPair(DE)))
    case 0x1a => Some(Ldax(DE))
    case 0x1b => Some(Dcx(RegPair(DE)))
    case 0x1c => Some(Inr(E))
    case 0x1d => Some(Dcr(E))
    case 0x1e => Some(Mvi(E))
    case 0x1f => Some(Rar)

    case 0x20 => Some(Nop)
    case 0x21 => Some(Lxi(RegPair(HL)))
    case 0x22 => Some(Shld)
    case 0x23 => Some(Inx(RegPair(HL)))
    case 0x24 => Some(Inr(H))
    case 0x25 => Some(Dcr(H))
    case 0x26 => Some(Mvi(H))
    case 0x27 => None                                // DAA
    case 0x28 => Some(Nop)
    case 0x29 => Some(Dad(RegPair(HL)))
    case 0x2a => Some(Lhld)
    case 0x2b => Some(Dcx(RegPair(HL)))
    case 0x2c => Some(Inr(L))
    case 0x2d => Some(Dcr(L))
    case 0x2e => Some(Mvi(L))
    case 0x2f => Some(Cma)

    case 0x30 => Some(Nop)
    case 0x31 => Some(Lxi(SP))
    case 0x32 => Some(Sta)
    case 0x33 => Some(Inx(SP))
    case 0x34 => Some(Inr(M))
    case 0x35 => Some(Dcr(M))
    case 0x36 => Some(Mvi(M))
    case 0x37 => Some(Stc)
    case 0x38 => Some(Nop)
    case 0x39 => Some(Dad(SP))
    case 0x3a => Some(Lda)
    case 0x3b => Some(Dcx(SP))
    case 0x3c => Some(Inr(A))
    case 0x3d => Some(Dcr(A))
    case 0x3e => Some(Mvi(A))
    case 0x3f => Some(Cmc)
    case _ => None
  }

  /** The opcodes 0xC0..0xFF: branches, stack, immediates, I/O, RST. */
  function DecodeHigh(op: Opcode): (r: Option<Instr>)
    requires 0xc0 <= op
    ensures r.None? <==> op % 8 == 7
    ensures op % 8 == 0 ==> r.Some? && r.value.Ret?
    ensures op % 8 == 2 ==> r.Some? && r.value.Jump?
    ensures op % 8 == 4 ==> r.Some? && r.value.Call?
  {
    match op
    case 0xc0 => Some(Ret(NotZero))
    case 0xc1 => Some(Pop(BC))
    case 0xc2 => Some(Jump(NotZero))
    case 0xc3 => Some(Jump(Always))
    case 0xc4 => Some(Call(NotZero))
    case 0xc5 => Some(Push(BC))
    case 0xc6 => Some(ArithImm(Add))
    case 0xc7 => None                                // RST 0
    case 0xc8 => Some(Ret(Zero))
    case 0xc9 => Some(Ret(Always))
    case 0xca => Some(Jump(Zero))
    case 0xcb => Some(Jump(Always))
    case 0xcc => Some(Call(Zero))
    case 0xcd => Some(Call(Always))
    case 0xce => Some(ArithImm(Adc))
    case 0xcf => None                                // RST 1

    case 0xd0 => Some(Ret(NoCarry))
    case 0xd1 => Some(Pop(DE))
    case 0xd2 => Some(Jump(NoCarry))
    case 0xd3 => Some(Out)
    case 0xd4 => Some(Call(NoCarry))
    case 0xd5 => Some(Push(DE))
    case 0xd6 => Some(ArithImm(Sub))
    case 0xd7 => None                                // RST 2
    case 0xd8 => Some(Ret(Carry))
    case 0xd9 => Some(Ret(Always))
    case 0xda => Some(Jump(Carry))
    case 0xdb => Some(In)
    case 0xdc => Some(Call(Carry))
    case 0xdd => Some(Call(Always))
    case 0xde => Some(ArithImm(Sbb))
    case 0xdf => None                                // RST 3

    case 0xe0 => Some(Ret(ParityOdd))
    case 0xe1 => Some(Pop(HL))
    case 0xe2 => Some(Jump(ParityOdd))
    case 0xe3 => Some(Xthl)
    case 0xe4 => Some(Call(ParityOdd))
    case 0xe5 => Some(Push(HL))
    case 0xe6 => Some(ArithImm(Ana))
    case 0xe7 => None                                // RST 4
    case 0xe8 => Some(Ret(ParityEven))
    case 0xe9 => Some(Pchl)
    case 0xea => Some(Jump(ParityEven))
    case 0xeb => Some(Xchg)
    case 0xec => Some(Call(ParityEven))
    case 0xed => Some(Call(Always))
    case 0xee => Some(ArithImm(Xra))
    case 0xef => None                                // RST 5

    case 0xf0 => Some(Ret(Plus))
    case 0xf1 => Some(PopPsw)
    case 0xf2 => Some(Jump(Plus))
    case 0xf3 => Some(Di)
    case 0xf4 => Some(Call(Plus))
    case 0xf5 => Some(PushPsw)
    case 0xf6 => Some(ArithImm(Ora))
    case 0xf7 => None                                // RST 6
    case 0xf8 => Some(Ret(Minus))
    case 0xf9 => Some(Sphl)
    case 0xfa => Some(Jump(Minus))
    case 0xfb => Some(Ei)
    case 0xfc => Some(Call(Minus))
    case 0xfd => Some(Call(Always))
    case 0xfe => Some(ArithImm(Cmp))
    case 0xff => None                                // RST 7
    case _ => None
  }

  /** The byte length of an instruction: the opcode and its immediate byte or
      sixteen-bit address, the distance `advance` moves PC past it. */
  function Length(i: Instr): (n: nat)
    ensures 1 <= n <= 3
    ensures (i.Jump? || i.Call?) ==> n == 3
    ensures (i.Ret? || i.Pchl?) ==> n == 1
  {
    match i
    case Lxi(_) | Shld | Lhld | Sta | Lda | Jump(_) | Call(_) => 3
    case Mvi(_) | ArithImm(_) | Out | In => 2
    case _ => 1
  }
}
