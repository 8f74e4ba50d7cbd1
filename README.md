# Intel 8080 execution core, in Dafny

This project models the execution core of a small Intel 8080 emulator written
in Rust. The core has two parts:

- `src/bytes.rs` holds the byte and word helpers. They build a 16-bit word
  from a high and a low byte, split a word again, and rotate a byte one bit
  left or right.
- `src/cpu.rs` holds `emulate_instruction`. It runs one step: it fetches the
  opcode at PC, takes the arm of a 256-way `match` that belongs to it, changes
  the CPU state in place and then calls `advance`. Opcodes without an
  implementation go to `unimplemented_instruction`, which aborts.

The modules follow that structure:

| file | module | what it holds |
|---|---|---|
| `wrappers.dfy` | `Wrappers` | `Option` |
| `bytes.dfy` | `Bytes` | `assemble_word`, `high_order_byte`, `low_order_byte`, `rotate_right`, `rotate_left`, and their round-trip, inverse and periodicity lemmas |
| `condition_codes.dfy` | `ConditionCodes` | the five flags, `set_z`/`set_s`, parity, and the PSW flag byte (`serialize`/`deserialize`) |
| `alu.dfy` | `Alu` | `add8` .. `cmp8`, `add16`, and the accumulator rotates RLC, RRC, RAL and RAR |
| `decode.dfy` | `Decoder` | the opcode `match` as a map from an opcode to an `Option<Instr>`, plus instruction lengths |
| `semantics.dfy` | `Semantics` | one step as a pure function `Exec` on a snapshot `Cpu` of the state |
| `properties.dfy` | `Properties` | lemmas about decoding, faults, aliases, frames and round trips |
| `state.dfy` | `Machine` | class `State`, the mutable CPU: register fields, a 65536-byte `array` for memory, and a `Step` method |

`Machine.State.Step` is the imperative dispatcher. It reads the opcode from
the array, decodes it, and runs the arm by assigning fields and array
elements one at a time. It then advances PC. Its postcondition says the new
state and the outcome are exactly what `Semantics.Exec` computes from the old
state. Every helper method of the class is proved the same way against its
pure counterpart. The lemmas in `Properties` about `Exec`, `Execute` and the
per-arm functions therefore hold for the mutable machine as well.

Three choices shape the model:

- **Arithmetic wraps.** Registers are `bv8`. A 16-bit word is an integer in
  0..0xFFFF, and every 16-bit sum or difference is reduced with `Wrap16`. This
  covers the source's unchecked `+`/`-` as well as its `wrapping_*` calls.
- **Faults.** The arms that call `unimplemented_instruction` decode to `None`.
  These are DAA, HLT and the eight RST opcodes. The step then returns
  `Fault(opcode, pc)` and leaves the state unchanged. It does not reach
  `advance`.
- **Advance.** `advance` adds the instruction length to PC unless the arm set
  PC itself. Those arms are a taken jump, call or return, and PCHL.

## Model

| member | source | states |
|---|---|---|
| Bytes.AssembleWord | src/bytes.rs:1-3 | the word is h * 256 + l |
| Bytes.HighOrderByte | src/bytes.rs:5-7 | the byte's value is n / 256 |
| Bytes.LowOrderByte | src/bytes.rs:9-11 | the byte's value is n % 256 |
| Bytes.RotateRight | src/bytes.rs:13-15 | bit 0 lands in bit 7 and bits 7..1 move down one place; arithmetically (n % 2) * 128 + n / 2 |
| Bytes.RotateLeft | src/bytes.rs:17-19 | bit 7 lands in bit 0 and bits 6..0 move up one place; arithmetically (n % 128) * 2 + n / 128 |
| Bytes.SplitAssembled | src/bytes.rs:1-11 | splitting an assembled word gives back its high and its low byte |
| Bytes.AssembleSplit | src/bytes.rs:1-11 | reassembling the two halves of any 16-bit word gives back the word |
| Bytes.RotationsInverse | src/bytes.rs:13-19 | rotate_left undoes rotate_right, and the other way round, for every byte |
| Bytes.UnitTestValues | src/bytes.rs:25-65 | every value the five unit tests assert |
| Bytes.FixedPoints | src/bytes.rs:50-65 | 0x00 and 0xFF stay fixed under any number of rotations in either direction |
| Bytes.EightRotations | src/bytes.rs:13-19 | eight rotations in either direction give back the byte |
| Bytes.RotateLeftNAdd | src/bytes.rs:17-19 | j left rotations followed by k more are j + k rotations |
| Bytes.RotateRightNAdd | src/bytes.rs:13-15 | j right rotations followed by k more are j + k rotations |
| Bytes.RotationPeriod | src/bytes.rs:13-19 | only the rotation count modulo 8 matters |
| Bytes.RotationsNInverse | src/bytes.rs:13-19 | k right rotations undo k left rotations, and the other way round |
| ConditionCodes.ZspFlags | src/cpu.rs:352-394 | Z, S and P describe the result byte (zero, bit 7, even parity); CY and AC are kept |
| ConditionCodes.SetZ | src/cpu.rs:33-39 | Z is set exactly when the byte is zero; no other flag changes |
| ConditionCodes.SetS | src/cpu.rs:33-39 | S is set exactly when bit 7 of the byte is set; no other flag changes |
| ConditionCodes.Serialize | src/cpu.rs:656-662 | the PSW flag byte has the reserved bits 5 and 3 clear and bit 1 set |
| ConditionCodes.Deserialize | src/cpu.rs:638-644 | re-serializing a popped flag byte gives back its five flag bits, with the reserved bits normalised |
| ConditionCodes.DeserializeSerialize | src/cpu.rs:638-662 | every flag combination survives PUSH PSW followed by POP PSW |
| Alu.Add8 | src/cpu.rs:352-356 | the result together with CY is the true nine-bit sum A + v; AC is the carry out of bit 3; Z, S and P describe the result |
| Alu.Adc8 | src/cpu.rs:357-361 | the result together with CY is the nine-bit sum A + v + CY; Z, S and P describe the result |
| Alu.Sub8 | src/cpu.rs:363-367 | the result is A - v modulo 256; CY is set exactly when v > A; Z exactly when A == v |
| Alu.Sbb8 | src/cpu.rs:368-372 | widened to sixteen bits, the result less 256 when CY is set is the true difference A - v - CY; CY is set exactly when v + CY exceeds A; Z, S and P describe the result |
| Alu.And8 | src/cpu.rs:374-378 | the result holds only bits set in both A and v, and all of them; CY and AC are cleared |
| Alu.Xor8 | src/cpu.rs:379-383 | xor-ing the result with v gives back A; CY and AC are cleared |
| Alu.Or8 | src/cpu.rs:385-389 | the result holds exactly the bits set in A or in v; CY and AC are cleared |
| Alu.Cmp8 | src/cpu.rs:390-394 | Z means A == v, CY means A < v, and S and P are those of A - v |
| Alu.Add16 | src/cpu.rs:55-59 | the sum together with CY is the true seventeen-bit sum HL + addend |
| Alu.Rlc | src/cpu.rs:48-53 | A is rotated left and CY holds the bit that wrapped round; no other flag changes |
| Alu.RlcAsWritten | src/cpu.rs:48-53 | A is rotated left and CY is always cleared, as that arm computes it |
| Alu.Rrc | src/cpu.rs:87-92 | A is rotated right and CY holds the bit that wrapped round; no other flag changes |
| Alu.Ral | src/cpu.rs:127-132 | A shifts left with the old CY entering bit 0, and CY takes the old bit 7 |
| Alu.RalAsWritten | src/cpu.rs:127-132 | A is as for RAL, but CY is always cleared, as that arm computes it |
| Alu.Rar | src/cpu.rs:166-171 | A shifts right with the old CY entering bit 7, and CY takes the old bit 0 |
| Alu.RotatesUndo | src/cpu.rs:48-171 | RAR undoes RAL including the carry; RRC and RLC undo each other on A |
| Alu.RotateCarryLost | src/cpu.rs:52 | for A = 0x80 the corrected RLC/RAL set CY and the as-written ones clear it, so RAR no longer undoes RAL |
| Decoder.Operand | src/cpu.rs:306-394 | the low three bits of the opcode select M exactly at 6 and A exactly at 7 |
| Decoder.Length | src/cpu.rs:704 | every instruction is one to three bytes long; jumps and calls take three bytes, returns and PCHL one |
| Decoder.Decode | src/cpu.rs:14-702 | an opcode has no instruction, and so goes to `unimplemented_instruction`, exactly when it is DAA, HLT or one of the eight RST opcodes |
| Decoder.DecodeLow | src/cpu.rs:15-302 | among 0x00..0x3F only DAA (0x27) has no instruction, and 0x00, 0x08, .., 0x38 are all NOP |
| Decoder.DecodeMovAlu | src/cpu.rs:306-394 | among 0x40..0xBF only HLT (0x76) has no instruction; below 0x80 every instruction is a MOV, and from 0x80 on every one is an ALU operation on the operand named by bits 2..0 |
| Decoder.DecodeHigh | src/cpu.rs:396-701 | among 0xC0..0xFF exactly the RST opcodes (low bits 7) have no instruction; low bits 0 give a return, 2 a jump and 4 a call |
| Semantics.Hl | src/cpu.rs:595-599 | the address in HL is H * 256 + L |
| Semantics.Arg | src/cpu.rs:16-20 | no contract of its own: the byte n places after PC, wrapping at 65536 |
| Semantics.Arg16 | src/cpu.rs:413-416 | the operand word is the byte at PC + 2 times 256 plus the byte at PC + 1, low byte first |
| Semantics.Get | src/cpu.rs:306-350 | no contract of its own: the register named, or for M the byte at HL; Semantics.Set reads it back |
| Semantics.Store | src/cpu.rs:21-26 | memory changes at the address only, and no register changes |
| Semantics.Set | src/cpu.rs:306-350 | the operand reads back as the value; no other register changes; memory changes only for M, at HL |
| Semantics.SetWide | src/cpu.rs:16-32 | the pair (or SP) reads back as the word; no other pair, A, memory, flags or PC change |
| Semantics.Push8 | src/cpu.rs:422-428 | SP goes down by one, wrapping, and the byte is stored at the new SP; nothing else changes |
| Semantics.Pop8 | src/cpu.rs:401-407 | the byte at SP is returned and SP goes up by one, wrapping |
| Semantics.Holds | src/cpu.rs:396-412 | no contract of its own: the branch condition tests one flag; Properties.ConditionsComplement states the pairs |
| Semantics.Operate | src/cpu.rs:390-394 | CMP leaves A as it was |
| Semantics.ApplyAlu | src/cpu.rs:352-394 | only A and the flags change, and CMP leaves A alone |
| Semantics.JumpIf | src/cpu.rs:408-416 | PC takes the operand address exactly when the condition holds; otherwise nothing changes |
| Semantics.CallIf | src/cpu.rs:417-421 | PC moves exactly when the condition holds; a taken call sets PC to the operand address, lowers SP by two and stores the return address PC + 3 high byte at SP - 1 and low byte at the new SP, and changes nothing else; otherwise nothing changes |
| Semantics.RetIf | src/cpu.rs:396-400 | PC moves exactly when the condition holds; a taken return sets PC to the word at SP (low byte at SP, high byte above it) and raises SP by two, and changes nothing else; otherwise nothing changes |
| Semantics.Increment | src/cpu.rs:33-39 | the operand goes up by one modulo 256; Z and S follow the new value, and CY, P and AC keep theirs; no other register, SP, PC or the interrupt flag changes; memory changes only for M, and then only at HL |
| Semantics.Decrement | src/cpu.rs:40-46 | the operand goes down by one modulo 256, with the same flag rules and the same frame as for INR |
| Semantics.AddToHl | src/cpu.rs:55-59 | the new HL together with CY is the true sum HL + pair; only HL and CY change |
| Semantics.StoreHl | src/cpu.rs:179-186 | L is stored at the address and H at the address + 1 (wrapping); nothing else changes |
| Semantics.LoadHl | src/cpu.rs:215-220 | L is read from the address and H from the address + 1; nothing else changes |
| Semantics.PushPair | src/cpu.rs:422-428 | SP goes down by two; the high register lands at SP - 1 and the low one at the new SP |
| Semantics.PopPair | src/cpu.rs:401-407 | SP goes up by two; the low register comes from the old SP and the high one from the byte above it |
| Semantics.PushStatus | src/cpu.rs:656-662 | SP goes down by two; A lands at SP - 1 and the flag byte at the new SP, and no other byte of memory changes |
| Semantics.PopStatus | src/cpu.rs:638-644 | SP goes up by two; the flags come from the byte at the old SP and A from the byte above it |
| Semantics.ExchangeStackTop | src/cpu.rs:561-571 | L and H take the two bytes at the top of the stack, and those bytes take the old L and H |
| Semantics.ExchangeDeHl | src/cpu.rs:605-616 | HL holds the old DE and DE the old HL; nothing else changes |
| Semantics.Transfer | src/cpu.rs:16-350 | LXI, MVI and MOV keep PC, the flags and the interrupt flag, and SP changes only for LXI SP |
| Semantics.Access | src/cpu.rs:21-287 | STAX and STA store A at the pair's or the operand address, and LDAX and LDA load A from it, each changing nothing else; SHLD changes only memory and LHLD leaves it alone; PC, SP, the flags, the interrupt flag and B, C, D and E are kept |
| Semantics.Count | src/cpu.rs:27-302 | INX and DCX change no flag and no memory; DAD changes CY alone among the flags and keeps SP and memory; INR and DCR keep CY, P and AC; all keep PC and the interrupt flag |
| Semantics.Accumulate | src/cpu.rs:48-394 | only A and the flags change; CMA complements A and keeps the flags, STC sets CY, and CMC complements CY, each changing nothing else |
| Semantics.Stack | src/cpu.rs:401-662 | PUSH and PUSH PSW lower SP by two, POP and POP PSW raise it by two and leave memory alone, XTHL keeps SP; all keep PC and the interrupt flag |
| Semantics.Exchange | src/cpu.rs:605-684 | SPHL sets SP to HL, DI clears and EI sets the interrupt flag, each changing nothing else; all four keep PC, A, the flags and memory |
| Semantics.Control | src/cpu.rs:396-699 | a port write is reported exactly for OUT, as (byte at PC + 1, A) with the state unchanged; IN sets A to the host's byte for the port named at PC + 1 and changes nothing else; NOP changes nothing; only a jump, call, return or PCHL can move PC, and an arm that does not move it leaves PC where it was |
| Semantics.Execute | src/cpu.rs:14-702 | the same holds for every instruction, and PCHL always moves PC to HL and changes nothing else |
| Semantics.Advance | src/cpu.rs:704 | PC stays where the arm put it if the arm moved it, and otherwise moves past the instruction; nothing else changes |
| Semantics.Exec | src/cpu.rs:11-705 | a step faults exactly when the opcode at PC has no instruction, and then keeps the whole state and reports the opcode and PC; a step reports a port write exactly when the opcode is OUT |
| Properties.NopAliases | src/cpu.rs:15 | 0x08, 0x10, .., 0x38 decode as NOP, like 0x00 |
| Properties.BranchAliases | src/cpu.rs:449-452 | 0xCB decodes like JMP 0xC3, 0xD9 like RET 0xC9, and 0xDD, 0xED and 0xFD like CALL 0xCD |
| Properties.MovFields | src/cpu.rs:306-350 | every opcode 0x40..0x7F other than 0x76 is MOV, with bits 5..3 naming the destination and bits 2..0 the source |
| Properties.ArithFields | src/cpu.rs:352-394 | every opcode 0x80..0xBF is an ALU operation, chosen by bits 5..3, on the operand named by bits 2..0 |
| Properties.ImmediateFields | src/cpu.rs:429-698 | the opcodes 0xC6, 0xCE, .., 0xFE are the immediate forms of the same eight operations, in the same order |
| Properties.ConditionsComplement | src/cpu.rs:396-698 | NZ/Z, NC/C, PO/PE and P/M are complementary pairs testing Z, CY, P and S, and the unconditional forms always hold |
| Properties.MovCopies | src/cpu.rs:306-350 | MOV writes the source's value into exactly the destination; all other registers, SP, the flags and PC keep their values, and memory changes only for M at HL |
| Properties.IncrementByOne | src/cpu.rs:33-39 | the INR arm raises its operand by one modulo 256, sets Z and S from the result, keeps CY, P and AC, keeps every other register, SP, PC and the interrupt flag, and for M writes only the byte at HL |
| Properties.DecrementByOne | src/cpu.rs:40-46 | the DCR arm lowers its operand by one modulo 256, with the same flag rules and the same frame as INR |
| Properties.IncrementWideByOne | src/cpu.rs:27-32 | the INX arm raises the pair (or SP) by one modulo 65536 and changes no flag, no other pair, A, memory, PC or the interrupt flag |
| Properties.DecrementWideByOne | src/cpu.rs:66-71 | the DCX arm lowers the pair (or SP) by one modulo 65536 and changes no flag, no other pair, A, memory, PC or the interrupt flag |
| Properties.DecrementUndoesIncrement | src/cpu.rs:33-46 | DCR after INR restores every register and memory; only the flags may differ |
| Properties.IncrementUndoesDecrement | src/cpu.rs:33-46 | INR after DCR restores every register and memory; only the flags may differ |
| Properties.DecrementUndoesIncrementWide | src/cpu.rs:27-71 | DCX after INX restores the whole state, at the wrap-around as well |
| Properties.IncrementUndoesDecrementWide | src/cpu.rs:27-71 | INX after DCX restores the whole state, at the wrap-around as well |
| Properties.PushPopPair | src/cpu.rs:401-428 | POP p after PUSH p restores the pair and SP and all other registers; only the two stack bytes were written |
| Properties.PopAfterPush | src/cpu.rs:401-428 | popping a byte just pushed gives back the byte and the old SP; memory keeps only the pushed byte |
| Properties.PushPopStatus | src/cpu.rs:638-662 | POP PSW after PUSH PSW restores A, every flag and SP |
| Properties.ExchangeDeHlTwice | src/cpu.rs:605-616 | XCHG twice is the identity |
| Properties.ExchangeStackTopTwice | src/cpu.rs:561-571 | XTHL twice is the identity, memory included |
| Properties.StoreLoadHl | src/cpu.rs:179-220 | after SHLD the address holds L and the next byte H, and LHLD from there changes nothing |
| Properties.CallReturn | src/cpu.rs:440-461 | a taken CALL jumps to the operand and lowers SP by two, and RET there resumes after the CALL with SP restored |
| Properties.BranchNotTaken | src/cpu.rs:396-412 | a conditional jump, call or return whose condition fails only moves PC past the instruction, which Decoder.Length makes three bytes for a jump or call and one for a return |
| Properties.JumpExample | src/cpu.rs:413-416 | C3 10 00 sets PC to 0x0010 and changes nothing else |
| Properties.AddImmediateExample | src/cpu.rs:429-433 | with A = 0x3E, C6 02 gives A = 0x40 with Z, S and CY clear, and PC moves two bytes |
| Properties.HaltExample | src/cpu.rs:340 | 0x76 is a fault that carries its opcode and PC |
| Properties.CallReturnExample | src/cpu.rs:458-461 | a step on CD 06 00 at address 0 jumps to 6 with the return address 3 on the stack, low byte first, and RET there comes back to 3 with SP restored |
| Machine.State.constructor | src/cpu.rs:11 | a new machine has every register, SP, PC, the flags and the interrupt flag clear, and memory holds the image |
| Machine.State.GetArg | src/cpu.rs:16-20 | the byte read is `Arg` of the state |
| Machine.State.GetArg16 | src/cpu.rs:413-416 | the word read is `Arg16` of the state |
| Machine.State.GetOperand | src/cpu.rs:306-350 | the byte read is `Get` of the state |
| Machine.State.SetOperand | src/cpu.rs:306-350 | the new state is `Set` of the old one |
| Machine.State.SetPair | src/cpu.rs:16-32 | the new state is `SetWide` of the old one |
| Machine.State.GetPair | src/cpu.rs:55-59 | the word read is `GetWide` of the state |
| Machine.State.Push8 | src/cpu.rs:422-428 | the new state is `push8` of the old one |
| Machine.State.Pop8 | src/cpu.rs:401-407 | the byte and the new state are `pop8` of the old state |
| Machine.State.JumpIf | src/cpu.rs:408-416 | the new state and the moved flag are `jump_if` of the old state |
| Machine.State.CallIf | src/cpu.rs:417-421 | the new state and the moved flag are `call_if` of the old state |
| Machine.State.RetIf | src/cpu.rs:396-400 | the new state and the moved flag are `ret_if` of the old state |
| Machine.State.ApplyAlu | src/cpu.rs:352-394 | the new state is `ApplyAlu` of the old one |
| Machine.State.StoreByte | src/cpu.rs:21-26 | the new state is `Store` of the old one |
| Machine.State.StoreHl | src/cpu.rs:179-186 | the new state is SHLD of the old one |
| Machine.State.LoadHl | src/cpu.rs:215-220 | the new state is LHLD of the old one |
| Machine.State.Increment | src/cpu.rs:33-39 | the new state is INR of the old one |
| Machine.State.Decrement | src/cpu.rs:40-46 | the new state is DCR of the old one |
| Machine.State.AddToHl | src/cpu.rs:55-59 | the new state is DAD of the old one |
| Machine.State.PushPair | src/cpu.rs:422-428 | the new state is PUSH of the old one |
| Machine.State.PopPair | src/cpu.rs:401-407 | the new state is POP of the old one |
| Machine.State.PushStatus | src/cpu.rs:656-662 | the new state is PUSH PSW of the old one |
| Machine.State.PopStatus | src/cpu.rs:638-644 | the new state is POP PSW of the old one |
| Machine.State.ExchangeStackTop | src/cpu.rs:561-571 | the new state is XTHL of the old one |
| Machine.State.Transfer | src/cpu.rs:16-350 | LXI, MVI and MOV change the object exactly as the pure arms do |
| Machine.State.Access | src/cpu.rs:21-287 | STAX, LDAX, STA, LDA, SHLD and LHLD change the object exactly as the pure arms do |
| Machine.State.Count | src/cpu.rs:27-302 | INX, DCX, INR, DCR and DAD change the object exactly as the pure arms do |
| Machine.State.Accumulate | src/cpu.rs:48-394 | the rotates, CMA, STC, CMC and the ALU group change the object exactly as the pure arms do |
| Machine.State.Stack | src/cpu.rs:401-662 | PUSH, POP, PUSH PSW, POP PSW and XTHL change the object exactly as the pure arms do |
| Machine.State.Exchange | src/cpu.rs:605-684 | SPHL, XCHG, DI and EI change the object exactly as the pure arms do |
| Machine.State.Branch | src/cpu.rs:396-461 | the branches change the object and report the moved flag exactly as their pure arms do |
| Machine.State.Control | src/cpu.rs:396-699 | the branches, PCHL, OUT and IN give the state, port write and moved flag of the pure arms |
| Machine.State.Run | src/cpu.rs:14-702 | running any decoded instruction agrees with `Execute` |
| Machine.State.Advance | src/cpu.rs:704 | the new state is `Advance` of the old one |
| Machine.State.Step | src/cpu.rs:11-705 | one call changes the object and returns the outcome exactly as `Exec` prescribes for the old state |

## Left out

- `src/state.rs`, which defines the `State` type and its helpers, is not part of this model. The helpers include `get_arg`, `get_operand`, `get_m`/`set_m`, `push8`/`pop8`, `jump_if`/`call_if`/`ret_if`, `add8` .. `cmp8`, `add16`, `serialize`/`deserialize` and `advance`. The model defines them, in `Semantics` and as the methods of `Machine.State`, from their call sites and from the Intel 8080 manual. Operands are little-endian. PUSH writes the high byte first, and POP reads the low byte first.
- Semantics.Exec: RLC (0x07) and RAL (0x17) use the 8080 carry, `Alu.Rlc` and `Alu.Ral`. The source's arms always clear CY instead (see "## Findings"). `Alu.RlcAsWritten` and `Alu.RalAsWritten` model those arms as written.
- Machine.State.Step: like `Semantics.Exec`, it uses the corrected RLC and RAL, so CY differs from the source's when bit 7 of A is set.
- Semantics.Accumulate: like `Semantics.Exec`, it runs the corrected RLC and RAL, so CY differs from the source's when bit 7 of A is set.
- Semantics.Execute: like `Semantics.Exec`, it runs the corrected RLC and RAL, so CY differs from the source's when bit 7 of A is set.
- Machine.State.Accumulate: like `Semantics.Exec`, it runs the corrected RLC and RAL, so CY differs from the source's when bit 7 of A is set.
- Machine.State.Run: like `Semantics.Exec`, it runs the corrected RLC and RAL, so CY differs from the source's when bit 7 of A is set.
- Alu.Add8: the P and AC rules of the arithmetic/logic group, and CY/AC of subtraction, follow the 8080 manual rather than source that can be read. The same holds for Adc8, Sub8, Sbb8, And8, Xor8, Or8 and Cmp8.
- ConditionCodes.Serialize: the PSW bit layout (S, Z, 0, AC, 0, P, 1, CY) is the 8080 manual's. The layout used by the hidden `serialize` cannot be checked.
- Semantics.Advance: the hidden `advance` is modelled as moving PC past the instruction unless the arm set PC. For PCHL this means PC ends at HL. A literal "always add the length" would leave PCHL one byte off, a taken jump or call three bytes off and a taken return one byte off.
- Unchecked `+`/`-` on `u8`/`u16` panics on overflow in a debug build of the source. The model wraps instead, as the release build and the `wrapping_*` sibling arms do.
- DAA, HLT and the RST opcodes are only faults. The hardware semantics of halting, restarts and decimal adjust are not modelled.
- `println!` and `panic!` in `unimplemented_instruction` become the returned `Fault(opcode, pc)`. There is no abort and no diagnostic text.
- The `Machine` I/O capability is outside the model. IN reads a byte from an `input` function that is passed in. OUT is reported as the `(port, A)` write in the step's `Stepped` outcome.
- Interrupt delivery and cycle timing are not modelled. DI and EI only write the interrupt-enable flag.

## Findings

| source | as written | input that shows it | evidently intended | confidence | as-written member | corrected member |
|---|---|---|---|---|---|---|
| src/cpu.rs:52 | RLC sets CY to `(x & 0x80) == 1`. That compares a byte that is 0 or 0x80 with 1, so CY is always cleared | A = 0x80: the 8080 sets CY, the code clears it | CY takes bit 7 of the old A, the bit rotated into bit 0 | not executed | Alu.RlcAsWritten (shown by Alu.RotateCarryLost) | Alu.Rlc |
| src/cpu.rs:131 | RAL sets CY to `(x & 0x80) == 1`, so CY is always cleared and the old bit 7 is lost | A = 0x80, CY clear: the 8080 sets CY, the code clears it, and RAR afterwards gives 0x00 rather than 0x80 | CY takes bit 7 of the old A | not executed | Alu.RalAsWritten (shown by Alu.RotateCarryLost) | Alu.Ral |
