/** The accumulator operations of the 8080: the eight-bit arithmetic and logic
    group (`add8` .. `cmp8`), the sixteen-bit `add16` behind DAD, and the four
    accumulator rotates. Each takes the accumulator, the flags and the operand
    and gives the new accumulator and flags. Carry, borrow and half carry follow
    the Intel 8080 manual: subtraction adds the two's complement, so CY is the
    borrow out of bit 7 and AC the carry out of bit 3 of that addition. */
module Alu {
  import opened Bytes
  import opened ConditionCodes

  datatype AluOut = AluOut(a: bv8, cc: Flags)

  /** `add8`: A + v modulo 256. Widened to sixteen bits, the result and CY
      (the carry out of bit 7) make up the true nine-bit sum; AC is the carry
      out of bit 3. */
  function Add8(a: bv8, cc: Flags, v: bv8): (o: AluOut)
    ensures (o.a as bv16) + (if o.cc.cy then 0x100 else 0) == (a as bv16) + (v as bv16)
    ensures o.cc.ac <==> (a & 0x0f) + (v & 0x0f) > 0x0f
    ensures ZspOf(o.cc, o.a)
  {
    var sum := (a as bv16) + (v as bv16);
    var r := (sum & 0xff) as bv8;
    AluOut(r, ZspFlags(cc, r).(cy := sum > 0xff, ac := (a & 0x0f) + (v & 0x0f) > 0x0f))
  }

  /** `adc8`: as ADD with CY added in. */
  function Adc8(a: bv8, cc: Flags, v: bv8): (o: AluOut)
    ensures (o.a as bv16) + (if o.cc.cy then 0x100 else 0)
         == (a as bv16) + (v as bv16) + (if cc.cy then 1 else 0)
    ensures ZspOf(o.cc, o.a)
  {
    var sum := (a as bv16) + (v as bv16) + (if cc.cy then 1 else 0);
    var r := (sum & 0xff) as bv8;
    AluOut(r, ZspFlags(cc, r).(cy := sum > 0xff,
                               ac := (a & 0x0f) + (v & 0x0f) + (if cc.cy then 1 else 0) > 0x0f))
  }

  /** `sub8`: A - v modulo 256; CY is the borrow, set exactly when v exceeds A,
      and AC the carry out of bit 3 of A + (not v) + 1. */
  function Sub8(a: bv8, cc: Flags, v: bv8): (o: AluOut)
    ensures o.a == a - v
    ensures o.cc.cy <==> a < v
    ensures o.cc.z <==> a == v
    ensures ZspOf(o.cc, o.a)
  {
    var diff := (a as bv16) - (v as bv16);
    var r := (diff & 0xff) as bv8;
    AluOut(r, ZspFlags(cc, r).(cy := diff > 0xff, ac := (a & 0x0f) + (!v & 0x0f) + 1 > 0x0f))
  }

  /** `sbb8`: A - v - CY modulo 256; CY is the borrow of that difference.
      Widened to sixteen bits, the result less 256 for a borrow is the true
      difference A - v - CY, which lies in -256..255. */
  function Sbb8(a: bv8, cc: Flags, v: bv8): (o: AluOut)
    ensures (a as bv16) - (v as bv16) - (if cc.cy then 1 else 0)
         == (o.a as bv16) - (if o.cc.cy then 0x100 else 0)
    ensures o.cc.cy <==> a < v || (a == v && cc.cy)
    ensures ZspOf(o.cc, o.a)
  {
    var diff := (a as bv16) - (v as bv16) - (if cc.cy then 1 else 0);
    var r := (diff & 0xff) as bv8;
    AluOut(r, ZspFlags(cc, r).(cy := diff > 0xff,
                               ac := (a & 0x0f) + (!v & 0x0f) + (if cc.cy then 0 else 1) > 0x0f))
  }

  /** `and8`: bitwise and; the logical group clears CY and AC. */
  function And8(a: bv8, cc: Flags, v: bv8): (o: AluOut)
    ensures o.a & v == o.a && o.a & a == o.a && o.a | !(a & v) == 0xff
    ensures !o.cc.cy && !o.cc.ac && ZspOf(o.cc, o.a)
  {
    var r := a & v;
    AluOut(r, ZspFlags(cc, r).(cy := false, ac := false))
  }

  /** `xor8`: bitwise exclusive or; CY and AC cleared. */
  function Xor8(a: bv8, cc: Flags, v: bv8): (o: AluOut)
    ensures o.a ^ v == a
    ensures !o.cc.cy && !o.cc.ac && ZspOf(o.cc, o.a)
  {
    var r := a ^ v;
    AluOut(r, ZspFlags(cc, r).(cy := false, ac := false))
  }

  /** `or8`: bitwise or; CY and AC cleared. */
  function Or8(a: bv8, cc: Flags, v: bv8): (o: AluOut)
    ensures o.a | a == o.a && o.a | v == o.a && o.a & !(a | v) == 0
    ensures !o.cc.cy && !o.cc.ac && ZspOf(o.cc, o.a)
  {
    var r := a | v;
    AluOut(r, ZspFlags(cc, r).(cy := false, ac := false))
  }

  /** `cmp8`: the flags of A - v with A left alone, so Z means "equal" and CY "below". */
  function Cmp8(a: bv8, cc: Flags, v: bv8): (f: Flags)
    ensures f.z <==> a == v
    ensures f.cy <==> a < v
    ensures ZspOf(f, a - v)
  {
    Sub8(a, cc, v).cc
  }

  /** `add16`: HL + addend modulo 65536, with CY the carry out of bit 15:
      the pair (CY, result) is the seventeen-bit sum. */
  function Add16(hl: word, addend: word): (r: (word, bool))
    ensures r.0 + (if r.1 then 0x10000 else 0) == hl + addend
  {
    var sum := hl + addend;
    (Wrap16(sum), sum > 0xffff)
  }

  /** RLC as the 8080 defines it: rotate left, CY takes the bit that wrapped round. */
  function Rlc(a: bv8, cc: Flags): (o: AluOut)
    ensures o.a == RotateLeft(a)
    ensures o.cc.cy <==> o.a & 0x01 != 0
    ensures o.cc == cc.(cy := o.cc.cy)
  {
    AluOut(RotateLeft(a), cc.(cy := a & 0x80 != 0))
  }

  /** RLC as written: CY := `(x & 0x80) == 1`, which no byte satisfies. */
  function RlcAsWritten(a: bv8, cc: Flags): (o: AluOut)
    ensures o.a == RotateLeft(a)
    ensures o.cc == cc.(cy := false)
  {
    AluOut(RotateLeft(a), cc.(cy := (a & 0x80) == 1))
  }

  /** RRC: rotate right, CY takes the bit that wrapped round. */
  function Rrc(a: bv8, cc: Flags): (o: AluOut)
    ensures o.a == RotateRight(a)
    ensures o.cc.cy <==> o.a & 0x80 != 0
    ensures o.cc == cc.(cy := o.cc.cy)
  {
    AluOut(RotateRight(a), cc.(cy := (a & 0x01) == 1))
  }

  /** RAL as the 8080 defines it: a nine-bit left rotation through CY. */
  function Ral(a: bv8, cc: Flags): (o: AluOut)
    ensures o.a >> 1 == a & 0x7f && (o.a & 0x01 != 0 <==> cc.cy)
    ensures o.cc == cc.(cy := a & 0x80 != 0)
  {
    AluOut((if cc.cy then 1 else 0) | (a << 1), cc.(cy := a & 0x80 != 0))
  }

  /** RAL as written: CY := `(x & 0x80) == 1`, which no byte satisfies. */
  function RalAsWritten(a: bv8, cc: Flags): (o: AluOut)
    ensures o.a == Ral(a, cc).a
    ensures o.cc == cc.(cy := false)
  {
    AluOut((if cc.cy then 1 else 0) | (a << 1), cc.(cy := (a & 0x80) == 1))
  }

  /** RAR: a nine-bit right rotation through CY. */
  function Rar(a: bv8, cc: Flags): (o: AluOut)
    ensures o.a & 0x7f == a >> 1 && (o.a & 0x80 != 0 <==> cc.cy)
    ensures o.cc == cc.(cy := a & 0x01 != 0)
  {
    AluOut((if cc.cy then 0x80 else 0) | (a >> 1), cc.(cy := (a & 0x01) == 1))
  }

  /** RAR undoes RAL and RRC undoes RLC: with the carry taken into account the
      rotates are nine-bit and eight-bit circular shifts. */
  lemma RotatesUndo(a: bv8, cc: Flags)
    ensures var o := Ral(a, cc); Rar(o.a, o.cc) == AluOut(a, cc)
    ensures var o := Rar(a, cc); Ral(o.a, o.cc) == AluOut(a, cc)
    ensures Rrc(Rlc(a, cc).a, cc).a == a && Rlc(Rrc(a, cc).a, cc).a == a
  {
    RotationsInverse(a);
  }

  /** The RLC and RAL written in the source lose the carry: for A = 0x80 the
      8080 sets CY and the code clears it, and RAR no longer undoes RAL. */
  lemma RotateCarryLost()
    ensures Rlc(0x80, Cleared).cc.cy && !RlcAsWritten(0x80, Cleared).cc.cy
    ensures Ral(0x80, Cleared).cc.cy && !RalAsWritten(0x80, Cleared).cc.cy
    ensures var o := RalAsWritten(0x80, Cleared); Rar(o.a, o.cc) != AluOut(0x80, Cleared)
  {
  }
}
