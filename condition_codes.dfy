/** The 8080 condition codes: Zero, Sign, Parity, Carry and Auxiliary Carry,
    and their packing into the flag byte of the processor status word (PSW). */
module ConditionCodes {

  datatype Flags = Flags(z: bool, s: bool, p: bool, cy: bool, ac: bool)

  /** All five flags clear, as a fresh CPU state has them. */
  const Cleared := Flags(false, false, false, false, false)

  /** `set_z`: Z records whether the value is zero. */
  function SetZ(cc: Flags, v: bv8): (r: Flags)
    ensures r.z <==> v == 0
    ensures r.(z := cc.z) == cc
  {
    cc.(z := v == 0)
  }

  /** `set_s`: S records bit 7 of the value. */
  function SetS(cc: Flags, v: bv8): (r: Flags)
    ensures r.s <==> v >= 0x80
    ensures r.(s := cc.s) == cc
  {
    cc.(s := v & 0x80 != 0)
  }

  /** Number of bits set in a byte. */
  function Ones(v: bv8): (n: nat)
    ensures n <= 8
  {
    (if v & 0x01 != 0 then 1 else 0) + (if v & 0x02 != 0 then 1 else 0) +
    (if v & 0x04 != 0 then 1 else 0) + (if v & 0x08 != 0 then 1 else 0) +
    (if v & 0x10 != 0 then 1 else 0) + (if v & 0x20 != 0 then 1 else 0) +
    (if v & 0x40 != 0 then 1 else 0) + (if v & 0x80 != 0 then 1 else 0)
  }

  /** The 8080 parity flag is set when a result has an even number of one bits. */
  predicate EvenParity(v: bv8)
  {
    Ones(v) % 2 == 0
  }

  /** Z, S and P as a result byte defines them: Z when it is zero, S when
      bit 7 is set, P when its parity is even. */
  predicate ZspOf(cc: Flags, v: bv8)
  {
    (cc.z <==> v == 0) && (cc.s <==> v & 0x80 != 0) && (cc.p <==> EvenParity(v))
  }

  /** Z, S and P derived from a result byte; CY and AC are left as they were. */
  function ZspFlags(cc: Flags, v: bv8): (r: Flags)
    ensures r.cy == cc.cy && r.ac == cc.ac
    ensures ZspOf(r, v) && (r.s <==> v >= 0x80)
  {
    SetS(SetZ(cc, v), v).(p := EvenParity(v))
  }

  /** `serialize`, in the Intel 8080 PSW layout: S in bit 7, Z in bit 6,
      AC in bit 4, P in bit 2, CY in bit 0; reserved bits 5 and 3 are zero
      and reserved bit 1 is one. */
  function Serialize(cc: Flags): (b: bv8)
    ensures b & 0x2a == 0x02
  {
    (if cc.s then 0x80 else 0) | (if cc.z then 0x40 else 0) |
    (if cc.ac then 0x10 else 0) | (if cc.p then 0x04 else 0) |
    0x02 | (if cc.cy then 0x01 else 0)
  }

  /** `deserialize`: reads the five flag bits back and ignores the reserved ones. */
  function Deserialize(b: bv8): (cc: Flags)
    ensures Serialize(cc) == (b & 0xd5) | 0x02
  {
    Flags(z := b & 0x40 != 0, s := b & 0x80 != 0, p := b & 0x04 != 0,
          cy := b & 0x01 != 0, ac := b & 0x10 != 0)
  }

  /** Every combination of the five flags survives a trip through the PSW byte. */
  lemma DeserializeSerialize(cc: Flags)
    ensures Deserialize(Serialize(cc)) == cc
  {
  }
}
