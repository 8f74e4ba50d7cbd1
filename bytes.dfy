/** Byte and word helpers of the 8080 core: building a 16-bit word from two
    bytes, splitting it again, and rotating a byte by one bit. Bytes are `bv8`,
    so the rotations are the source's own shift/mask/or; a 16-bit word is an
    integer in 0..0xFFFF, and every piece of 16-bit arithmetic in the model
    wraps explicitly with `Wrap16`. */
module Bytes {

  /** An unsigned 16-bit value: an address, the stack pointer, the program
      counter or the contents of a register pair. */
  type word = x: int | 0 <= x < 0x10000

  /** Reduction modulo 65536: the wrap-around of 16-bit unsigned arithmetic. */
  function Wrap16(x: int): (w: word)
    ensures w == x % 0x10000
    ensures 0 <= x < 0x10000 ==> w == x
    ensures 0x10000 <= x < 0x20000 ==> w == x - 0x10000
    ensures -0x10000 <= x < 0 ==> w == x + 0x10000
  {
    x % 0x10000
  }

  /** A byte read back from its numeric value. */
  lemma ByteValue(x: bv8)
    ensures (x as int) as bv8 == x
  {
  }

  /** A number below 256 read as a byte keeps its value. */
  lemma ValueByte(n: int)
    requires 0 <= n < 0x100
    ensures (n as bv8) as int == n
  {
    var wide: bv16 := n as bv16;
    assert wide < 0x100;
  }

  /** `assemble_word`: the high byte goes to bits 15..8, the low byte to bits 7..0. */
  function AssembleWord(h: bv8, l: bv8): (w: word)
    ensures w == h as int * 256 + l as int
  {
    (((h as bv16) << 8) | (l as bv16)) as int
  }

  /** `high_order_byte`: bits 15..8 of a word, taken arithmetically as
      `n / 256`; `AssembleSplit` and `SplitAssembled` pin it against
      `assemble_word`. */
  function HighOrderByte(n: word): (h: bv8)
    ensures h as int == n / 256
  {
    ValueByte(n / 256);
    (n / 256) as bv8
  }

  /** `low_order_byte`: bits 7..0 of a word, taken arithmetically as
      `n % 256`; the same two lemmas pin it. */
  function LowOrderByte(n: word): (l: bv8)
    ensures l as int == n % 256
  {
    ValueByte(n % 256);
    (n % 256) as bv8
  }

  /** `rotate_right`: bit 0 moves to bit 7, every other bit moves down one place. */
  function RotateRight(n: bv8): (r: bv8)
    ensures r >> 7 == n & 0x01 && r & 0x7f == n >> 1
    ensures r == (n % 2) * 128 + n / 2
  {
    ((n & 0x01) << 7) | (n >> 1)
  }

  /** `rotate_left`: bit 7 moves to bit 0, every other bit moves up one place. */
  function RotateLeft(n: bv8): (r: bv8)
    ensures r & 0x01 == n >> 7 && r >> 1 == n & 0x7f
    ensures r == (n % 128) * 2 + n / 128
  {
    ((n & 0x80) >> 7) | (n << 1)
  }

  /** `k` successive applications of `RotateLeft`. */
  function RotateLeftN(n: bv8, k: nat): bv8
  {
    if k == 0 then n else RotateLeft(RotateLeftN(n, k - 1))
  }

  /** `k` successive applications of `RotateRight`. */
  function RotateRightN(n: bv8, k: nat): bv8
  {
    if k == 0 then n else RotateRight(RotateRightN(n, k - 1))
  }

  /** Splitting an assembled word gives back the two bytes it was built from. */
  lemma SplitAssembled(h: bv8, l: bv8)
    ensures HighOrderByte(AssembleWord(h, l)) == h
    ensures LowOrderByte(AssembleWord(h, l)) == l
  {
    var w := AssembleWord(h, l);
    assert w / 256 == h as int && w % 256 == l as int;
    // equal values make equal bytes
    ByteValue(h);
    ByteValue(l);
    ByteValue(HighOrderByte(w));
    ByteValue(LowOrderByte(w));
  }

  /** Assembling the two halves of a word gives back the word. */
  lemma AssembleSplit(n: word)
    ensures AssembleWord(HighOrderByte(n), LowOrderByte(n)) == n
  {
  }

  /** The two rotations undo each other, in either order. */
  lemma RotationsInverse(n: bv8)
    ensures RotateLeft(RotateRight(n)) == n
    ensures RotateRight(RotateLeft(n)) == n
  {
  }

  /** The values the unit tests of `assemble_word`, `high_order_byte`,
      `low_order_byte`, `rotate_right` and `rotate_left` check. */
  lemma UnitTestValues()
    ensures AssembleWord(0, 0) == 0 && AssembleWord(0, 0x23) == 0x23
    ensures AssembleWord(0xa8, 0) == 0xa800 && AssembleWord(0x75, 0x3f) == 0x753f
    ensures HighOrderByte(0) == 0 && HighOrderByte(0x23) == 0
    ensures HighOrderByte(0xa800) == 0xa8 && HighOrderByte(0x753f) == 0x75
    ensures LowOrderByte(0) == 0 && LowOrderByte(0x23) == 0x23
    ensures LowOrderByte(0xa800) == 0 && LowOrderByte(0x753f) == 0x3f
    ensures RotateRight(0) == 0 && RotateRight(0x01) == 0x80 && RotateRight(0x80) == 0x40
    ensures RotateRight(0x44) == 0x22 && RotateRight(0xff) == 0xff
    ensures RotateLeft(0) == 0 && RotateLeft(0x01) == 0x02 && RotateLeft(0x80) == 0x01
    ensures RotateLeft(0x44) == 0x88 && RotateLeft(0xff) == 0xff
  {
  }

  /** 0x00 and 0xFF are fixed points of both rotations, for any number of steps. */
  lemma {:induction false} FixedPoints(k: nat)
    ensures RotateLeftN(0x00, k) == 0x00 && RotateLeftN(0xff, k) == 0xff
    ensures RotateRightN(0x00, k) == 0x00 && RotateRightN(0xff, k) == 0xff
  {
    if k > 0 {
      FixedPoints(k - 1);
    }
  }

  /** Eight rotations in either direction give back the original byte. */
  lemma EightRotations(n: bv8)
    ensures RotateLeftN(n, 8) == n
    ensures RotateRightN(n, 8) == n
  {
    // unfold the eight steps one at a time; the bit-level identity then closes it
    var l1 := RotateLeft(n);
    assert RotateLeftN(n, 1) == l1;
    var l2 := RotateLeft(l1);
    assert RotateLeftN(n, 2) == l2;
    var l3 := RotateLeft(l2);
    assert RotateLeftN(n, 3) == l3;
    var l4 := RotateLeft(l3);
    assert RotateLeftN(n, 4) == l4;
    var l5 := RotateLeft(l4);
    assert RotateLeftN(n, 5) == l5;
    var l6 := RotateLeft(l5);
    assert RotateLeftN(n, 6) == l6;
    var l7 := RotateLeft(l6);
    assert RotateLeftN(n, 7) == l7;
    var r1 := RotateRight(n);
    assert RotateRightN(n, 1) == r1;
    var r2 := RotateRight(r1);
    assert RotateRightN(n, 2) == r2;
    var r3 := RotateRight(r2);
    assert RotateRightN(n, 3) == r3;
    var r4 := RotateRight(r3);
    assert RotateRightN(n, 4) == r4;
    var r5 := RotateRight(r4);
    assert RotateRightN(n, 5) == r5;
    var r6 := RotateRight(r5);
    assert RotateRightN(n, 6) == r6;
    var r7 := RotateRight(r6);
    assert RotateRightN(n, 7) == r7;
  }

  /** Rotating by `j` and then by `k` rotates by `j + k`. */
  lemma {:induction false} RotateLeftNAdd(n: bv8, j: nat, k: nat)
    ensures RotateLeftN(RotateLeftN(n, j), k) == RotateLeftN(n, j + k)
  {
    if k > 0 {
      RotateLeftNAdd(n, j, k - 1);
    }
  }

  /** Rotating by `j` and then by `k` rotates by `j + k`. */
  lemma {:induction false} RotateRightNAdd(n: bv8, j: nat, k: nat)
    ensures RotateRightN(RotateRightN(n, j), k) == RotateRightN(n, j + k)
  {
    if k > 0 {
      RotateRightNAdd(n, j, k - 1);
    }
  }

  /** Rotation is periodic with period 8: only the count modulo 8 matters. */
  lemma {:induction false} RotationPeriod(n: bv8, k: nat)
    ensures RotateLeftN(n, k) == RotateLeftN(n, k % 8)
    ensures RotateRightN(n, k) == RotateRightN(n, k % 8)
  {
    if k >= 8 {
      RotationPeriod(n, k - 8);
      EightRotations(n);
      RotateLeftNAdd(n, 8, k - 8);
      RotateRightNAdd(n, 8, k - 8);
    }
  }

  /** `k` right rotations undo `k` left rotations, and the other way round. */
  lemma {:induction false} RotationsNInverse(n: bv8, k: nat)
    ensures RotateRightN(RotateLeftN(n, k), k) == n
    ensures RotateLeftN(RotateRightN(n, k), k) == n
  {
    if k > 0 {
      var l := RotateLeftN(n, k - 1);
      var r := RotateRightN(n, k - 1);
      RotationsInverse(l);
      RotationsInverse(r);
      // peel the outermost left rotation off with the innermost right one
      RotateRightNAdd(RotateLeft(l), 1, k - 1);
      RotateLeftNAdd(RotateRight(r), 1, k - 1);
      RotationsNInverse(n, k - 1);
    }
  }
}
