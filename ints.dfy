/** Fixed-width unsigned integers of the harness, as subsets of int. */
module Ints {
  const TWO_TO_16: int := 0x1_0000
  const TWO_TO_32: int := 0x1_0000_0000

  /** U16 (unsigned short) */
  type u16 = x: int | 0 <= x < TWO_TO_16
  /** U32 (unsigned int) */
  type u32 = x: int | 0 <= x < TWO_TO_32

  function Pow2(n: nat): (r: nat)
    ensures r >= 1
  {
    if n == 0 then 1 else 2 * Pow2(n - 1)
  }

  /** Bitwise exclusive or of the low `bits` bits of `a` and `b`. */
  function XorBits(a: nat, b: nat, bits: nat): (r: nat)
    ensures r < Pow2(bits)
    decreases bits
  {
    if bits == 0 then 0
    else (if a % 2 == b % 2 then 0 else 1) + 2 * XorBits(a / 2, b / 2, bits - 1)
  }

  /** `a ^ b` on U32. */
  function Xor32(a: u32, b: u32): u32 {
    Pow2At32();
    XorBits(a, b, 32)
  }

  lemma {:induction false} Pow2Add(a: nat, b: nat)
    ensures Pow2(a + b) == Pow2(a) * Pow2(b)
    decreases a
  {
    if a > 0 {
      Pow2Add(a - 1, b);
    }
  }

  lemma Pow2At32()
    ensures Pow2(32) == TWO_TO_32
  {
    assert Pow2(4) == 16;
    Pow2Add(4, 4);
    Pow2Add(8, 8);
    Pow2Add(16, 16);
  }

  /** XOR-ing the same key twice gives back the original value. */
  lemma {:induction false} XorBitsInvolution(a: nat, k: nat, bits: nat)
    requires a < Pow2(bits)
    ensures XorBits(XorBits(a, k, bits), k, bits) == a
    decreases bits
  {
    if bits > 0 {
      XorBitsInvolution(a / 2, k / 2, bits - 1);
      var x := XorBits(a, k, bits);
      assert x / 2 == XorBits(a / 2, k / 2, bits - 1);
    }
  }
}
