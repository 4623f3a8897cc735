/**
 * FUZ_rand: the harness's 32-bit linear congruential generator, and the
 * round-seed derivation used by the fuzz loop.
 */
module Rand {
  import opened Ints

  const PRIME1: u32 := 2654435761
  const PRIME2: u32 := 2246822519
  /** The constant XOR-ed into the global seed to get a round's own seed. */
  const ROUND_KEY: u32 := 0xEDA5B371

  /** One state transition of FUZ_rand, with unsigned 32-bit wrap-around. */
  function Step(s: u32): u32 {
    (s * PRIME1 + PRIME2) % TWO_TO_32
  }

  /** The value FUZ_rand returns once the state has become `s`: `s >> 11`. */
  function Output(s: u32): (r: nat)
    ensures r < 0x20_0000
  {
    s / 2048
  }

  /** The state after `n` calls to FUZ_rand starting from `s`. */
  function StepN(s: u32, n: nat): u32
    decreases n
  {
    if n == 0 then s else Step(StepN(s, n - 1))
  }

  /** `seed ^ 0xEDA5B371` on U32. */
  function RoundSeed(seed: u32): (r: u32)
    ensures Xor32(r, ROUND_KEY) == seed
  {
    Pow2At32();
    XorBitsInvolution(seed, ROUND_KEY, 32);
    Xor32(seed, ROUND_KEY)
  }

  /**
   * FUZ_rand(&src): the pointed-to state is passed in and its new value
   * handed back as `next`; `r` is the returned value.
   */
  method FuzRand(src: u32) returns (next: u32, r: nat)
    ensures next == Step(src) && r == Output(next)
    ensures r < 0x20_0000
  {
    next := (src * PRIME1 + PRIME2) % TWO_TO_32;
    r := next / 2048;
  }

  /** Stepping `a` times and then `b` times is stepping `a + b` times. */
  lemma {:induction false} StepNAdd(s: u32, a: nat, b: nat)
    ensures StepN(StepN(s, a), b) == StepN(s, a + b)
    decreases b
  {
    if b > 0 {
      StepNAdd(s, a, b - 1);
    }
  }

  /** Stepping once and then k times is stepping k + 1 times. */
  lemma {:induction false} StepNShift(s: u32, k: nat)
    ensures StepN(Step(s), k) == StepN(s, k + 1)
    decreases k
  {
    if k > 0 {
      StepNShift(s, k - 1);
    }
  }

  /** The same for every positive count at once. */
  lemma StepNShiftAll(s: u32)
    ensures forall k: nat :: 0 < k ==> StepN(s, k) == StepN(Step(s), k - 1)
  {
    forall k: nat | 0 < k
      ensures StepN(s, k) == StepN(Step(s), k - 1)
    {
      StepNShift(s, k - 1);
    }
  }

  /**
   * The round seed determines the global seed it came from, so distinct
   * global seeds give distinct round seeds.
   */
  lemma RoundSeedInjective(s: u32, t: u32)
    ensures RoundSeed(s) == RoundSeed(t) ==> s == t
  {
    Pow2At32();
    XorBitsInvolution(s, ROUND_KEY, 32);
    XorBitsInvolution(t, ROUND_KEY, 32);
  }
}
