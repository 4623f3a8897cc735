/**
 * unitTest: the boundary tests of FSE_countU16. A 16 KB buffer cycling
 * through 0..FSE_MAX_SYMBOL_VALUE is counted with the bound set to the
 * maximum (must work), one above it (must fail) and one below it (must fail).
 * FSE_countU16 itself is a parameter: only whether it reports an error is seen.
 */
module UnitTests {
  import opened Ints

  /** TBSIZE: symbols in testBuffU16, 16 KB. */
  const TBSIZE: nat := 16 * 1024

  /** The CHECKs of unitTest, in order. */
  datatype CountCheck = ShouldHaveWorked | MaxTooLarge | MaxTooLow

  datatype UnitVerdict = UnitPass | UnitFail(check: CountCheck)

  /** `m` is the largest value of `s`. */
  ghost predicate IsMaximum(s: seq<u16>, m: int) {
    (forall i :: 0 <= i < |s| ==> s[i] <= m) && (exists i :: 0 <= i < |s| && s[i] == m)
  }

  /** testBuffU16[i] = i % (FSE_MAX_SYMBOL_VALUE + 1) */
  function TestBuffer(maxSymbol: u16): (s: seq<u16>)
    ensures |s| == TBSIZE
    ensures forall i :: 0 <= i < |s| ==> s[i] <= maxSymbol
  {
    seq(TBSIZE, i requires 0 <= i < TBSIZE => i % (maxSymbol + 1))
  }

  /** The largest symbol of the test buffer is FSE_MAX_SYMBOL_VALUE when that is below TBSIZE. */
  lemma TestBufferMaximum(maxSymbol: u16)
    requires maxSymbol < TBSIZE
    ensures TestBuffer(maxSymbol)[maxSymbol] == maxSymbol
    ensures IsMaximum(TestBuffer(maxSymbol), maxSymbol)
  {
  }

  /** The loop filling testBuffU16 in unitTest. */
  method BuildTestBuffer(maxSymbol: u16) returns (testBuffU16: seq<u16>)
    ensures |testBuffU16| == TBSIZE
    ensures forall i :: 0 <= i < TBSIZE ==> testBuffU16[i] <= maxSymbol
    ensures testBuffU16 == TestBuffer(maxSymbol)
  {
    var buff := new u16[TBSIZE];
    var i := 0;
    while i < TBSIZE
      invariant 0 <= i <= TBSIZE
      invariant forall k :: 0 <= k < i ==> buff[k] == k % (maxSymbol + 1)
    {
      buff[i] := i % (maxSymbol + 1);
      i := i + 1;
    }
    testBuffU16 := buff[..];
  }

  /** The U32 bounds passed in `max`: FSE_MAX_SYMBOL_VALUE, one above it, and one below it (wrapping at 0). */
  function BoundAbove(maxSymbol: u16): u32 {
    maxSymbol + 1
  }

  function BoundBelow(maxSymbol: u16): (bound: u32)
    ensures maxSymbol >= 1 ==> bound == maxSymbol - 1
    ensures maxSymbol == 0 ==> bound == TWO_TO_32 - 1
  {
    (maxSymbol + TWO_TO_32 - 1) % TWO_TO_32
  }

  /** The verdict of unitTest, given which calls of FSE_countU16 report an error. */
  function UnitTestVerdict(maxSymbol: u16, countFails: (seq<u16>, u32) -> bool): (v: UnitVerdict)
    ensures v == UnitPass <==>
      && !countFails(TestBuffer(maxSymbol), maxSymbol)
      && countFails(TestBuffer(maxSymbol), BoundAbove(maxSymbol))
      && countFails(TestBuffer(maxSymbol), BoundBelow(maxSymbol))
    ensures v == UnitFail(ShouldHaveWorked) <==> countFails(TestBuffer(maxSymbol), maxSymbol)
    ensures v == UnitFail(MaxTooLarge) <==>
      !countFails(TestBuffer(maxSymbol), maxSymbol) && !countFails(TestBuffer(maxSymbol), BoundAbove(maxSymbol))
    ensures v == UnitFail(MaxTooLow) ==> !countFails(TestBuffer(maxSymbol), maxSymbol)
  {
    var buff := TestBuffer(maxSymbol);
    if countFails(buff, maxSymbol) then UnitFail(ShouldHaveWorked)
    else if !countFails(buff, BoundAbove(maxSymbol)) then UnitFail(MaxTooLarge)
    else if !countFails(buff, BoundBelow(maxSymbol)) then UnitFail(MaxTooLow)
    else UnitPass
  }

  /** unitTest() */
  method UnitTest(maxSymbol: u16, countFails: (seq<u16>, u32) -> bool) returns (verdict: UnitVerdict)
    ensures verdict == UnitTestVerdict(maxSymbol, countFails)
  {
    var testBuffU16 := BuildTestBuffer(maxSymbol);
    var max: u32 := maxSymbol;
    if countFails(testBuffU16, max) {
      return UnitFail(ShouldHaveWorked);
    }
    max := maxSymbol + 1;
    if !countFails(testBuffU16, max) {
      return UnitFail(MaxTooLarge);
    }
    max := (maxSymbol + TWO_TO_32 - 1) % TWO_TO_32;
    if !countFails(testBuffU16, max) {
      return UnitFail(MaxTooLow);
    }
    return UnitPass;
  }

  /**
   * The bound contract of FSE_countU16: counting fails exactly when the
   * caller's bound is above the codec's maximum `declared` or below some
   * symbol of the input.
   */
  ghost predicate HonoursBound(countFails: (seq<u16>, u32) -> bool, declared: nat) {
    forall s: seq<u16>, bound: u32 :: countFails(s, bound) == !BoundAccepted(s, bound, declared)
  }

  /** The bound is within the codec's maximum and covers every symbol of `s`. */
  predicate BoundAccepted(s: seq<u16>, bound: u32, declared: nat) {
    bound <= declared && forall i :: 0 <= i < |s| ==> s[i] <= bound
  }

  /**
   * A counter that keeps the bound contract passes unitTest, when
   * FSE_MAX_SYMBOL_VALUE < TBSIZE. For FSE_MAX_SYMBOL_VALUE = 0 the bound
   * below wraps to 2^32 - 1, which is refused as above the maximum.
   */
  lemma HonestCountPasses(maxSymbol: u16, countFails: (seq<u16>, u32) -> bool)
    requires maxSymbol < TBSIZE
    requires HonoursBound(countFails, maxSymbol)
    ensures UnitTestVerdict(maxSymbol, countFails) == UnitPass
  {
    var buff := TestBuffer(maxSymbol);
    TestBufferMaximum(maxSymbol);
    var above, below := BoundAbove(maxSymbol), BoundBelow(maxSymbol);
    assert BoundAccepted(buff, maxSymbol, maxSymbol);
    assert !BoundAccepted(buff, above, maxSymbol);
    if maxSymbol == 0 {
      assert below == TWO_TO_32 - 1;
    } else {
      assert below == maxSymbol - 1;
      assert buff[maxSymbol] > below;
    }
    assert !BoundAccepted(buff, below, maxSymbol);
  }

  /**
   * A counter that ignores the caller's lower bound (accepts any bound up to
   * the declared maximum) fails unitTest with "max too low".
   */
  lemma LaxCountCaught(maxSymbol: u16, countFails: (seq<u16>, u32) -> bool)
    requires 1 <= maxSymbol < TBSIZE
    requires forall s: seq<u16>, bound: u32 :: countFails(s, bound) <==> bound > maxSymbol
    ensures UnitTestVerdict(maxSymbol, countFails) == UnitFail(MaxTooLow)
  {
  }
}
