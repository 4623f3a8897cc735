/**
 * FUZ_tests: the round-trip fuzz loop. Each test derives a round seed from
 * the global seed, picks a slice of the generated buffer, compresses it and
 * decompresses it into an exact, an oversized and an undersized destination,
 * stopping the whole run at the first failed CHECK.
 *
 * The codec (FSE_compressU16, FSE_decompressU16) is outside this model: it is
 * a parameter, and the harness only sees what each call reports. The XXH64
 * fingerprints are compared for equality only, so comparing hashes is
 * modelled as comparing the hashed contents.
 */
module RoundTrip {
  import opened Ints
  import opened Rand
  import opened Generator

  /** BUFFERSIZE: symbols in the generated buffer bufferP8, (1 MB) - 1. */
  const BUFFERSIZE: nat := 0x10_0000 - 1
  /** FUZ_NB_TESTS: default number of tests, 32 KB. */
  const FUZ_NB_TESTS: nat := 32 * 1024
  /** maxTestSizeMask */
  const MAX_TEST_SIZE_MASK: nat := 0x1FFFF
  /** bufferDstSize: bytes allocated for each scratch buffer. */
  const BUFFER_DST_SIZE: nat := BUFFERSIZE * 2 + 64
  /** U16 slots of bufferVerif (bufferDstSize bytes). */
  const VERIF_SLOTS: nat := BUFFER_DST_SIZE / 2
  /** The divisor picking the slice offset: BUFFERSIZE - 64 - maxTestSizeMask. */
  const OFFSET_RANGE: nat := BUFFERSIZE - 64 - MAX_TEST_SIZE_MASK
  /** The sentinel value placed just past a decompression destination. */
  const SENTINEL: u16 := 1024 + 250

  /** The sizes and positions one test uses, all drawn from the round seed. */
  datatype Plan = Plan(sizeOrig: nat, offset: nat, largeCap: nat, smallCap: nat)

  /** `(r & maxTestSizeMask) + 1` */
  function SliceSize(r: nat): (sizeOrig: nat)
    ensures 1 <= sizeOrig <= MAX_TEST_SIZE_MASK + 1
  {
    r % (MAX_TEST_SIZE_MASK + 1) + 1
  }

  /** `r % (BUFFERSIZE - 64 - maxTestSizeMask)` */
  function SliceOffset(r: nat): (offset: nat)
    ensures offset < OFFSET_RANGE
  {
    r % OFFSET_RANGE
  }

  /** `sizeOrig + (r & 31) + 1` */
  function LargeCapacity(sizeOrig: nat, r: nat): (dstSize: nat)
    ensures sizeOrig < dstSize <= sizeOrig + 32
  {
    sizeOrig + r % 32 + 1
  }

  /**
   * The undersized capacity: shrink by `(r & 31) + 1`, or by 1 when that is
   * not smaller than `sizeOrig`.
   */
  function SmallCapacity(sizeOrig: nat, r: nat): (dstSize: nat)
    requires sizeOrig >= 1
    ensures sizeOrig - 32 <= dstSize < sizeOrig
    ensures dstSize >= 1 <==> sizeOrig >= 2
  {
    var shrink := r % 32 + 1;
    var shrink' := if shrink >= sizeOrig then 1 else shrink;
    sizeOrig - shrink'
  }

  /** The plan of the test whose round seed is `roundSeed`: its first four FUZ_rand values, in order. */
  function PlanOf(roundSeed: u32): (plan: Plan)
    ensures 1 <= plan.sizeOrig <= MAX_TEST_SIZE_MASK + 1
    ensures plan.offset < OFFSET_RANGE
    ensures plan.offset + plan.sizeOrig <= BUFFERSIZE - 64
    ensures plan.sizeOrig < VERIF_SLOTS
    ensures plan.sizeOrig < plan.largeCap <= plan.sizeOrig + 32 && plan.largeCap <= VERIF_SLOTS
    ensures plan.sizeOrig - 32 <= plan.smallCap < plan.sizeOrig
  {
    var s1 := Step(roundSeed);
    var s2 := Step(s1);
    var s3 := Step(s2);
    var s4 := Step(s3);
    var size := SliceSize(Output(s1));
    Plan(size, SliceOffset(Output(s2)), LargeCapacity(size, Output(s3)), SmallCapacity(size, Output(s4)))
  }

  /** What FSE_compressU16 reports for a slice: an error, or the compressed size. */
  datatype CompressReport = CompressReport(isError: bool, cSize: nat)

  datatype Option<T> = None | Some(value: T)

  /**
   * What one FSE_decompressU16 call into bufferVerif with some capacity
   * shows the harness: whether it reported an error, the symbols the harness
   * hashes afterwards (bufferVerif[..result]), and the value it stored in the
   * slot just past the capacity, if it stored one there.
   */
  datatype DecodeReport = DecodeReport(isError: bool, decoded: seq<u16>, strayWrite: Option<u16>)

  /**
   * The codec under test. `decompress(src, cap)` stands for decoding, into a
   * destination of capacity `cap`, the frame that compressing `src` left in
   * bufferDst.
   */
  datatype Codec = Codec(
    compress: seq<u16> -> CompressReport,
    decompress: (seq<u16>, nat) -> DecodeReport)

  /** The CHECKs of one test, in the order the harness evaluates them. */
  datatype Check =
    | CompressFailed
    | ExactOverrun
    | ExactFailed
    | ExactCorrupted
    | LargeFailed
    | LargeCorrupted
    | SmallOverrun
    | SmallSucceeded

  datatype Verdict = Pass | Fail(check: Check)

  /** The value of the sentinel slot after a call: the sentinel unless the call overwrote it. */
  function SlotAfter(report: DecodeReport): u16 {
    match report.strayWrite
    case None => SENTINEL
    case Some(v) => v
  }

  /** Everything one test observes. */
  datatype Round = Round(
    src: seq<u16>, compress: CompressReport,
    exact: DecodeReport, large: DecodeReport, small: DecodeReport)

  function Observe(roundSeed: u32, data: seq<u16>, codec: Codec): Round
    requires |data| == BUFFERSIZE
  {
    var plan := PlanOf(roundSeed);
    var src := data[plan.offset .. plan.offset + plan.sizeOrig];
    Round(src, codec.compress(src),
          codec.decompress(src, plan.sizeOrig),
          codec.decompress(src, plan.largeCap),
          codec.decompress(src, plan.smallCap))
  }

  /** The harness's decision for one test: the first CHECK that fires, if any. */
  function Decide(r: Round): Verdict {
    if r.compress.isError then Fail(CompressFailed)
    else if r.compress.cSize <= 1 then Pass
    else if SlotAfter(r.exact) != SENTINEL then Fail(ExactOverrun)
    else if r.exact.isError then Fail(ExactFailed)
    else if r.exact.decoded != r.src then Fail(ExactCorrupted)
    else if r.large.isError then Fail(LargeFailed)
    else if r.large.decoded != r.src then Fail(LargeCorrupted)
    else if SlotAfter(r.small) != SENTINEL then Fail(SmallOverrun)
    else if !r.small.isError then Fail(SmallSucceeded)
    else Pass
  }

  function RoundVerdict(roundSeed: u32, data: seq<u16>, codec: Codec): Verdict
    requires |data| == BUFFERSIZE
  {
    Decide(Observe(roundSeed, data, codec))
  }

  /** Position of a CHECK in the test's sequence. */
  function Rank(c: Check): nat {
    match c
    case CompressFailed => 0
    case ExactOverrun => 1
    case ExactFailed => 2
    case ExactCorrupted => 3
    case LargeFailed => 4
    case LargeCorrupted => 5
    case SmallOverrun => 6
    case SmallSucceeded => 7
  }

  /** Whether the condition of CHECK `c` holds, ignoring the CHECKs before it. */
  predicate Fires(c: Check, r: Round) {
    match c
    case CompressFailed => r.compress.isError
    case _ =>
      !r.compress.isError && r.compress.cSize > 1 &&
      match c
      case ExactOverrun => SlotAfter(r.exact) != SENTINEL
      case ExactFailed => r.exact.isError
      case ExactCorrupted => r.exact.decoded != r.src
      case LargeFailed => r.large.isError
      case LargeCorrupted => r.large.decoded != r.src
      case SmallOverrun => SlotAfter(r.small) != SENTINEL
      case SmallSucceeded => !r.small.isError
  }

  /**
   * A test fails with CHECK `c` exactly when `c` fires and no earlier CHECK
   * does, and passes exactly when no CHECK fires.
   */
  lemma DecideIsFirstFiring(r: Round)
    ensures Decide(r) == Pass <==> forall c :: !Fires(c, r)
    ensures forall c :: Decide(r) == Fail(c) <==> Fires(c, r) && forall c' :: Rank(c') < Rank(c) ==> !Fires(c', r)
  {
    // name every CHECK's condition so that the quantifiers below see all eight
    var f0, f1, f2, f3 := Fires(CompressFailed, r), Fires(ExactOverrun, r), Fires(ExactFailed, r), Fires(ExactCorrupted, r);
    var f4, f5, f6, f7 := Fires(LargeFailed, r), Fires(LargeCorrupted, r), Fires(SmallOverrun, r), Fires(SmallSucceeded, r);
    forall c ensures Fires(c, r) ==> Decide(r) != Pass {
    }
    forall c
      ensures Decide(r) == Fail(c) <==> Fires(c, r) && forall c' :: Rank(c') < Rank(c) ==> !Fires(c', r)
    {
      forall c' | Rank(c') < Rank(c) && Decide(r) == Fail(c)
        ensures !Fires(c', r)
      {
      }
    }
  }

  /**
   * The codec's documented contract on the slices the harness feeds it:
   * compression succeeds; when it is not degenerate, decompression into at
   * least the original length succeeds and reproduces the slice, decompression
   * into less fails, and neither writes the slot just past the capacity.
   */
  ghost predicate HonoursContract(codec: Codec) {
    forall src: seq<u16> | |src| >= 1 :: CompressesAndDecodes(codec, src)
  }

  ghost predicate CompressesAndDecodes(codec: Codec, src: seq<u16>) {
    !codec.compress(src).isError &&
    (codec.compress(src).cSize > 1 ==>
      forall cap: nat :: DecodesWithin(codec.decompress(src, cap), src, cap))
  }

  predicate DecodesWithin(d: DecodeReport, src: seq<u16>, cap: nat) {
    d.strayWrite.None? &&
    if cap >= |src| then !d.isError && d.decoded == src else d.isError
  }

  /** A codec that keeps its contract passes every test. */
  lemma HonestCodecPasses(roundSeed: u32, data: seq<u16>, codec: Codec)
    requires |data| == BUFFERSIZE && HonoursContract(codec)
    ensures RoundVerdict(roundSeed, data, codec) == Pass
  {
    var plan := PlanOf(roundSeed);
    var r := Observe(roundSeed, data, codec);
    assert CompressesAndDecodes(codec, r.src);
    if r.compress.cSize > 1 {
      assert DecodesWithin(codec.decompress(r.src, plan.sizeOrig), r.src, plan.sizeOrig);
      assert DecodesWithin(codec.decompress(r.src, plan.largeCap), r.src, plan.largeCap);
      assert DecodesWithin(codec.decompress(r.src, plan.smallCap), r.src, plan.smallCap);
    }
  }

  /** How a run ends: every test passed, or the first failing test and its CHECK (the exit(-1) path). */
  datatype RunOutcome = AllPassed | Failed(testNb: nat, check: Check)

  /** The verdict of the test run when the global seed is `seed`: its round seed is `seed ^ 0xEDA5B371`. */
  function TestVerdicts(data: seq<u16>, codec: Codec): (verdictOf: u32 -> Verdict)
    requires |data| == BUFFERSIZE
    ensures forall seed: u32 :: verdictOf(seed) == RoundVerdict(RoundSeed(seed), data, codec)
  {
    (seed: u32) => RoundVerdict(RoundSeed(seed), data, codec)
  }

  /**
   * The tests from `testNb` to `totalTest - 1`, with `seed` the global seed
   * at test `testNb` and `verdictOf` the verdict of a test by its global seed.
   */
  function RunFrom(seed: u32, testNb: nat, totalTest: nat, verdictOf: u32 -> Verdict): (out: RunOutcome)
    ensures out.Failed? ==> testNb <= out.testNb < totalTest && verdictOf(StepN(seed, out.testNb - testNb)) == Fail(out.check)
    ensures forall k :: 0 <= k < (if out.Failed? then out.testNb else totalTest) - testNb ==> verdictOf(StepN(seed, k)) == Pass
    decreases totalTest - testNb
  {
    if testNb >= totalTest then AllPassed
    else match verdictOf(seed)
      case Fail(c) => Failed(testNb, c)
      case Pass =>
        var out := RunFrom(Step(seed), testNb + 1, totalTest, verdictOf);
        StepNShiftAll(seed);
        if out.Failed? then StepNShift(seed, out.testNb - testNb - 1); out else out
  }

  /** Test `t` of the run from `startSeed` passes. */
  predicate RoundPasses(startSeed: u32, t: nat, verdictOf: u32 -> Verdict) {
    verdictOf(StepN(startSeed, t)) == Pass
  }

  /**
   * The run from test m, indexed by test number: it reports "all passed"
   * exactly when every test from m to totalTest - 1 passes, and otherwise
   * the first test that fails, with that test's CHECK.
   */
  lemma RunFromByTestNumber(startSeed: u32, m: nat, totalTest: nat, verdictOf: u32 -> Verdict)
    ensures var out := RunFrom(StepN(startSeed, m), m, totalTest, verdictOf);
      && (out.AllPassed? <==> forall t :: m <= t < totalTest ==> RoundPasses(startSeed, t, verdictOf))
      && (out.Failed? ==>
            && m <= out.testNb < totalTest
            && (forall t :: m <= t < out.testNb ==> RoundPasses(startSeed, t, verdictOf))
            && verdictOf(StepN(startSeed, out.testNb)) == Fail(out.check))
  {
    var out := RunFrom(StepN(startSeed, m), m, totalTest, verdictOf);
    var last := if out.Failed? then out.testNb else totalTest;
    forall t | m <= t < last
      ensures RoundPasses(startSeed, t, verdictOf)
    {
      StepNAdd(startSeed, m, t - m);
    }
    if out.Failed? {
      StepNAdd(startSeed, m, out.testNb - m);
      assert !RoundPasses(startSeed, out.testNb, verdictOf);
    }
  }

  /** The verdict of each test of FUZ_tests from `startSeed`, by its global seed. */
  function FuzzVerdicts(startSeed: u32, maxSymbol: u16, codec: Codec): u32 -> Verdict {
    TestVerdicts(Generated(BUFFERSIZE, P_DEFAULT, maxSymbol, startSeed), codec)
  }

  /**
   * FUZ_tests(startSeed, totalTest, startTestNb) for a codec and
   * FSE_MAX_SYMBOL_VALUE: "all tests passed" exactly when every test from
   * startTestNb to totalTest - 1 passes; otherwise the reported test is the
   * first one that fails, and it fails with the reported CHECK.
   */
  function FuzzRun(startSeed: u32, totalTest: nat, startTestNb: nat, maxSymbol: u16, codec: Codec): (out: RunOutcome)
    ensures out.AllPassed? <==> forall t :: startTestNb <= t < totalTest ==> RoundPasses(startSeed, t, FuzzVerdicts(startSeed, maxSymbol, codec))
    ensures out.Failed? ==>
      && startTestNb <= out.testNb < totalTest
      && (forall t :: startTestNb <= t < out.testNb ==> RoundPasses(startSeed, t, FuzzVerdicts(startSeed, maxSymbol, codec)))
      && FuzzVerdicts(startSeed, maxSymbol, codec)(StepN(startSeed, out.testNb)) == Fail(out.check)
  {
    RunFromByTestNumber(startSeed, startTestNb, totalTest, FuzzVerdicts(startSeed, maxSymbol, codec));
    RunFrom(StepN(startSeed, startTestNb), startTestNb, totalTest, FuzzVerdicts(startSeed, maxSymbol, codec))
  }

  lemma {:induction false} RunFromSkips(startSeed: u32, m: nat, n: nat, totalTest: nat, verdictOf: u32 -> Verdict)
    requires m <= n
    requires forall t :: m <= t < n ==> RoundPasses(startSeed, t, verdictOf)
    ensures RunFrom(StepN(startSeed, m), m, totalTest, verdictOf) == RunFrom(StepN(startSeed, n), n, totalTest, verdictOf)
    decreases n - m
  {
    if m < n && m < totalTest {
      assert RoundPasses(startSeed, m, verdictOf);
      assert StepN(startSeed, m + 1) == Step(StepN(startSeed, m));
      RunFromSkips(startSeed, m + 1, n, totalTest, verdictOf);
    }
  }

  /**
   * Resuming at test N (the -t option) reaches the same outcome as the
   * uninterrupted run, provided the uninterrupted run passes tests 0..N-1.
   */
  lemma ResumeMatchesUninterrupted(startSeed: u32, n: nat, totalTest: nat, maxSymbol: u16, codec: Codec)
    requires forall t :: 0 <= t < n ==> RoundPasses(startSeed, t, FuzzVerdicts(startSeed, maxSymbol, codec))
    ensures FuzzRun(startSeed, totalTest, n, maxSymbol, codec) == FuzzRun(startSeed, totalTest, 0, maxSymbol, codec)
  {
    RunFromSkips(startSeed, 0, n, totalTest, FuzzVerdicts(startSeed, maxSymbol, codec));
  }

  /** The run from test m fails at test t only if it reaches test t and fails there. */
  lemma {:induction false} FailureAhead(seed: u32, m: nat, totalTest: nat, verdictOf: u32 -> Verdict, t: nat, c: Check)
    requires RunFrom(seed, m, totalTest, verdictOf) == Failed(t, c)
    ensures m <= t
    ensures RunFrom(StepN(seed, t - m), t, totalTest, verdictOf) == Failed(t, c)
    decreases totalTest - m
  {
    if m != t {
      FailureAhead(Step(seed), m + 1, totalTest, verdictOf, t, c);
      StepNShift(seed, t - m - 1);
    }
  }

  /**
   * A failure reported as "(seed s, test nb t)" is reproduced by running
   * again with that seed and resuming at test t.
   */
  lemma FailureReproducible(startSeed: u32, totalTest: nat, maxSymbol: u16, codec: Codec, t: nat, c: Check)
    requires FuzzRun(startSeed, totalTest, 0, maxSymbol, codec) == Failed(t, c)
    ensures FuzzRun(startSeed, totalTest, t, maxSymbol, codec) == Failed(t, c)
  {
    FailureAhead(startSeed, 0, totalTest, FuzzVerdicts(startSeed, maxSymbol, codec), t, c);
  }

  /** A codec that keeps its contract passes every test of every run. */
  lemma {:induction false} HonestCodecPassesRun(seed: u32, testNb: nat, totalTest: nat, data: seq<u16>, codec: Codec)
    requires |data| == BUFFERSIZE && HonoursContract(codec)
    ensures RunFrom(seed, testNb, totalTest, TestVerdicts(data, codec)) == AllPassed
    decreases totalTest - testNb
  {
    if testNb < totalTest {
      HonestCodecPasses(RoundSeed(seed), data, codec);
      HonestCodecPassesRun(Step(seed), testNb + 1, totalTest, data, codec);
    }
  }

  /** The value a decompression call leaves in bufferVerif[slot]. */
  method StoreStrayWrite(bufferVerif: array<u16>, slot: nat, report: DecodeReport)
    requires slot < bufferVerif.Length
    modifies bufferVerif
    ensures bufferVerif[slot] == (if report.strayWrite.Some? then report.strayWrite.value else old(bufferVerif[slot]))
    ensures forall k :: 0 <= k < bufferVerif.Length && k != slot ==> bufferVerif[k] == old(bufferVerif[k])
  {
    if report.strayWrite.Some? {
      bufferVerif[slot] := report.strayWrite.value;
    }
  }

  /** The body of one iteration of FUZ_tests, after the round seed is taken. */
  method RunRound(roundSeed: u32, data: seq<u16>, codec: Codec, bufferVerif: array<u16>) returns (verdict: Verdict)
    requires |data| == BUFFERSIZE && bufferVerif.Length == VERIF_SLOTS
    modifies bufferVerif
    ensures verdict == RoundVerdict(roundSeed, data, codec)
  {
    ghost var plan := PlanOf(roundSeed);
    ghost var round := Observe(roundSeed, data, codec);
    var rs := roundSeed;
    var r: nat;
    rs, r := FuzRand(rs);
    var sizeOrig := r % (MAX_TEST_SIZE_MASK + 1) + 1;
    rs, r := FuzRand(rs);
    var offset := r % OFFSET_RANGE;
    assert sizeOrig == plan.sizeOrig && offset == plan.offset;
    var bufferTest := data[offset .. offset + sizeOrig];
    var compressed := codec.compress(bufferTest);
    if compressed.isError {
      return Fail(CompressFailed);
    }
    if compressed.cSize > 1 {
      // capacity equal to the slice: must decode it intact and leave the sentinel alone
      bufferVerif[sizeOrig] := SENTINEL;
      var saved := SENTINEL;
      var result := codec.decompress(bufferTest, sizeOrig);
      StoreStrayWrite(bufferVerif, sizeOrig, result);
      if bufferVerif[sizeOrig] != saved {
        return Fail(ExactOverrun);
      }
      if result.isError {
        return Fail(ExactFailed);
      }
      if result.decoded != bufferTest {
        return Fail(ExactCorrupted);
      }

      // capacity above the slice: must still decode it intact
      rs, r := FuzRand(rs);
      var largeCap := sizeOrig + r % 32 + 1;
      assert largeCap == plan.largeCap;
      result := codec.decompress(bufferTest, largeCap);
      if result.isError {
        return Fail(LargeFailed);
      }
      if result.decoded != bufferTest {
        return Fail(LargeCorrupted);
      }

      // capacity below the slice: must report an error and leave the sentinel alone
      rs, r := FuzRand(rs);
      var dstSize := r % 32 + 1;
      if dstSize >= sizeOrig {
        dstSize := 1;
      }
      dstSize := sizeOrig - dstSize;
      assert dstSize == plan.smallCap;
      bufferVerif[dstSize] := SENTINEL;
      saved := SENTINEL;
      result := codec.decompress(bufferTest, dstSize);
      StoreStrayWrite(bufferVerif, dstSize, result);
      if bufferVerif[dstSize] != saved {
        return Fail(SmallOverrun);
      }
      if !result.isError {
        return Fail(SmallSucceeded);
      }
    }
    return Pass;
  }

  /** The `if (startTestNb)` block of FUZ_tests: step the global seed once per skipped test. */
  method SkipTests(startSeed: u32, startTestNb: u32) returns (seed: u32)
    ensures seed == StepN(startSeed, startTestNb)
  {
    seed := startSeed;
    var i := 0;
    var unused: nat;
    while i < startTestNb
      invariant 0 <= i <= startTestNb
      invariant seed == StepN(startSeed, i)
    {
      seed, unused := FuzRand(seed);
      i := i + 1;
    }
  }

  /** The test loop of FUZ_tests, from test `startTestNb` with global seed `seed`. */
  method RunTests(seed: u32, startTestNb: nat, totalTest: nat, data: seq<u16>, codec: Codec, bufferVerif: array<u16>)
    returns (outcome: RunOutcome)
    requires |data| == BUFFERSIZE && bufferVerif.Length == VERIF_SLOTS
    modifies bufferVerif
    ensures outcome == RunFrom(seed, startTestNb, totalTest, TestVerdicts(data, codec))
  {
    var globalSeed := seed;
    var unused: nat;
    var testNb := startTestNb;
    while testNb < totalTest
      invariant startTestNb <= testNb
      invariant RunFrom(globalSeed, testNb, totalTest, TestVerdicts(data, codec)) == RunFrom(seed, startTestNb, totalTest, TestVerdicts(data, codec))
      decreases totalTest - testNb
    {
      ghost var before := globalSeed;
      var roundSeed := RoundSeed(globalSeed);
      globalSeed, unused := FuzRand(globalSeed);
      var verdict := RunRound(roundSeed, data, codec, bufferVerif);
      if verdict.Fail? {
        return Failed(testNb, verdict.check);
      }
      assert TestVerdicts(data, codec)(before) == verdict;
      testNb := testNb + 1;
    }
    return AllPassed;
  }

  /** FUZ_tests(startSeed, totalTest, startTestNb) */
  method FuzzTests(startSeed: u32, totalTest: u32, startTestNb: u32, maxSymbol: u16, codec: Codec)
    returns (outcome: RunOutcome)
    ensures outcome == FuzzRun(startSeed, totalTest, startTestNb, maxSymbol, codec)
    ensures outcome.AllPassed? <==>
      forall t :: startTestNb <= t < totalTest ==> RoundPasses(startSeed, t, FuzzVerdicts(startSeed, maxSymbol, codec))
    ensures outcome.Failed? ==> startTestNb <= outcome.testNb < totalTest
  {
    var bufferP8 := new u16[BUFFERSIZE];
    var bufferVerif := new u16[VERIF_SLOTS];
    GenerateU16(bufferP8, P_DEFAULT, maxSymbol, startSeed);
    var seed := SkipTests(startSeed, startTestNb);
    outcome := RunTests(seed, startTestNb, totalTest, bufferP8[..], codec, bufferVerif);
  }
}
