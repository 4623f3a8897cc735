# fuzzerU16 harness model

A Dafny model of `test/fuzzerU16.c`, the automated test program for the
16-bit-symbol FSE codec. It models the parts of the harness that are its own
logic: the FUZ_rand generator and the seed replay of the `-t` option, the
skewed symbol generator `generateU16`, the test plan and the CHECK sequence
of `FUZ_tests`, the buffer and verdict of `unitTest`, the option scanner and
sequencing of `main`, and the millisecond arithmetic of `FUZ_GetMilliStart`
and `FUZ_GetMilliSpan`. The codec (`FSE_compressU16`, `FSE_decompressU16`,
`FSE_countU16`) is not part of this model: it is a parameter, and the harness
sees only what each call reports.

Modules, one per part of the file:

- `Ints` (ints.dfy): U16 and U32 as integer subsets, and XOR on U32.
- `Rand` (rand.dfy): FUZ_rand as a step function on the 32-bit state and
  the method `FuzRand`, whose `*src` in/out argument becomes an argument and
  a second result; the round seed `seed ^ 0xEDA5B371`.
- `Generator` (generator.dfy): `generateU16`. The `double p` is an exact
  fraction `Ratio(num, den)` with `num < den` (0 <= p < 1); the harness's
  0.08 is `Ratio(2, 25)`. `TableFrom` is the table built run by run;
  `Generated` is the output buffer.
- `RoundTrip` (roundtrip.dfy): `FUZ_tests`. `PlanOf` gives a test's slice
  size, offset and the two extra capacities from its round seed; `Decide`
  is the CHECK sequence over what the codec reported; `RunFrom` is the loop
  that stops at the first failed CHECK, over the verdict of each test by its
  global seed (`TestVerdicts`); `FuzzRun` is the whole function.
  The codec is `Codec(compress, decompress)`: `decompress(src, cap)` stands
  for decoding, with capacity `cap`, the frame that compressing `src` left
  in bufferDst. A `DecodeReport` holds the error flag, the symbols the
  harness then hashes, and the value (if any) the call stored just past
  `cap`. The harness puts its sentinel 1274 there only before the exact and
  undersized calls; no CHECK reads the slot after the oversized one.
- `UnitTests` (unittest.dfy): `unitTest`; `FSE_countU16` is a parameter
  telling whether a call reports an error.
- `CommandLine` (commandline.dfy): the argument loop of `main` and its
  sequencing of `unitTest` and `FUZ_tests`. Arguments are C strings: the
  position past the end reads as NUL.
- `Timing` (timing.dfy): `FUZ_GetMilliStart` and `FUZ_GetMilliSpan` with
  the clock reading as parameters.

The undersized capacity is not kept at 1 or more: when the drawn shrink
amount is not below the slice size it falls back to 1, so a one-symbol
slice is decompressed into a capacity of 0 (`SmallCapacity`). An unknown
option letter (`-x`) does not advance the cursor, so `main` spins for ever
on it; the model returns `Stuck`/`Hangs` at that point instead of looping.

## Model

| member | source | states |
|---|---|---|
| `Ints.XorBits` | test/fuzzerU16.c:175 | the bitwise XOR of the low `bits` bits is below 2^bits, so `seed ^ 0xEDA5B371` stays a U32 |
| `Ints.Xor32` | test/fuzzerU16.c:175 | `a ^ b` on U32, as `XorBits` over 32 bits (no contract beyond its U32 result type: `RoundSeed` and `RoundSeedInjective` state its properties) |
| `Ints.XorBitsInvolution` | test/fuzzerU16.c:175 | XOR-ing the same key twice gives back the original value |
| `Rand.Step` | test/fuzzerU16.c:112 | one FUZ_rand state transition, `(s * 2654435761 + 2246822519)` with unsigned 32-bit wrap-around (no contract: it is the definition the other members use) |
| `Rand.Output` | test/fuzzerU16.c:113 | the value FUZ_rand returns, the new state shifted right by 11, is below 2^21 |
| `Rand.FuzRand` | test/fuzzerU16.c:110-114 | the state becomes (state * 2654435761 + 2246822519) mod 2^32 and the result is that new state >> 11, below 2^21 |
| `Rand.StepN` | test/fuzzerU16.c:167-168 | the global seed after n calls of FUZ_rand (no contract: the definition the replay lemmas are about) |
| `Rand.StepNAdd` | test/fuzzerU16.c:164-176 | stepping the seed `a` times and then `b` times is stepping it `a + b` times, so skipping tests and then running them lands on the same seeds |
| `Rand.StepNShift` | test/fuzzerU16.c:164-176 | stepping the seed once and then k times is stepping it k + 1 times |
| `Rand.RoundSeed` | test/fuzzerU16.c:175 | the round seed `seed ^ 0xEDA5B371` gives the global seed back when XOR-ed with the key again |
| `Rand.RoundSeedInjective` | test/fuzzerU16.c:175 | distinct global seeds give distinct round seeds |
| `Generator.RunLength` | test/fuzzerU16.c:131 | each run takes floor(remaining * p) + 1 slots, at least 1 and at most the `remaining` free slots, so `remaining -= n` never underflows |
| `Generator.TableFrom` | test/fuzzerU16.c:129-137 | the runs from a point with `remaining` free slots fill exactly `remaining` slots |
| `Generator.SymbolTable` | test/fuzzerU16.c:119-137 | the table has exactly PROBATABLESIZE = 4096 slots |
| `Generator.Runs` | test/fuzzerU16.c:131 | the successive run lengths `(U32)(remaining * p) + 1` of the table loop (no contract: `RunsCoverExactly`, `RunsNonIncreasing` and `TableFromIsBlocks` state its properties) |
| `Generator.RunsCoverExactly` | test/fuzzerU16.c:129-137 | the run lengths are each between 1 and the free slots and add up to exactly the free slots: the loop ends with pos == 4096 |
| `Generator.RunLengthMonotone` | test/fuzzerU16.c:131 | fewer free slots never give a longer run |
| `Generator.TableFromIsBlocks` | test/fuzzerU16.c:129-137 | the table is the runs of lengths `Runs` laid end to end, each run holding the symbol after the previous run's, so the properties of `Runs` are those of the runs the loop writes |
| `Generator.RunsNonIncreasing` | test/fuzzerU16.c:129-137 | run lengths never increase from one run to the next |
| `Generator.NextSymbol` | test/fuzzerU16.c:134-135 | the next run's symbol is below FSE_MAX_SYMBOL_VALUE or is 1; it is `val16 + 1` while that is below the maximum, and 1 once `val16 + 1` reaches it without wrapping |
| `Generator.NextSymbolIsLater` | test/fuzzerU16.c:134-135 | after 240 or any later value, `val16++` with the wrap to 1 at FSE_MAX_SYMBOL_VALUE gives a value in [1, FSE_MAX_SYMBOL_VALUE), or 1 when that range is empty |
| `Generator.TableFromValues` | test/fuzzerU16.c:124-137 | every slot from the current run on holds the current value or a later one, and the current run holds the current value |
| `Generator.SymbolTableValues` | test/fuzzerU16.c:124-137 | the first run of the table holds 240 and every later slot a value in [1, FSE_MAX_SYMBOL_VALUE) (1 when that range is empty) |
| `Generator.SampleIndex` | test/fuzzerU16.c:142 | the table index `FUZ_rand(&seed) & 4095` is below 4096 |
| `Generator.Generated` | test/fuzzerU16.c:139-144 | the generated buffer has exactly buffSize symbols |
| `Generator.GeneratedValues` | test/fuzzerU16.c:139-144 | every generated symbol is 240 or a later table value |
| `Generator.WriteRun` | test/fuzzerU16.c:133 | the run loop writes `val16` into slots start..end-1 and leaves every other slot unchanged |
| `Generator.BuildSymbolTable` | test/fuzzerU16.c:119-137 | the table-building loop writes exactly the table `SymbolTable`, all 4096 slots and no index outside them |
| `Generator.GenerateU16` | test/fuzzerU16.c:117-145 | every buffer element k is `table[FUZ_rand's (k+1)-th value & 4095]` from seed seedSrc, for all buffSize elements |
| `RoundTrip.SliceSize` | test/fuzzerU16.c:187 | the slice size `(r & 0x1FFFF) + 1` is in [1, 0x20000] |
| `RoundTrip.SliceOffset` | test/fuzzerU16.c:188 | the slice offset is below BUFFERSIZE - 64 - 0x1FFFF |
| `RoundTrip.LargeCapacity` | test/fuzzerU16.c:214 | the oversized capacity is 1 to 32 symbols above sizeOrig |
| `RoundTrip.SmallCapacity` | test/fuzzerU16.c:221-223 | the undersized capacity lies in [sizeOrig - 32, sizeOrig), and is at least 1 exactly when sizeOrig >= 2 |
| `RoundTrip.PlanOf` | test/fuzzerU16.c:186-224 | sizeOrig is in [1, 0x20000], offset < BUFFERSIZE - 64 - 0x1FFFF and offset + sizeOrig <= BUFFERSIZE - 64; the sentinel index sizeOrig and the oversized capacity sizeOrig + 1..32 fit in the BUFFERSIZE + 32 slots of bufferVerif; the undersized one is below sizeOrig |
| `RoundTrip.Observe` | test/fuzzerU16.c:187-225 | what one test sees: the slice at the drawn offset, the compression report and the three decompression reports at the exact, oversized and undersized capacities (no contract: the codec calls of the test) |
| `RoundTrip.SlotAfter` | test/fuzzerU16.c:200-207 | the value read back from the sentinel slot: what the call stored there, or the sentinel 1274 when it stored nothing (no contract: the read the overrun CHECKs test) |
| `RoundTrip.Decide` | test/fuzzerU16.c:195-227 | the CHECK sequence of one test over what the codec reported, in source order (no contract: `DecideIsFirstFiring` states its meaning) |
| `RoundTrip.DecideIsFirstFiring` | test/fuzzerU16.c:195-227 | a test fails with CHECK c exactly when c's condition holds and no earlier CHECK's does, and passes exactly when none holds (no decompression CHECK when cSize <= 1) |
| `RoundTrip.HonestCodecPasses` | test/fuzzerU16.c:195-227 | a codec that compresses without error, decodes into at least the original length, refuses a smaller one and never writes the slot past the capacity passes every test |
| `RoundTrip.RoundVerdict` | test/fuzzerU16.c:185-227 | the verdict of the test with a given round seed: the CHECK sequence over what it observes (no contract: `DecideIsFirstFiring` states its meaning) |
| `RoundTrip.TestVerdicts` | test/fuzzerU16.c:175-227 | the verdict of the test run when the global seed is s is the verdict for round seed s ^ 0xEDA5B371 (definition: line 175's round seed) |
| `RoundTrip.RunFrom` | test/fuzzerU16.c:171-230 | a reported failure names a test number between the first and the last test run, the test it names fails with the reported CHECK, and every test before it (every test, when all passed) passes |
| `RoundTrip.RunFromByTestNumber` | test/fuzzerU16.c:164-230 | indexed by test number from the start seed: "all passed" exactly when every test from m to totalTest - 1 passes; otherwise the reported test is the first failing one and fails with the reported CHECK |
| `RoundTrip.FuzzVerdicts` | test/fuzzerU16.c:162-175 | the verdict of each test by its global seed, over the buffer generated from startSeed with p = 2/25 (no contract: `FuzzRun` states its properties) |
| `RoundTrip.FuzzRun` | test/fuzzerU16.c:151-236 | FUZ_tests returns normally exactly when every test from startTestNb to totalTest - 1 passes, and otherwise reports the first failing test and its CHECK |
| `RoundTrip.RunFromSkips` | test/fuzzerU16.c:164-176 | when tests m..n-1 pass, the run from test m reaches the same outcome as the run from test n |
| `RoundTrip.FailureAhead` | test/fuzzerU16.c:171-230 | a failure reported at test t by the run from test m has t >= m, and the run from test t, with the seed stepped t - m times, reports the same failure |
| `RoundTrip.ResumeMatchesUninterrupted` | test/fuzzerU16.c:164-176 | for a codec whose reports depend only on the slice and the capacity, resuming at test N reaches the same outcome as running from test 0, when tests 0..N-1 pass |
| `RoundTrip.FailureReproducible` | test/fuzzerU16.c:148-176 | for a codec whose reports depend only on the slice and the capacity, a failure reported at test t of a run from test 0 is reported again, with the same CHECK, when resuming at test t with the same seed |
| `RoundTrip.HonestCodecPassesRun` | test/fuzzerU16.c:171-230 | with a codec that keeps its contract, every run of tests passes |
| `RoundTrip.StoreStrayWrite` | test/fuzzerU16.c:206-207 | the sentinel slot holds what the decompression call stored there, or keeps the sentinel, and no other slot changes |
| `RoundTrip.RunRound` | test/fuzzerU16.c:185-229 | one test draws its sizes, places the sentinels and evaluates its CHECKs exactly as `RoundVerdict` describes |
| `RoundTrip.SkipTests` | test/fuzzerU16.c:164-169 | pre-stepping leaves the global seed at its value after startTestNb steps |
| `RoundTrip.RunTests` | test/fuzzerU16.c:171-230 | the test loop, advancing the global seed once per test and deriving the round seed by XOR, ends as `RunFrom` describes |
| `RoundTrip.FuzzTests` | test/fuzzerU16.c:151-236 | FUZ_tests generates the buffer from the start seed, skips startTestNb steps and runs the tests, ending as `FuzzRun` describes: all passed exactly when every test in [startTestNb, totalTest) passes, otherwise the first failing test |
| `UnitTests.TestBuffer` | test/fuzzerU16.c:257 | the test buffer has 16384 symbols, none above FSE_MAX_SYMBOL_VALUE |
| `UnitTests.TestBufferMaximum` | test/fuzzerU16.c:257 | the largest symbol of `i % (MAX+1)` over 16384 slots is MAX when MAX < 16384 |
| `UnitTests.BuildTestBuffer` | test/fuzzerU16.c:257 | the test buffer has 16384 symbols, each `i % (MAX+1)`, none above MAX |
| `UnitTests.BoundAbove` | test/fuzzerU16.c:263 | the bound one above FSE_MAX_SYMBOL_VALUE (no contract: it is never above 2^16, so no wrap) |
| `UnitTests.BoundBelow` | test/fuzzerU16.c:267 | the bound one below FSE_MAX_SYMBOL_VALUE in U32: MAX - 1 for MAX >= 1, and 2^32 - 1 for MAX = 0 |
| `UnitTests.UnitTestVerdict` | test/fuzzerU16.c:259-269 | unitTest passes exactly when counting with bound MAX succeeds and with bounds MAX+1 and MAX-1 (U32) fails; a "max too low" failure comes only after bound MAX succeeded |
| `UnitTests.UnitTest` | test/fuzzerU16.c:246-273 | unitTest fails on the first of: bound MAX reports an error, bound MAX+1 does not, bound MAX-1 (U32) does not |
| `UnitTests.HonestCountPasses` | test/fuzzerU16.c:252-270 | a counter that fails exactly when the bound is above its maximum or below a symbol present passes unitTest, for every MAX < 16384 (for MAX = 0 the bound below wraps to 2^32 - 1) |
| `UnitTests.LaxCountCaught` | test/fuzzerU16.c:267-269 | a counter that ignores the symbols present is caught by the "max too low" CHECK |
| `CommandLine.DigitRunEnd` | test/fuzzerU16.c:300-305 | the digit loop stops at the first non-digit, inside the argument, after a run of digits only |
| `CommandLine.AccumulateDigit` | test/fuzzerU16.c:300-305 | `v *= 10; v += d` on U32 keeps v equal to the decimal value of the digits read so far, modulo 2^32 |
| `CommandLine.ReadNumber` | test/fuzzerU16.c:298-305 | the digit loop of `s`, `i` and `t` yields the decimal value of the digit run modulo 2^32 (0 for an empty run) and leaves the cursor on the first non-digit |
| `CommandLine.Defaults` | test/fuzzerU16.c:281-284 | main starts with seed FUZ_GetMilliStart() % 10000, 32768 tests, first test 0, display level 2, no pause (no contract: the initial values) |
| `CommandLine.NumberAfter` | test/fuzzerU16.c:298-305 | the number after an `s`, `i` or `t`: the decimal value of the digits that follow, modulo 2^32 (no contract: `ReadNumber` is proved to compute it) |
| `CommandLine.ScanLetter` | test/fuzzerU16.c:294-346 | one pass of the switch keeps the cursor inside the argument and leaves it in place, with the options unchanged, exactly when the letter is not one of `s`, `i`, `t`, `v`, `p` |
| `CommandLine.ScanLetters` | test/fuzzerU16.c:292-347 | the letter loop of one argument: to its NUL, or stuck on a letter that does not move the cursor (no contract: `ParseArguments` is proved to compute it; `UnknownLetterNeverAdvances` states when it gets stuck) |
| `CommandLine.ScanArgument` | test/fuzzerU16.c:289-348 | one argument: letters are scanned only after a leading `-` (no contract: `NonOptionIgnored` states the other case) |
| `CommandLine.ScanArgs` | test/fuzzerU16.c:286-349 | the arguments from argv[1] on, left to right, each scanned letter by letter after a leading `-` (no contract: `ParseArguments` is proved to compute it) |
| `CommandLine.NonOptionIgnored` | test/fuzzerU16.c:289 | an argument not starting with '-' changes nothing |
| `CommandLine.UnknownLetterNeverAdvances` | test/fuzzerU16.c:292-346 | an unknown letter leaves cursor and options unchanged, so the scan never moves past it |
| `CommandLine.KnownLetterAdvances` | test/fuzzerU16.c:296-342 | each of `s`, `i`, `t`, `v`, `p` moves the cursor forward, staying inside the argument |
| `CommandLine.ParseArguments` | test/fuzzerU16.c:281-349 | the argument loop, left to right and letter by letter, yields the options `ScanArgs` describes, or stops where main would spin |
| `CommandLine.MainOutcome` | test/fuzzerU16.c:351-362 | main hangs exactly when scanning gets stuck; it reports all tests passed exactly when the options scan, unitTest passes and every test from startTestNb to totalTest - 1 of the scanned seed passes; a reported fuzz failure names the scanned seed and the first failing test, with its CHECK |
| `CommandLine.MainReportsWhichFailed` | test/fuzzerU16.c:148-149 | main reports a unit-test failure exactly when the options scan and unitTest fails, naming its failed CHECK, and a fuzz failure exactly when the options scan, unitTest passes and some test from startTestNb to totalTest - 1 fails |
| `CommandLine.FuzzerMain` | test/fuzzerU16.c:279-363 | main scans the options, runs unitTest, then FUZ_tests with the scanned seed, totalTest and startTestNb, ending as `MainOutcome` describes |
| `CommandLine.HonestComponentsComplete` | test/fuzzerU16.c:279-363 | with options that scan, a counter and a codec that keep their contracts and MAX < 16384, the program reports all tests passed |
| `Timing.MilliStart` | test/fuzzerU16.c:91-98 | a timestamp is below 0x100000 * 1000 ms |
| `Timing.MilliSpan` | test/fuzzerU16.c:101-107 | the span is in [0, 0x100000 * 1000), congruent to now - start, and equal to it when now >= start |

## Left out

- The codec is a function of the slice and the capacity, so a verdict cannot depend on what earlier tests left in bufferDst or bufferVerif (the C reuses both buffers across tests, and a run resumed with `-t` starts from fresh ones); the replay lemmas `ResumeMatchesUninterrupted` and `FailureReproducible` hold for such codecs.
- The codec: `FSE_compressU16`, `FSE_decompressU16`, `FSE_countU16`, `FSE_isError` and `FSE_getErrorName` are not part of this model; their results are parameters and nothing is assumed about them except in the lemmas that state a contract as a hypothesis.
- XXH64 is not part of this model: two fingerprints are taken as equal exactly when the hashed symbols are equal (collisions are ignored).
- Writes of a decompression call into bufferVerif other than the slot just past its capacity, and the contents of bufferDst, are not modelled; the symbols the harness hashes are part of the call's report.
- The clock (`ftime`), the progress display and its FUZ_UPDATERATE throttle, and the default seed's clock reading: the reading is a parameter (`startMs`, `time`, `millitm`).
- `malloc`/`free`, `DISPLAY`/`DISPLAYLEVEL` output, `exit(-1)` (a failed CHECK ends the run with a `Failed`/`UnitTestFailed`/`FuzzFailed` result instead) and the `getchar` pause (only the pause flag is kept).
- The floating-point product `remaining * p`: p is an exact fraction; 0.08 is taken as 2/25, so the model assumes the double product floors to the same integer as the exact one for every remaining <= 4096.
- FSE_MAX_SYMBOL_VALUE comes from a header that is not part of this model; it is a parameter in the U16 range (the type of `max16`).
- The counts table and the updated `max` written by `FSE_countU16` are not modelled; only its error flag is.
- `x & (2^k - 1)` is written `x % 2^k` and `x >> 11` as `x / 2048`, equal for the unsigned values involved; size_t and U32 quantities never exceed 2^32 here, so no wrap-around is modelled for them beyond FUZ_rand, the option digits and `FSE_MAX_SYMBOL_VALUE-1`.
- The never-ending loop of `main` on an unknown option letter is reported as `Stuck`/`Hangs` instead of being run.
