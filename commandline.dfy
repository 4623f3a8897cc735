/**
 * main: the option scanner and the top-level sequencing of the harness.
 * Options are letters after a '-': `s`, `i` and `t` followed by a decimal
 * number set the seed, the number of tests and the first test; `v` makes the
 * output verbose and `p` pauses before exit. Arguments are C strings: the
 * position just past the end reads as the NUL terminator.
 */
module CommandLine {
  import opened Ints
  import Rand
  import Generator
  import RoundTrip
  import UnitTests

  datatype Config = Config(seed: u32, totalTest: u32, startTestNb: u32, displayLevel: nat, pause: bool)

  /** The values main starts with; `startMs` is FUZ_GetMilliStart(). */
  function Defaults(startMs: nat): Config {
    Config(startMs % 10000, RoundTrip.FUZ_NB_TESTS, 0, 2, false)
  }

  /** The character at position `i` of a NUL-terminated argument. */
  function CharAt(arg: string, i: nat): char {
    if i < |arg| then arg[i] else '\0'
  }

  predicate IsDigit(c: char) {
    '0' <= c <= '9'
  }

  predicate AllDigits(ds: string) {
    forall i :: 0 <= i < |ds| ==> IsDigit(ds[i])
  }

  /** The exact value of a decimal digit string (0 for the empty one). */
  function DecimalValue(ds: string): nat
    requires AllDigits(ds)
  {
    if ds == [] then 0 else DecimalValue(ds[..|ds| - 1]) * 10 + (ds[|ds| - 1] - '0') as nat
  }

  /** The position of the first non-digit at or after `i`. */
  function DigitRunEnd(arg: string, i: nat): (j: nat)
    ensures i <= j
    ensures i <= |arg| ==> j <= |arg|
    ensures !IsDigit(CharAt(arg, j))
    ensures forall k :: i <= k < j ==> IsDigit(CharAt(arg, k))
    ensures i <= |arg| ==> AllDigits(arg[i..j])
    decreases |arg| - i
  {
    if IsDigit(CharAt(arg, i)) then
      var j := DigitRunEnd(arg, i + 1);
      assert forall k :: 0 <= k < j - i ==> arg[i..j][k] == CharAt(arg, i + k);
      j
    else i
  }

  /** The number following an option letter at `pos`, as a U32 variable accumulates it. */
  function NumberAfter(arg: string, pos: nat): u32
    requires pos < |arg|
  {
    var j := DigitRunEnd(arg, pos + 1);
    DecimalValue(arg[pos + 1 .. j]) % TWO_TO_32
  }

  /** One pass of the `switch`: the letter at `pos` gives the new cursor and configuration. */
  function ScanLetter(arg: string, pos: nat, cfg: Config): (r: (nat, Config))
    requires pos < |arg|
    ensures pos <= r.0 <= |arg|
    ensures r.0 == pos <==> arg[pos] !in {'s', 'i', 't', 'v', 'p'}
    ensures r.0 == pos ==> r.1 == cfg
  {
    match arg[pos]
    case 's' => (DigitRunEnd(arg, pos + 1), cfg.(seed := NumberAfter(arg, pos)))
    case 'i' => (DigitRunEnd(arg, pos + 1), cfg.(totalTest := NumberAfter(arg, pos)))
    case 't' => (DigitRunEnd(arg, pos + 1), cfg.(startTestNb := NumberAfter(arg, pos)))
    case 'v' => (pos + 1, cfg.(displayLevel := 4))
    case 'p' => (pos + 1, cfg.(pause := true))
    case _ => (pos, cfg)
  }

  /** How scanning ends: with a configuration, or spinning forever on the letter at `pos` of argv[argNb]. */
  datatype Scan = Scanned(cfg: Config) | Stuck(argNb: nat, pos: nat)

  /** The letters of one argument from `pos` on; `argNb` is its index, for Stuck. */
  function ScanLetters(arg: string, argNb: nat, pos: nat, cfg: Config): Scan
    requires pos <= |arg|
    decreases |arg| - pos
  {
    if CharAt(arg, pos) == '\0' then Scanned(cfg)
    else
      var (pos', cfg') := ScanLetter(arg, pos, cfg);
      if pos' == pos then Stuck(argNb, pos)
      else ScanLetters(arg, argNb, pos', cfg')
  }

  /** One argument: option letters only after a leading '-'. */
  function ScanArgument(arg: string, argNb: nat, cfg: Config): Scan {
    if CharAt(arg, 0) == '-' then ScanLetters(arg, argNb, 1, cfg) else Scanned(cfg)
  }

  /** argv[argNb..], in order. */
  function ScanArgs(argv: seq<string>, argNb: nat, cfg: Config): Scan
    decreases |argv| - argNb
  {
    if argNb >= |argv| then Scanned(cfg)
    else match ScanArgument(argv[argNb], argNb, cfg)
      case Stuck(n, p) => Stuck(n, p)
      case Scanned(cfg') => ScanArgs(argv, argNb + 1, cfg')
  }

  /** An argument not starting with '-' changes nothing. */
  lemma NonOptionIgnored(argv: seq<string>, argNb: nat, cfg: Config)
    requires argNb < |argv| && CharAt(argv[argNb], 0) != '-'
    ensures ScanArgs(argv, argNb, cfg) == ScanArgs(argv, argNb + 1, cfg)
  {
  }

  /**
   * A letter the switch does not know leaves cursor and configuration as
   * they were, so the while loop of main repeats the same pass forever.
   */
  lemma UnknownLetterNeverAdvances(arg: string, argNb: nat, pos: nat, cfg: Config)
    requires pos < |arg| && arg[pos] !in {'s', 'i', 't', 'v', 'p', '\0'}
    ensures ScanLetter(arg, pos, cfg) == (pos, cfg)
    ensures ScanLetters(arg, argNb, pos, cfg) == Stuck(argNb, pos)
  {
  }

  /** Every known letter moves the cursor forward. */
  lemma KnownLetterAdvances(arg: string, pos: nat, cfg: Config)
    requires pos < |arg| && arg[pos] in {'s', 'i', 't', 'v', 'p'}
    ensures pos < ScanLetter(arg, pos, cfg).0 <= |arg|
  {
  }

  /** `acc *= 10; acc += d` on U32 keeps the decimal value modulo 2^32. */
  lemma AccumulateDigit(ds: string, acc: u32, c: char)
    requires AllDigits(ds) && IsDigit(c)
    requires acc == DecimalValue(ds) % TWO_TO_32
    ensures AllDigits(ds + [c])
    ensures ((acc * 10) % TWO_TO_32 + (c - '0') as int) % TWO_TO_32 == DecimalValue(ds + [c]) % TWO_TO_32
  {
    var ds' := ds + [c];
    assert ds'[..|ds'| - 1] == ds;
    var v := DecimalValue(ds);
    var d := (c - '0') as int;
    assert DecimalValue(ds') == v * 10 + d;
    ModMulAdd(v, d);
  }

  lemma ModMulAdd(v: nat, d: nat)
    ensures (((v % TWO_TO_32) * 10) % TWO_TO_32 + d) % TWO_TO_32 == (v * 10 + d) % TWO_TO_32
  {
    var q := v / TWO_TO_32;
    var r := v % TWO_TO_32;
    assert v * 10 + d == (q * 10) * TWO_TO_32 + (r * 10 + d);
    var q2 := (r * 10) / TWO_TO_32;
    assert r * 10 + d == q2 * TWO_TO_32 + ((r * 10) % TWO_TO_32 + d);
  }

  /** The digit loop of an `s`, `i` or `t` option, from just after the letter. */
  method ReadNumber(arg: string, start: nat) returns (value: u32, next: nat)
    requires start <= |arg|
    ensures next == DigitRunEnd(arg, start)
    ensures AllDigits(arg[start..next])
    ensures value == DecimalValue(arg[start..next]) % TWO_TO_32
  {
    value := 0;
    next := start;
    while IsDigit(CharAt(arg, next))
      invariant start <= next <= |arg|
      invariant DigitRunEnd(arg, next) == DigitRunEnd(arg, start)
      invariant AllDigits(arg[start..next])
      invariant value == DecimalValue(arg[start..next]) % TWO_TO_32
      decreases |arg| - next
    {
      AccumulateDigit(arg[start..next], value, arg[next]);
      assert arg[start..next + 1] == arg[start..next] + [arg[next]];
      value := (value * 10) % TWO_TO_32;
      value := (value + (arg[next] - '0') as int) % TWO_TO_32;
      next := next + 1;
    }
  }

  /** The argument loop of main. */
  method ParseArguments(argv: seq<string>, startMs: nat) returns (scan: Scan)
    ensures scan == ScanArgs(argv, 1, Defaults(startMs))
  {
    var cfg := Defaults(startMs);
    var argNb := 1;
    while argNb < |argv|
      invariant 1 <= argNb
      invariant ScanArgs(argv, argNb, cfg) == ScanArgs(argv, 1, Defaults(startMs))
      decreases |argv| - argNb
    {
      var argument := argv[argNb];
      ghost var cfgBefore := cfg;
      if CharAt(argument, 0) == '-' {
        var pos := 1;
        while CharAt(argument, pos) != '\0'
          invariant 1 <= pos <= |argument|
          invariant ScanLetters(argument, argNb, pos, cfg) == ScanArgument(argument, argNb, cfgBefore)
          decreases |argument| - pos
        {
          var letter := argument[pos];
          ghost var step := ScanLetter(argument, pos, cfg);
          ghost var rest := ScanLetters(argument, argNb, step.0, step.1);
          if letter == 's' {
            var value;
            value, pos := ReadNumber(argument, pos + 1);
            cfg := cfg.(seed := value);
          } else if letter == 'i' {
            var value;
            value, pos := ReadNumber(argument, pos + 1);
            cfg := cfg.(totalTest := value);
          } else if letter == 't' {
            var value;
            value, pos := ReadNumber(argument, pos + 1);
            cfg := cfg.(startTestNb := value);
          } else if letter == 'v' {
            pos := pos + 1;
            cfg := cfg.(displayLevel := 4);
          } else if letter == 'p' {
            pos := pos + 1;
            cfg := cfg.(pause := true);
          } else {
            // default: the cursor stays on this letter for ever
            return Stuck(argNb, pos);
          }
          assert (pos, cfg) == step;
        }
      }
      argNb := argNb + 1;
    }
    return Scanned(cfg);
  }

  /** How a run of the program ends. */
  datatype ProgramEnd =
    | Completed(totalTest: u32, pause: bool)
    | UnitTestFailed(countCheck: UnitTests.CountCheck)
    | FuzzFailed(seed: u32, testNb: nat, check: RoundTrip.Check)
    | Hangs(argNb: nat, pos: nat)

  /**
   * main: scan the options, run unitTest, then FUZ_tests from the chosen
   * seed; a failed CHECK ends the process reporting the seed and test number.
   */
  function MainOutcome(argv: seq<string>, startMs: nat, maxSymbol: u16,
                       countFails: (seq<u16>, u32) -> bool, codec: RoundTrip.Codec): (end: ProgramEnd)
    ensures end.Hangs? <==> ScanArgs(argv, 1, Defaults(startMs)).Stuck?
    ensures end.Completed? <==>
      && ScanArgs(argv, 1, Defaults(startMs)).Scanned?
      && UnitTests.UnitTestVerdict(maxSymbol, countFails) == UnitTests.UnitPass
      && var cfg := ScanArgs(argv, 1, Defaults(startMs)).cfg;
         forall t :: cfg.startTestNb <= t < cfg.totalTest ==>
           RoundTrip.RoundPasses(cfg.seed, t, RoundTrip.FuzzVerdicts(cfg.seed, maxSymbol, codec))
    ensures end.FuzzFailed? ==>
      && ScanArgs(argv, 1, Defaults(startMs)).Scanned?
      && var cfg := ScanArgs(argv, 1, Defaults(startMs)).cfg;
         && end.seed == cfg.seed
         && cfg.startTestNb <= end.testNb < cfg.totalTest
         && (forall t :: cfg.startTestNb <= t < end.testNb ==>
               RoundTrip.RoundPasses(cfg.seed, t, RoundTrip.FuzzVerdicts(cfg.seed, maxSymbol, codec)))
         && RoundTrip.FuzzVerdicts(cfg.seed, maxSymbol, codec)(Rand.StepN(cfg.seed, end.testNb)) == RoundTrip.Fail(end.check)
  {
    var scan := ScanArgs(argv, 1, Defaults(startMs));
    if scan.Stuck? then Hangs(scan.argNb, scan.pos)
    else
      var cfg := scan.cfg;
      var unit := UnitTests.UnitTestVerdict(maxSymbol, countFails);
      if unit.UnitFail? then UnitTestFailed(unit.check)
      else
        var run := RoundTrip.FuzzRun(cfg.seed, cfg.totalTest, cfg.startTestNb, maxSymbol, codec);
        if run.Failed? then FuzzFailed(cfg.seed, run.testNb, run.check)
        else Completed(cfg.totalTest, cfg.pause)
  }

  /**
   * Which failure main reports: a unit-test failure exactly when the options
   * scan and unitTest fails, naming unitTest's failed CHECK; a fuzz failure
   * exactly when the options scan, unitTest passes and some test from
   * startTestNb to totalTest - 1 fails.
   */
  lemma MainReportsWhichFailed(argv: seq<string>, startMs: nat, maxSymbol: u16,
                               countFails: (seq<u16>, u32) -> bool, codec: RoundTrip.Codec)
    ensures var end := MainOutcome(argv, startMs, maxSymbol, countFails, codec);
      && (end.UnitTestFailed? <==>
            ScanArgs(argv, 1, Defaults(startMs)).Scanned? && UnitTests.UnitTestVerdict(maxSymbol, countFails).UnitFail?)
      && (end.UnitTestFailed? ==> end.countCheck == UnitTests.UnitTestVerdict(maxSymbol, countFails).check)
      && (end.FuzzFailed? <==>
            && ScanArgs(argv, 1, Defaults(startMs)).Scanned?
            && UnitTests.UnitTestVerdict(maxSymbol, countFails) == UnitTests.UnitPass
            && var cfg := ScanArgs(argv, 1, Defaults(startMs)).cfg;
               exists t :: cfg.startTestNb <= t < cfg.totalTest &&
                 !RoundTrip.RoundPasses(cfg.seed, t, RoundTrip.FuzzVerdicts(cfg.seed, maxSymbol, codec)))
  {
    var end := MainOutcome(argv, startMs, maxSymbol, countFails, codec);
    var scan := ScanArgs(argv, 1, Defaults(startMs));
    if scan.Scanned? && UnitTests.UnitTestVerdict(maxSymbol, countFails) == UnitTests.UnitPass {
      var cfg := scan.cfg;
      var run := RoundTrip.FuzzRun(cfg.seed, cfg.totalTest, cfg.startTestNb, maxSymbol, codec);
      assert end.FuzzFailed? <==> run.Failed?;
    }
  }

  /** main(argc, argv) */
  method FuzzerMain(argv: seq<string>, startMs: nat, maxSymbol: u16,
                    countFails: (seq<u16>, u32) -> bool, codec: RoundTrip.Codec) returns (end: ProgramEnd)
    ensures end == MainOutcome(argv, startMs, maxSymbol, countFails, codec)
  {
    var scan := ParseArguments(argv, startMs);
    if scan.Stuck? {
      return Hangs(scan.argNb, scan.pos);
    }
    var cfg := scan.cfg;
    var unit := UnitTests.UnitTest(maxSymbol, countFails);
    if unit.UnitFail? {
      return UnitTestFailed(unit.check);
    }
    var outcome := RoundTrip.FuzzTests(cfg.seed, cfg.totalTest, cfg.startTestNb, maxSymbol, codec);
    if outcome.Failed? {
      return FuzzFailed(cfg.seed, outcome.testNb, outcome.check);
    }
    return Completed(cfg.totalTest, cfg.pause);
  }

  /**
   * With options that scan, a counter and a codec that keep their contracts,
   * and FSE_MAX_SYMBOL_VALUE < TBSIZE, the program reports that all tests passed.
   */
  lemma HonestComponentsComplete(argv: seq<string>, startMs: nat, maxSymbol: u16,
                                 countFails: (seq<u16>, u32) -> bool, codec: RoundTrip.Codec)
    requires ScanArgs(argv, 1, Defaults(startMs)).Scanned?
    requires maxSymbol < UnitTests.TBSIZE
    requires UnitTests.HonoursBound(countFails, maxSymbol)
    requires RoundTrip.HonoursContract(codec)
    ensures MainOutcome(argv, startMs, maxSymbol, countFails, codec).Completed?
  {
    var cfg := ScanArgs(argv, 1, Defaults(startMs)).cfg;
    UnitTests.HonestCountPasses(maxSymbol, countFails);
    var data := Generator.Generated(RoundTrip.BUFFERSIZE, Generator.P_DEFAULT, maxSymbol, cfg.seed);
    RoundTrip.HonestCodecPassesRun(Rand.StepN(cfg.seed, cfg.startTestNb), cfg.startTestNb, cfg.totalTest, data, codec);
  }
}
