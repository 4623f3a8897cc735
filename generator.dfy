/**
 * generateU16: the skewed 16-bit symbol source of the harness. A 4096-slot
 * table is cut into runs, each run taking a fraction p of the slots still
 * free plus one, and each run holding the next symbol value; the output
 * buffer is then filled by sampling that table with FUZ_rand.
 */
module Generator {
  import opened Ints
  import opened Rand

  /** PROBATABLESIZE: slots in the symbol table (a power of two). */
  const PROBATABLESIZE: nat := 4096
  /** The value held by the first run of the table. */
  const FIRST_SYMBOL: u16 := 240

  /**
   * The probability `p` of generateU16, as the exact fraction num / den.
   * The harness always passes 0.08, which is `Ratio(2, 25)`.
   */
  datatype Ratio = Ratio(num: nat, den: nat)

  /** 0 <= p < 1 */
  predicate IsProbability(p: Ratio) {
    p.num < p.den
  }

  const P_DEFAULT: Ratio := Ratio(2, 25)

  /** `(U32)(remaining * p) + 1`: the number of slots the next run takes. */
  function RunLength(remaining: nat, p: Ratio): (n: nat)
    requires IsProbability(p)
    ensures 1 <= n
    ensures remaining >= 1 ==> n <= remaining
  {
    FloorBelow(remaining, p);
    remaining * p.num / p.den + 1
  }

  /** floor(remaining * p) < remaining whenever some slot is still free. */
  lemma FloorBelow(remaining: nat, p: Ratio)
    requires IsProbability(p)
    ensures remaining >= 1 ==> remaining * p.num / p.den < remaining
  {
    if remaining >= 1 {
      var x := remaining * p.num;
      MulStrictLeft(remaining, p.num, p.den);
      DivTimesBelow(x, p.den);
      MulCancelLess(x / p.den, remaining, p.den);
    }
  }

  lemma MulStrictLeft(a: nat, b: nat, c: nat)
    requires a >= 1 && b < c
    ensures a * b < a * c
  {
  }

  lemma DivTimesBelow(x: nat, d: nat)
    requires d > 0
    ensures (x / d) * d <= x
  {
  }

  /** The symbol after `v`: `val16++` on U16, then back to 1 once it reaches `maxSymbol`. */
  function NextSymbol(v: u16, maxSymbol: u16): (r: u16)
    ensures r < maxSymbol || r == 1
    ensures v + 1 < maxSymbol ==> r == v + 1
    ensures maxSymbol <= v + 1 < TWO_TO_16 ==> r == 1
  {
    var w := (v + 1) % TWO_TO_16;
    if w >= maxSymbol then 1 else w
  }

  /** Values the runs after the first may hold: [1, maxSymbol), or 1 when that range is empty. */
  predicate IsLaterSymbol(v: int, maxSymbol: u16) {
    1 <= v && (v < maxSymbol || v == 1)
  }

  function Repeat(v: u16, n: nat): (s: seq<u16>)
    ensures |s| == n && forall i :: 0 <= i < n ==> s[i] == v
  {
    seq(n, _ => v)
  }

  /** The table slots from the current position on, with `remaining` slots left and `v` the current symbol. */
  function TableFrom(remaining: nat, v: u16, p: Ratio, maxSymbol: u16): (t: seq<u16>)
    requires IsProbability(p)
    ensures |t| == remaining
    decreases remaining
  {
    if remaining == 0 then []
    else
      var n := RunLength(remaining, p);
      Repeat(v, n) + TableFrom(remaining - n, NextSymbol(v, maxSymbol), p, maxSymbol)
  }

  /** The whole table tableU16 built by generateU16. */
  function SymbolTable(p: Ratio, maxSymbol: u16): (t: seq<u16>)
    requires IsProbability(p)
    ensures |t| == PROBATABLESIZE
  {
    TableFrom(PROBATABLESIZE, FIRST_SYMBOL, p, maxSymbol)
  }

  /** The successive run lengths of the table-building loop, with `remaining` slots left. */
  function Runs(remaining: nat, p: Ratio): seq<nat>
    requires IsProbability(p)
    decreases remaining
  {
    if remaining == 0 then [] else
      var n := RunLength(remaining, p);
      [n] + Runs(remaining - n, p)
  }

  /** Consecutive runs of the given lengths, the first holding `v` and each next one the symbol after. */
  function Blocks(runs: seq<nat>, v: u16, maxSymbol: u16): (t: seq<u16>)
    ensures |t| == Sum(runs)
  {
    if runs == [] then [] else Repeat(v, runs[0]) + Blocks(runs[1..], NextSymbol(v, maxSymbol), maxSymbol)
  }

  /** The table from any point is the runs of `Runs`, laid end to end with successive symbols. */
  lemma {:induction false} TableFromIsBlocks(remaining: nat, v: u16, p: Ratio, maxSymbol: u16)
    requires IsProbability(p)
    ensures TableFrom(remaining, v, p, maxSymbol) == Blocks(Runs(remaining, p), v, maxSymbol)
    decreases remaining
  {
    if remaining > 0 {
      var n := RunLength(remaining, p);
      var rs := Runs(remaining, p);
      assert rs[0] == n && rs[1..] == Runs(remaining - n, p);
      TableFromIsBlocks(remaining - n, NextSymbol(v, maxSymbol), p, maxSymbol);
    }
  }

  function Sum(s: seq<nat>): nat {
    if s == [] then 0 else s[0] + Sum(s[1..])
  }

  /** The runs are all non-empty and together cover exactly the free slots: the loop stops with pos == 4096. */
  lemma {:induction false} RunsCoverExactly(remaining: nat, p: Ratio)
    requires IsProbability(p)
    ensures Sum(Runs(remaining, p)) == remaining
    ensures forall i :: 0 <= i < |Runs(remaining, p)| ==> 1 <= Runs(remaining, p)[i] <= remaining
    decreases remaining
  {
    if remaining > 0 {
      var n := RunLength(remaining, p);
      RunsCoverExactly(remaining - n, p);
      var rs := Runs(remaining, p);
      assert rs[1..] == Runs(remaining - n, p);
    }
  }

  lemma MulCancelLess(a: nat, b: nat, d: nat)
    requires d > 0 && a * d < b * d
    ensures a < b
  {
  }

  lemma DivMonotone(x: nat, y: nat, d: nat)
    requires 0 < d && x <= y
    ensures x / d <= y / d
  {
    var qx, qy := x / d, y / d;
    assert qx * d <= x;
    assert y < (qy + 1) * d;
    MulCancelLess(qx, qy + 1, d);
  }

  /** A run never takes more slots when fewer are free. */
  lemma RunLengthMonotone(a: nat, b: nat, p: Ratio)
    requires IsProbability(p) && a <= b
    ensures RunLength(a, p) <= RunLength(b, p)
  {
    assert a * p.num <= b * p.num;
    DivMonotone(a * p.num, b * p.num, p.den);
  }

  /** Run lengths never increase from one run to the next. */
  lemma {:induction false} RunsNonIncreasing(remaining: nat, p: Ratio)
    requires IsProbability(p)
    ensures forall i, j :: 0 <= i < j < |Runs(remaining, p)| ==> Runs(remaining, p)[j] <= Runs(remaining, p)[i]
    decreases remaining
  {
    if remaining > 0 {
      var n := RunLength(remaining, p);
      var rs := Runs(remaining, p);
      var tail := Runs(remaining - n, p);
      RunsNonIncreasing(remaining - n, p);
      RunsCoverExactly(remaining - n, p);
      assert rs[1..] == tail;
      forall j | 1 <= j < |rs|
        ensures rs[j] <= rs[0]
      {
        assert rs[j] == tail[j - 1] <= remaining - n;
        RunLengthMonotone(remaining - n, remaining, p);
        if j > 1 {
          assert tail[j - 1] <= tail[0];
        }
        assert tail[0] == RunLength(remaining - n, p);
      }
    }
  }

  /** After the first run (value 240) or any later run, the next run holds a later symbol. */
  lemma NextSymbolIsLater(v: u16, maxSymbol: u16)
    requires v == FIRST_SYMBOL || IsLaterSymbol(v, maxSymbol)
    ensures IsLaterSymbol(NextSymbol(v, maxSymbol), maxSymbol)
  {
  }

  /** Every slot from here on holds the current symbol or a later one; the current run holds the current symbol. */
  lemma {:induction false} TableFromValues(remaining: nat, v: u16, p: Ratio, maxSymbol: u16)
    requires IsProbability(p)
    requires v == FIRST_SYMBOL || IsLaterSymbol(v, maxSymbol)
    ensures forall i :: 0 <= i < remaining ==>
      TableFrom(remaining, v, p, maxSymbol)[i] == v || IsLaterSymbol(TableFrom(remaining, v, p, maxSymbol)[i], maxSymbol)
    ensures forall i :: 0 <= i < remaining && i < RunLength(remaining, p) ==> TableFrom(remaining, v, p, maxSymbol)[i] == v
    decreases remaining
  {
    if remaining > 0 {
      var n := RunLength(remaining, p);
      var v' := NextSymbol(v, maxSymbol);
      NextSymbolIsLater(v, maxSymbol);
      TableFromValues(remaining - n, v', p, maxSymbol);
      var t := TableFrom(remaining, v, p, maxSymbol);
      var rest := TableFrom(remaining - n, v', p, maxSymbol);
      assert t == Repeat(v, n) + rest;
      forall i | 0 <= i < remaining
        ensures t[i] == v || IsLaterSymbol(t[i], maxSymbol)
      {
        if i >= n {
          assert t[i] == rest[i - n];
        }
      }
    }
  }

  /** The first run of the table holds 240 and every later run a value in [1, maxSymbol) (1 if that is empty). */
  lemma SymbolTableValues(p: Ratio, maxSymbol: u16)
    requires IsProbability(p)
    ensures forall i :: 0 <= i < RunLength(PROBATABLESIZE, p) ==> SymbolTable(p, maxSymbol)[i] == FIRST_SYMBOL
    ensures forall i :: RunLength(PROBATABLESIZE, p) <= i < PROBATABLESIZE ==> IsLaterSymbol(SymbolTable(p, maxSymbol)[i], maxSymbol)
  {
    var n := RunLength(PROBATABLESIZE, p);
    var v' := NextSymbol(FIRST_SYMBOL, maxSymbol);
    TableFromValues(PROBATABLESIZE, FIRST_SYMBOL, p, maxSymbol);
    NextSymbolIsLater(FIRST_SYMBOL, maxSymbol);
    TableFromValues(PROBATABLESIZE - n, v', p, maxSymbol);
    var t := SymbolTable(p, maxSymbol);
    var rest := TableFrom(PROBATABLESIZE - n, v', p, maxSymbol);
    assert t == Repeat(FIRST_SYMBOL, n) + rest;
    forall i | n <= i < PROBATABLESIZE
      ensures IsLaterSymbol(t[i], maxSymbol)
    {
      assert t[i] == rest[i - n];
    }
  }

  /** Slot of the table sampled for output element `k`: FUZ_rand's (k+1)-th value masked with 4095. */
  function SampleIndex(seed: u32, k: nat): (r: nat)
    ensures r < PROBATABLESIZE
  {
    Output(StepN(seed, k + 1)) % PROBATABLESIZE
  }

  /** The `count` symbols generateU16 writes from seed `seed`. */
  function Generated(count: nat, p: Ratio, maxSymbol: u16, seed: u32): (s: seq<u16>)
    requires IsProbability(p)
    ensures |s| == count
  {
    var table := SymbolTable(p, maxSymbol);
    seq(count, k requires 0 <= k < count => table[SampleIndex(seed, k)])
  }

  /** Every generated symbol is 240 or a later symbol, i.e. a value of the table. */
  lemma GeneratedValues(count: nat, p: Ratio, maxSymbol: u16, seed: u32)
    requires IsProbability(p)
    ensures forall k :: 0 <= k < count ==>
      Generated(count, p, maxSymbol, seed)[k] == FIRST_SYMBOL || IsLaterSymbol(Generated(count, p, maxSymbol, seed)[k], maxSymbol)
  {
    SymbolTableValues(p, maxSymbol);
    var g := Generated(count, p, maxSymbol, seed);
    var table := SymbolTable(p, maxSymbol);
    forall k | 0 <= k < count
      ensures g[k] == FIRST_SYMBOL || IsLaterSymbol(g[k], maxSymbol)
    {
      var r := SampleIndex(seed, k);
      assert g[k] == table[r];
    }
  }

  /** One run of the table: slots start..end-1 receive `val16`, in increasing order. */
  method WriteRun(tableU16: array<u16>, start: nat, end: nat, val16: u16)
    requires start <= end <= tableU16.Length
    modifies tableU16
    ensures tableU16[..end] == old(tableU16[..start]) + Repeat(val16, end - start)
    ensures tableU16[end..] == old(tableU16[end..])
  {
    var pos := start;
    while pos < end
      invariant start <= pos <= end
      invariant tableU16[..pos] == old(tableU16[..start]) + Repeat(val16, pos - start)
      invariant tableU16[end..] == old(tableU16[end..])
    {
      tableU16[pos] := val16;
      pos := pos + 1;
    }
  }

  /** The first half of generateU16: fill the local table tableU16 run by run. */
  method BuildSymbolTable(p: Ratio, maxSymbol: u16) returns (tableU16: array<u16>)
    requires IsProbability(p)
    ensures fresh(tableU16)
    ensures tableU16[..] == SymbolTable(p, maxSymbol)
  {
    tableU16 := new u16[PROBATABLESIZE];
    var remaining: nat := PROBATABLESIZE;
    var pos: nat := 0;
    var val16: u16 := FIRST_SYMBOL;
    var max16: u16 := maxSymbol;
    ghost var table := SymbolTable(p, maxSymbol);

    while remaining > 0
      invariant pos + remaining == PROBATABLESIZE
      invariant tableU16[..pos] + TableFrom(remaining, val16, p, max16) == table
      decreases remaining
    {
      var n := RunLength(remaining, p);
      var end := pos + n;
      ghost var done := tableU16[..pos];
      WriteRun(tableU16, pos, end, val16);
      pos := end;
      ghost var rest := TableFrom(remaining - n, NextSymbol(val16, max16), p, max16);
      assert TableFrom(remaining, val16, p, max16) == Repeat(val16, n) + rest;
      assert tableU16[..pos] + rest == done + (Repeat(val16, n) + rest);
      val16 := (val16 + 1) % TWO_TO_16;
      if val16 >= max16 {
        val16 := 1;
      }
      remaining := remaining - n;
    }
    assert pos == PROBATABLESIZE;
    assert tableU16[..] == tableU16[..pos];
  }

  /** generateU16(buffer, buffer.Length, p, seedSrc) */
  method GenerateU16(buffer: array<u16>, p: Ratio, maxSymbol: u16, seedSrc: u32)
    requires IsProbability(p)
    modifies buffer
    ensures buffer[..] == Generated(buffer.Length, p, maxSymbol, seedSrc)
  {
    var tableU16 := BuildSymbolTable(p, maxSymbol);
    ghost var table := tableU16[..];
    var seed: u32 := seedSrc;

    // sample the table once per output symbol
    var op := 0;
    while op < buffer.Length
      invariant 0 <= op <= buffer.Length
      invariant seed == StepN(seedSrc, op)
      invariant forall k :: 0 <= k < op ==> buffer[k] == table[SampleIndex(seedSrc, k)]
      modifies buffer
    {
      var next, r := FuzRand(seed);
      assert StepN(seedSrc, op + 1) == next;
      assert SampleIndex(seedSrc, op) == r % PROBATABLESIZE;
      seed := next;
      buffer[op] := tableU16[r % PROBATABLESIZE];
      op := op + 1;
    }
  }
}
