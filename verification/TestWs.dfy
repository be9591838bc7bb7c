/** matmul_ws.c: weight-stationary products over every combination of operands, reusing weights,
    adding D or zeros, and accumulating chains, against the gold computed beside it. */
module TestWs {
  import opened Accelerator
  import opened Arith
  import opened Config
  import opened LocalMemory
  import opened Quantize
  import opened Sums
  import opened TestBench

  /** The flag arrays; element c belongs to computation c. */
  datatype Flags = Flags(preload: seq<bool>, zeros: seq<bool>, accumulate: seq<bool>)

  datatype Run = Run(x: Bench, f: Flags, scale: Scale) {
    function Total(): int { x.N * x.N * x.N }
    predicate Ok() {
      && x.Ok() && Total() >= 1
      && |f.preload| == Total() && |f.zeros| == Total() && |f.accumulate| == Total()
      && f.preload[0] && !f.accumulate[0]
    }
    /** The operands fit the scratchpad and the results the accumulator. */
    predicate FitsMemories() { x.FitsSpad() && Fits(Total() - 1, ACC_ROWS) }
  }

  type GoodRun = w: Run | w.Ok() ghost witness WitnessRun()

  ghost function WitnessRun(): Run
    ensures WitnessRun().Ok()
  {
    Run(Bench(1, 1, 1, 1, 1, 0, 0), Flags([true], [false], [false]), y => y)
  }

  // ---------- gold ----------

  function Weights(w: GoodRun, d: Dram, c: int): Matrix requires 0 <= c < w.Total() {
    InDram(d, w.x.B, OperandB(w.x.N, Last(w.f.preload, true, c)))
  }

  function Addend(w: GoodRun, d: Dram, c: int): Matrix requires 0 <= c < w.Total() {
    if w.f.zeros[c] then (r, k) => 0 else InDram(d, w.x.D, OperandD(w.x.N, c))
  }

  /** The product and addend of computation c alone. */
  function Single(w: GoodRun, d: Dram, c: int): Matrix requires 0 <= c < w.Total() {
    (r, k) => Addend(w, d, c)(r, k) + Mac(InDram(d, w.x.A, OperandA(w.x.N, c)), Weights(w, d, c), r, k)
  }

  function FullVal(w: GoodRun, d: Dram, c: int, r: int, k: int): int
    requires 0 <= c < w.Total()
  {
    Single(w, d, c)(r, k) + (if w.f.accumulate[c] then FullVal(w, d, c - 1, r, k) else 0)
  }

  /** gold_full[c] */
  function Full(w: GoodRun, d: Dram, c: int): Matrix requires 0 <= c < w.Total() { (r, k) => FullVal(w, d, c, r, k) }

  /** gold[c] */
  function Gold(w: GoodRun, d: Dram): int -> Matrix {
    c => (r, k) =>
      if 0 <= c < w.Total() then GoldActivate(Clip(w.scale(FullVal(w, d, c, r, k))), w.x.act, w.x.relu6Shift) else 0
  }

  /** !no_output[c] */
  function Outputs(w: GoodRun): int -> bool {
    c => 0 <= c < w.Total() && (c == w.Total() - 1 || !w.f.accumulate[c + 1])
  }

  /** The round tries every combination of an A, a B and a D, each in one of its computations. */
  lemma EveryCombination(w: GoodRun, a: int, b: int, d: int)
    requires 0 <= a < w.x.N && 0 <= b < w.x.N && 0 <= d < w.x.N
    ensures exists c :: 0 <= c < w.Total() && OperandA(w.x.N, c) == a && OperandB(w.x.N, c) == b
                        && OperandD(w.x.N, c) == d
  {
    EveryTriple(w.x.N, a, b, d, (a * w.x.N + b) * w.x.N + d);
    hide OperandA, OperandB, OperandD;
  }

  /** What is stored are the results of the last computation of each chain. */
  lemma OutputsAre(w: GoodRun, c: int)
    requires 0 <= c < w.Total()
    ensures Outputs(w)(c) <==> forall j :: c < j < w.Total() ==> Head(w, j) != Head(w, c)
  {
    if c + 1 < w.Total() && w.f.accumulate[c + 1] {
      assert Head(w, c + 1) == Head(w, c);
    }
  }

  // ---------- addresses ----------

  /** Head of the chain computation c belongs to. */
  function Head(w: GoodRun, c: int): int requires 0 <= c < w.Total() { Last(w.f.accumulate, false, c) }

  function Address(w: GoodRun, c: int): int requires 0 <= c < w.Total() {
    0x8000_0000 + Head(w, c) * DIM + (if w.f.accumulate[c] then 0x4000_0000 else 0)
  }

  lemma HeadStep(w: GoodRun, c: int)
    requires 0 < c < w.Total()
    ensures if w.f.accumulate[c] then Head(w, c) == Head(w, c - 1) else Head(w, c) == c
  {}

  /** Chains that end before c keep clear of the head of c. */
  lemma HeadsApart(w: GoodRun, j: int, c: int)
    requires 0 <= j < c < w.Total() && !w.f.accumulate[j + 1]
    ensures Head(w, j) <= j < Head(w, c)
  {}

  lemma HeadFits(w: GoodRun, c: int)
    requires 0 <= c < w.Total() && w.FitsMemories()
    ensures Fits(Head(w, c), ACC_ROWS)
  {
    SmallerFits(Head(w, c), w.Total() - 1, ACC_ROWS);
  }

  lemma AddressIs(w: GoodRun, c: int)
    requires 0 <= c < w.Total() && w.FitsMemories()
    ensures var a := Address(w, c);
      && IsAcc(a) && RowOf(a) == Head(w, c) * DIM && (Accumulates(a) <==> w.f.accumulate[c]) && !FullWidth(a)
      && 0 <= RowOf(a) && RowOf(a) + DIM <= ACC_ROWS && a != GARBAGE_ADDR
      && ClearAccumulate(a) == 0x8000_0000 + Head(w, c) * DIM
  {
    HeadFits(w, c);
    MulLe(0, Head(w, c), DIM);
    Distribute(Head(w, c), 1, DIM);
    AccAddress(if w.f.accumulate[c] then 6 else 4, Head(w, c) * DIM);
    hide IsAcc, RowOf, Accumulates, FullWidth, Run.Ok, Head;
  }

  /** The backward search of the source. */
  method SearchLast(s: seq<bool>, want: bool, c: int) returns (k: int)
    requires 0 <= c < |s| && s[0] == want
    ensures k == Last(s, want, c)
  {
    k := c;
    while s[k] != want
      invariant 0 <= k <= c && Last(s, want, c) == Last(s, want, k)
      decreases k
    {
      k := k - 1;
    }
  }

  /** C_addrs: every computation its own block, then the chains redirected to their heads. */
  method Addresses(w: GoodRun) returns (addrs: array<int>)
    ensures fresh(addrs) && addrs.Length == w.Total()
    ensures forall c :: 0 <= c < w.Total() ==> addrs[c] == Address(w, c)
  {
    var n := w.Total();
    addrs := new int[n];
    for c := 0 to n
      invariant forall i :: 0 <= i < c ==> addrs[i] == 0x8000_0000 + i * DIM
    {
      addrs[c] := 0x8000_0000 + c * DIM;
    }
    for c := 0 to n
      invariant forall i :: 0 <= i < c ==> addrs[i] == Address(w, i)
      invariant forall i :: c <= i < n ==> addrs[i] == 0x8000_0000 + i * DIM
    {
      var last := SearchLast(w.f.accumulate, false, c);
      if c != last {
        assert addrs[last] == Address(w, last) && Head(w, last) == last;
        addrs[c] := addrs[last] + 0x4000_0000;
      }
      assert addrs[c] == Address(w, c);
    }
  }

  // ---------- the products ----------

  ghost predicate WeightsAre(m: Mem, f: Matrix) {
    forall r, c :: 0 <= r < DIM && 0 <= c < DIM ==> Cell(m, r, c) == f(r, c)
  }

  /** Computations below n are done: each finished chain, and the one in progress, is in the
      accumulator block of its head. */
  ghost predicate AccTo(m: Mem, w: GoodRun, d: Dram, n: int)
    requires n <= w.Total()
  {
    forall j :: 0 <= j < n && (j == n - 1 || !w.f.accumulate[j + 1]) ==> BlockIs(m, Head(w, j), Full(w, d, j))
  }

  /** One computation's write extends the invariant. */
  lemma AccStep(m: Mem, w: GoodRun, d: Dram, c: int, v: Matrix)
    requires 0 <= c < w.Total() && w.FitsMemories() && AccTo(m, w, d, c)
    requires forall r, k :: 0 <= r < DIM && 0 <= k < DIM ==> v(r, k) == Single(w, d, c)(r, k)
    ensures AccTo(BlockWrite(m, ACC_ROWS, Head(w, c) * DIM, DIM, DIM, DIM, w.f.accumulate[c], v), w, d, c + 1)
  {
    var m' := BlockWrite(m, ACC_ROWS, Head(w, c) * DIM, DIM, DIM, DIM, w.f.accumulate[c], v);
    HeadFits(w, c);
    var before := if w.f.accumulate[c] then Full(w, d, c - 1) else v;
    if w.f.accumulate[c] {
      HeadStep(w, c);
      assert BlockIs(m, Head(w, c - 1), Full(w, d, c - 1));
    }
    BlockWritten(m, ACC_ROWS, Head(w, c), w.f.accumulate[c], v, before, Full(w, d, c));
    forall j | 0 <= j < c + 1 && (j == c || !w.f.accumulate[j + 1]) ensures BlockIs(m', Head(w, j), Full(w, d, j)) {
      if j < c {
        HeadsApart(w, j, c);
        HeadFits(w, j);
        hide Run.Ok, Full, BlockWrite, BlockIs, OnlyBlock, Fits, Head;
        BlockKept(m, m', ACC_ROWS, Head(w, c), Head(w, j), Full(w, d, j));
      }
    }
  }

  /** What the commands of computation c put into the array. */
  lemma ArrayResult(spad: Mem, weights: Mem, ex: ExConfig, w: GoodRun, d: Dram, c: int, o: Operands, r: int, k: int)
    requires 0 <= c < w.Total() && w.FitsMemories() && LoadedTo(spad, d, w.x, 3 * w.x.N)
             && WeightsAre(weights, Weights(w, d, c))
    requires o == OperandsOf(w, c) && 0 <= r < DIM && 0 <= k < DIM && ex.Upright()
    ensures Cell(WsArray(spad, weights, ex, o), r, k) == Single(w, d, c)(r, k)
  {
    AFetched(spad, w, d, c);
    AddendFetched(spad, w, d, c, r, k);
    hide LoadedTo, Run.Ok, Run.FitsMemories, OperandsOf, InDram, Weights, Fetch, Addend, OperandA;
    MacEq(Fetch(spad, o.a, DIM, DIM), Operand(weights, 0, DIM, DIM), InDram(d, w.x.A, OperandA(w.x.N, c)),
          Weights(w, d, c), r, k);
  }

  lemma AFetched(spad: Mem, w: GoodRun, d: Dram, c: int)
    requires 0 <= c < w.Total() && w.FitsMemories() && LoadedTo(spad, d, w.x, 3 * w.x.N)
    ensures var o := OperandsOf(w, c);
      && o.aRows == o.aCols == o.bdRows == o.bdCols == DIM && 0 <= o.a && o.a + DIM <= SPAD_ROWS
      && forall i, j :: 0 <= i < DIM && 0 <= j < DIM ==>
           Fetch(spad, o.a, DIM, DIM)(i, j) == InDram(d, w.x.A, OperandA(w.x.N, c))(i, j)
  {
    OperandRange(w.x.N, c);
    hide LoadedTo, InDram, Fetch, OperandA, OperandB, OperandD;
    OperandFetched(spad, w.x, d, OperandA(w.x.N, c));
  }

  lemma AddendFetched(spad: Mem, w: GoodRun, d: Dram, c: int, r: int, k: int)
    requires 0 <= c < w.Total() && w.FitsMemories() && LoadedTo(spad, d, w.x, 3 * w.x.N) && 0 <= r < DIM && 0 <= k < DIM
    ensures var bd := OperandsOf(w, c).bd;
      && Fetch(spad, bd, DIM, DIM)(r, k) == Addend(w, d, c)(r, k)
      && (bd == GARBAGE_ADDR || (0 <= bd && bd + DIM <= SPAD_ROWS))
  {
    OperandRange(w.x.N, c);
    var dd := OperandD(w.x.N, c);
    Distribute(2 * w.x.N, dd, DIM);
    if !w.f.zeros[c] {
      assert OperandOf(d, w.x, 2 * w.x.N + dd) == InDram(d, w.x.D, dd);
      hide LoadedTo, InDram, OperandA, OperandB, OperandD, Fetch, OperandOf;
      OperandFetched(spad, w.x, d, 2 * w.x.N + dd);
    }
  }

  /** A and the optional D of computation c. */
  function OperandsOf(w: GoodRun, c: int): Operands requires 0 <= c < w.Total() {
    Operands(OperandA(w.x.N, c) * DIM,
             if w.f.zeros[c] then GARBAGE_ADDR else 2 * w.x.N * DIM + OperandD(w.x.N, c) * DIM, DIM, DIM, DIM, DIM)
  }

  /** Preloading B replaces the weights; preloading zeros keeps the last ones. */
  lemma WeightsStep(spad: Mem, weights: Mem, ex: ExConfig, w: GoodRun, d: Dram, c: int, pre: PreloadRegs)
    requires 0 <= c < w.Total() && w.FitsMemories() && LoadedTo(spad, d, w.x, 3 * w.x.N) && Shape(weights, DIM)
    requires pre.bd == WeightAddress(w, c) && pre.bdRows == DIM && pre.bdCols == DIM && ex.Upright()
    requires c > 0 ==> WeightsAre(weights, Weights(w, d, c - 1))
    ensures WeightsAre(WsWeights(spad, weights, ex, pre, w.f.preload[c]), Weights(w, d, c))
    ensures w.f.preload[c] ==> 0 <= pre.bd && pre.bd + DIM <= SPAD_ROWS
  {
    var b := OperandB(w.x.N, c);
    OperandRange(w.x.N, c);
    Distribute(w.x.N, b, DIM);
    if w.f.preload[c] {
      assert Last(w.f.preload, true, c) == c;
      assert OperandOf(d, w.x, w.x.N + b) == InDram(d, w.x.B, b);
      hide LoadedTo, InDram, OperandA, OperandB, OperandD, Fetch, OperandOf, Last;
      OperandFetched(spad, w.x, d, w.x.N + b);
    } else {
      assert Last(w.f.preload, true, c) == Last(w.f.preload, true, c - 1);
    }
  }

  function WeightAddress(w: GoodRun, c: int): int requires 0 <= c < w.Total() {
    if w.f.preload[c] then w.x.N * DIM + OperandB(w.x.N, c) * DIM else GARBAGE_ADDR
  }

  /** The state before computation n. */
  ghost predicate At(g: Gemmini, w: GoodRun, d: Dram, n: int)
    reads g
    requires n <= w.Total()
  {
    && g.Valid() && g.dram == d && g.stStride == DIM
    && g.ex == ExConfig(WEIGHT_STATIONARY, w.x.act, 0, w.scale, w.x.relu6Shift, false, false)
    && LoadedTo(g.spad, d, w.x, 3 * w.x.N)
    && (n > 0 ==> WeightsAre(g.weights, Weights(w, d, n - 1)))
    && AccTo(g.acc, w, d, n)
  }

  function PreloadOf(w: GoodRun, c: int): PreloadRegs requires 0 <= c < w.Total() {
    PreloadRegs(WeightAddress(w, c), DIM, DIM, Address(w, c), DIM, DIM)
  }

  /** Addresses a computation's commands may use. */
  predicate Addressable(w: GoodRun, c: int) requires 0 <= c < w.Total() {
    var o, bd, a := OperandsOf(w, c), WeightAddress(w, c), Address(w, c);
    && 0 <= o.a && o.a + DIM <= SPAD_ROWS && (o.bd == GARBAGE_ADDR || (0 <= o.bd && o.bd + DIM <= SPAD_ROWS))
    && (w.f.preload[c] ==> 0 <= bd && bd + DIM <= SPAD_ROWS)
    && IsAcc(a) && 0 <= RowOf(a) && RowOf(a) + DIM <= ACC_ROWS && a != GARBAGE_ADDR
  }

  /** A preload followed by a compute, all operands DIM x DIM. */
  method Commands(g: Gemmini, preloaded: bool, bd: int, caddr: int, a: int, d: int)
    requires g.Valid() && g.ex.dataflow == WEIGHT_STATIONARY && g.ex.Upright()
    requires 0 <= a && a + DIM <= SPAD_ROWS && (d == GARBAGE_ADDR || (0 <= d && d + DIM <= SPAD_ROWS))
    requires preloaded ==> 0 <= bd && bd + DIM <= SPAD_ROWS
    requires IsAcc(caddr) && 0 <= RowOf(caddr) && RowOf(caddr) + DIM <= ACC_ROWS && caddr != GARBAGE_ADDR
    modifies g`pre, g`spad, g`acc, g`pe, g`weights
    ensures g.Valid() && g.spad == old(g.spad)
    ensures var pre, o := PreloadRegs(bd, DIM, DIM, caddr, DIM, DIM), Operands(a, d, DIM, DIM, DIM, DIM);
      && g.weights == WsWeights(old(g.spad), old(g.weights), g.ex, pre, preloaded)
      && g.pe == WsArray(old(g.spad), g.weights, g.ex, o)
      && g.acc == WriteOut(old(g.acc), ACC_ROWS, g.pe, g.ex, pre)
  {
    hide IsAcc, RowOf, WsWeights, WsArray, WriteOut, Shape;
    g.Preload(bd, caddr, DIM, DIM, DIM, DIM);
    g.Compute(preloaded, Operands(a, d, DIM, DIM, DIM, DIM));
  }

  /** The commands of computation c carry out computation c. */
  method Step(g: Gemmini, w: GoodRun, c: int, caddr: int, ghost d: Dram)
    requires 0 <= c < w.Total() && w.FitsMemories() && At(g, w, d, c) && caddr == Address(w, c)
    modifies g`pre, g`spad, g`acc, g`pe, g`weights
    ensures At(g, w, d, c + 1)
  {
    ghost var spad, weights, m := g.spad, g.weights, g.acc;
    AllAddressable(w, c, spad, d);
    hide LoadedTo, AccTo, WeightsAre, Weights, WsWeights, WsArray, WriteOut, Address, Run.FitsMemories, Head,
         OperandA, OperandB, OperandD, IsAcc, RowOf, Shape;
    WeightsStep(spad, weights, g.ex, w, d, c, PreloadOf(w, c));
    var dAddr := 2 * w.x.N * DIM + OperandD(w.x.N, c) * DIM;
    if w.f.zeros[c] {
      dAddr := GARBAGE_ADDR;
    }
    if !w.f.preload[c] {
      Commands(g, false, GARBAGE_ADDR, caddr, OperandA(w.x.N, c) * DIM, dAddr);
    } else {
      Commands(g, true, w.x.N * DIM + OperandB(w.x.N, c) * DIM, caddr, OperandA(w.x.N, c) * DIM, dAddr);
    }
    Computed(w, d, c, spad, g.weights, m, g.pe, g.acc, g.ex, PreloadOf(w, c));
  }

  lemma AllAddressable(w: GoodRun, c: int, spad: Mem, d: Dram)
    requires 0 <= c < w.Total() && w.FitsMemories() && LoadedTo(spad, d, w.x, 3 * w.x.N)
    ensures Addressable(w, c)
  {
    AddressIs(w, c);
    AFetched(spad, w, d, c);
    AddendFetched(spad, w, d, c, 0, 0);
    if w.f.preload[c] {
      OperandRange(w.x.N, c);
      Distribute(w.x.N, OperandB(w.x.N, c), DIM);
      hide OperandA, OperandB, OperandD, LoadedTo, Fetch;
      OperandFetched(spad, w.x, d, w.x.N + OperandB(w.x.N, c));
    }
    hide IsAcc, RowOf, Accumulates, FullWidth, Address, OperandsOf, LoadedTo;
  }

  lemma Computed(w: GoodRun, d: Dram, c: int, spad: Mem, weights: Mem, m: Mem, pe: Mem, m': Mem, ex: ExConfig,
                 pre: PreloadRegs)
    requires 0 <= c < w.Total() && w.FitsMemories() && LoadedTo(spad, d, w.x, 3 * w.x.N)
             && WeightsAre(weights, Weights(w, d, c))
    requires AccTo(m, w, d, c) && Shape(m, ACC_ROWS) && ex.sysShift == 0 && ex.Upright()
    requires pre.c == Address(w, c) && pre.cRows == DIM && pre.cCols == DIM
    requires pe == WsArray(spad, weights, ex, OperandsOf(w, c)) && m' == WriteOut(m, ACC_ROWS, pe, ex, pre)
    ensures AccTo(m', w, d, c + 1)
  {
    AddressIs(w, c);
    hide LoadedTo, AccTo, WeightsAre, Weights, OperandsOf, IsAcc, RowOf, Accumulates, FullWidth, WsArray, Address,
         Run.Ok, Run.FitsMemories, Head, BlockWrite, Single;
    forall r, k | 0 <= r < DIM && 0 <= k < DIM ensures OutFn(pe, ex, pre.c)(r, k) == Single(w, d, c)(r, k) {
      ArrayResult(spad, weights, ex, w, d, c, OperandsOf(w, c), r, k);
    }
    AccStep(m, w, d, c, OutFn(pe, ex, pre.c));
  }

  // ---------- the results ----------

  /** When all computations are done, the head of a chain that ends at c holds gold_full[c], and its
      mvout stores gold[c]. */
  lemma MvoutIsGold(m: Mem, w: GoodRun, d: Dram, ex: ExConfig, c: int, r: int, k: int)
    requires 0 <= c < w.Total() && w.FitsMemories() && Outputs(w)(c) && AccTo(m, w, d, w.Total())
    requires ex.act == w.x.act && ex.accScale == w.scale && ex.relu6Shift == w.x.relu6Shift && 0 <= r < DIM
             && 0 <= k < DIM
    ensures StoreFn(m, ex, 0x8000_0000 + Head(w, c) * DIM)(r, k) == Gold(w, d)(c)(r, k)
  {
    HeadAddress(w, c);
    ChainValue(m, w, d, c, r, k);
    hide IsAcc, RowOf, FullWidth, Head, Run.Ok, AccTo, FullVal, StoreFn, Activate, GoldActivate, Clip;
    StoredElement(m, ex, 0x8000_0000 + Head(w, c) * DIM, r, k);
    GoldActivateIs(Clip(w.scale(FullVal(w, d, c, r, k))), w.x.act, w.x.relu6Shift);
  }

  lemma ChainValue(m: Mem, w: GoodRun, d: Dram, c: int, r: int, k: int)
    requires 0 <= c < w.Total() && Outputs(w)(c) && AccTo(m, w, d, w.Total()) && 0 <= r < DIM && 0 <= k < DIM
    ensures Cell(m, Head(w, c) * DIM + r, k) == FullVal(w, d, c, r, k)
  {
    assert BlockIs(m, Head(w, c), Full(w, d, c));
    hide AccTo, Head, FullVal, Run.Ok;
    assert BlockVal(m, Head(w, c), r, k) == Full(w, d, c)(r, k);
  }

  lemma HeadAddress(w: GoodRun, c: int)
    requires 0 <= c < w.Total() && w.FitsMemories()
    ensures var a := 0x8000_0000 + Head(w, c) * DIM;
      IsAcc(a) && RowOf(a) == Head(w, c) * DIM && !FullWidth(a) && 0 <= RowOf(a) && RowOf(a) + DIM <= ACC_ROWS
  {
    HeadFits(w, c);
    MulLe(0, Head(w, c), DIM);
    Distribute(Head(w, c), 1, DIM);
    AccAddress(4, Head(w, c) * DIM);
    hide IsAcc, RowOf, FullWidth, Run.Ok, Head;
  }

  /** One round of the mvout loop. */
  method StoreResult(g: Gemmini, w: GoodRun, c: int, caddr: int, ghost d: Dram)
    requires 0 <= c < w.Total() && w.FitsMemories() && g.Valid() && g.stStride == DIM && ArrayIn(d, w.x.C, w.Total())
    requires g.ex.act == w.x.act && g.ex.accScale == w.scale && g.ex.relu6Shift == w.x.relu6Shift
    requires AccTo(g.acc, w, d, w.Total()) && caddr == Address(w, c)
    requires StoredTo(d, g.dram, w.x.C, Gold(w, d), Outputs(w), c, w.Total())
    modifies g`dram
    ensures g.Valid() && StoredTo(d, g.dram, w.x.C, Gold(w, d), Outputs(w), c + 1, w.Total())
  {
    var noOutput := c < w.Total() - 1 && w.f.accumulate[c + 1];
    assert noOutput == !Outputs(w)(c);
    if noOutput {
      StoredSkip(d, g.dram, w.x.C, Gold(w, d), Outputs(w), c, w.Total());
    } else {
      AddressIs(w, c);
      HeadAddress(w, c);
      hide StoredTo, Gold, AccTo, Address, Head, IsAcc, RowOf, FullWidth, Accumulates, ClearAccumulate, StoreFn,
           ArrayIn, Run.Ok;
      forall r, k | 0 <= r < DIM && 0 <= k < DIM
        ensures StoreFn(g.acc, g.ex, ClearAccumulate(caddr))(r, k) == Gold(w, d)(c)(r, k)
      {
        MvoutIsGold(g.acc, w, d, g.ex, c, r, k);
      }
      MvoutMatrix(g, w.x, ClearAccumulate(caddr), c, d, Gold(w, d), Outputs(w), w.Total());
    }
  }

  /** One round of matmul_ws: for every choice of the flags, each stored result is its gold. */
  method RunTest(g: Gemmini, w: GoodRun)
    requires g.Valid() && w.FitsMemories() && OperandsIn(g.dram, w.x) && ArrayIn(g.dram, w.x.C, w.Total())
    modifies g
    ensures g.Valid() && StoredTo(old(g.dram), g.dram, w.x.C, Gold(w, old(g.dram)), Outputs(w), w.Total(), w.Total())
  {
    ghost var d := g.dram;
    g.ConfigLd(DIM * SIZEOF_ELEM, Identity(), false, DIM, 0);
    g.ConfigSt(DIM * SIZEOF_ELEM);
    var addrs := Addresses(w);
    MvinOperands(g, w.x);
    g.ConfigEx(WEIGHT_STATIONARY, w.x.act, 0, w.scale, w.x.relu6Shift, false, false);
    NothingAccumulated(g.acc, w, d);
    hide LoadedTo, AccTo, StoredTo, Run.FitsMemories, Address, ArrayIn;
    Products(g, w, addrs[..], d);
    StoreResults(g, w, addrs[..], d);
  }

  /** The command loop. */
  method Products(g: Gemmini, w: GoodRun, addrs: seq<int>, ghost d: Dram)
    requires w.FitsMemories() && At(g, w, d, 0)
    requires |addrs| == w.Total() && forall c :: 0 <= c < w.Total() ==> addrs[c] == Address(w, c)
    modifies g`pre, g`spad, g`acc, g`pe, g`weights
    ensures At(g, w, d, w.Total())
  {
    hide At, Run.FitsMemories, Address;
    for c := 0 to w.Total()
      invariant At(g, w, d, c)
    {
      Step(g, w, c, addrs[c], d);
    }
  }

  /** The mvout loop. */
  method StoreResults(g: Gemmini, w: GoodRun, addrs: seq<int>, ghost d: Dram)
    requires w.FitsMemories() && At(g, w, d, w.Total()) && ArrayIn(d, w.x.C, w.Total())
    requires |addrs| == w.Total() && forall c :: 0 <= c < w.Total() ==> addrs[c] == Address(w, c)
    modifies g`dram
    ensures g.Valid() && StoredTo(d, g.dram, w.x.C, Gold(w, d), Outputs(w), w.Total(), w.Total())
  {
    NothingStored(d, w);
    hide AccTo, StoredTo, Run.FitsMemories, Address, ArrayIn, LoadedTo, WeightsAre, Run.Ok;
    for c := 0 to w.Total()
      invariant g.Valid() && StoredTo(d, g.dram, w.x.C, Gold(w, d), Outputs(w), c, w.Total())
    {
      StoreResult(g, w, c, addrs[c], d);
    }
  }

  lemma NothingAccumulated(m: Mem, w: GoodRun, d: Dram)
    ensures AccTo(m, w, d, 0)
  {}

  lemma NothingStored(d: Dram, w: GoodRun)
    ensures StoredTo(d, d, w.x.C, Gold(w, d), Outputs(w), 0, w.Total())
  {}

  // ---------- the gold beside it ----------

  /** One pass of the gold loop. */
  method GoldMatrix(w: GoodRun, d: Dram, c: int, before: Mem) returns (full: Mem)
    requires 0 <= c < w.Total()
    requires c > 0 ==> forall r, k :: 0 <= r < DIM && 0 <= k < DIM ==> Cell(before, r, k) == FullVal(w, d, c - 1, r, k)
    ensures forall r, k :: 0 <= r < DIM && 0 <= k < DIM ==> Cell(full, r, k) == FullVal(w, d, c, r, k)
  {
    var last := SearchLast(w.f.preload, true, c);
    var b := InDram(d, w.x.B, OperandB(w.x.N, last));
    var addend := Addend(w, d, c);
    full := Matmul(InDram(d, w.x.A, OperandA(w.x.N, c)), b, addend);
    SinglesAre(w, d, c, full);
    if w.f.accumulate[c] {
      var single := full;
      hide Single;
      full := Elementwise((r, k) => Cell(before, r, k) + Cell(single, r, k));
    }
  }

  lemma SinglesAre(w: GoodRun, d: Dram, c: int, m: Mem)
    requires 0 <= c < w.Total()
    requires forall r, k :: 0 <= r < DIM && 0 <= k < DIM ==>
      Cell(m, r, k) == Addend(w, d, c)(r, k) + Mac(InDram(d, w.x.A, OperandA(w.x.N, c)), Weights(w, d, c), r, k)
    ensures forall r, k :: 0 <= r < DIM && 0 <= k < DIM ==> Cell(m, r, k) == Single(w, d, c)(r, k)
  {}

  /** gold_full as the test computes it. */
  method ComputeGold(w: GoodRun, d: Dram) returns (full: seq<Mem>)
    ensures |full| == w.Total()
    ensures forall c, r, k :: 0 <= c < w.Total() && 0 <= r < DIM && 0 <= k < DIM ==>
              Cell(full[c], r, k) == FullVal(w, d, c, r, k)
  {
    full := [];
    var before: Mem := [];
    for c := 0 to w.Total()
      invariant |full| == c && (c > 0 ==> before == full[c - 1])
      invariant forall i, r, k :: 0 <= i < c && 0 <= r < DIM && 0 <= k < DIM ==>
                  Cell(full[i], r, k) == FullVal(w, d, i, r, k)
    {
      hide FullVal;
      before := GoldMatrix(w, d, c, before);
      full := full + [before];
    }
  }

  /** gold: every gold_full matrix narrowed and activated. */
  method FinishGold(w: GoodRun, d: Dram) returns (golds: seq<Mem>)
    ensures |golds| == w.Total() && forall c :: 0 <= c < w.Total() ==> Shape(golds[c], DIM)
    ensures forall c, r, k :: 0 <= c < w.Total() && 0 <= r < DIM && 0 <= k < DIM ==>
              Cell(golds[c], r, k) == Gold(w, d)(c)(r, k)
  {
    var full := ComputeGold(w, d);
    golds := [];
    hide FullVal, Cell, Shape, GoldActivate, Clip;
    for c := 0 to w.Total()
      invariant |golds| == c && forall i :: 0 <= i < c ==> Shape(golds[i], DIM)
      invariant forall i, r, k :: 0 <= i < c && 0 <= r < DIM && 0 <= k < DIM ==>
                  Cell(golds[i], r, k) == Gold(w, d)(i)(r, k)
    {
      var gold := Finish(full[c], w.scale, w.x.act, w.x.relu6Shift);
      golds := golds + [gold];
    }
  }

  /** One round of the program: the gold, the run and the comparison, which never finds a difference. */
  method Round(g: Gemmini, w: GoodRun) returns (failed: bool)
    requires g.Valid() && w.FitsMemories() && OperandsIn(g.dram, w.x) && ArrayIn(g.dram, w.x.C, w.Total())
    modifies g
    ensures g.Valid() && !failed
  {
    ghost var d := g.dram;
    var golds := FinishGold(w, g.dram);
    hide Gold, Cell, ArrayIn, OperandsIn, Shape, Run.FitsMemories, ElemAddr, MatrixAt, InResults;
    RunTest(g, w);
    ResultsKept(d, g.dram, w.x.C, w.Total());
    failed := AnyWrong(g.dram, w.x.C, golds, Outputs(w));
  }
}
