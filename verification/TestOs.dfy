/** matmul_os.c: output-stationary products that either start from a preloaded matrix (D or zeros) or
    go on from what the array holds, against the gold computed beside it. */
module TestOs {
  import opened Accelerator
  import opened Arith
  import opened Config
  import opened LocalMemory
  import opened Quantize
  import opened Sums
  import opened TestBench

  datatype Run = Run(x: Bench, preload: seq<bool>, zeros: seq<bool>, shift: nat) {
    function Total(): int { x.N * x.N * x.N }
    predicate Ok() { x.Ok() && Total() >= 1 && |preload| == Total() && |zeros| == Total() && preload[0] }
    /** Operands and results fit the scratchpad. */
    predicate FitsMemory() { TestBench.Fits(3 * x.N + Total() - 1, SPAD_ROWS) }
  }

  type GoodRun = w: Run | w.Ok() witness Run(Bench(1, 1, 1, 1, 1, 0, 0), [true], [false], 0)

  // ---------- gold ----------

  /** What computation c is added to, if not to the previous result. */
  function Start(w: GoodRun, d: Dram, c: int): Matrix requires 0 <= c < w.Total() {
    if w.zeros[c] then (r, k) => 0 else InDram(d, w.x.D, OperandD(w.x.N, c))
  }

  function Product(w: GoodRun, d: Dram, c: int): Matrix requires 0 <= c < w.Total() {
    (r, k) => Mac(InDram(d, w.x.A, OperandA(w.x.N, c)), InDram(d, w.x.B, OperandB(w.x.N, c)), r, k)
  }

  function FullVal(w: GoodRun, d: Dram, c: int, r: int, k: int): int
    requires 0 <= c < w.Total()
  {
    (if w.preload[c] then Start(w, d, c)(r, k) else FullVal(w, d, c - 1, r, k)) + Product(w, d, c)(r, k)
  }

  /** gold[c] */
  function Gold(w: GoodRun, d: Dram): int -> Matrix {
    c => (r, k) => if 0 <= c < w.Total() then GoldElement(w, FullVal(w, d, c, r, k)) else 0
  }

  function GoldElement(w: GoodRun, x: int): int {
    GoldActivate(Clip(RoundingRightShift(x, w.shift)), w.x.act, w.x.relu6Shift)
  }

  /** !no_output[c] */
  function Outputs(w: GoodRun): int -> bool { c => 0 <= c < w.Total() && (c == w.Total() - 1 || w.preload[c + 1]) }

  /** The round tries every combination of an A, a B and a D, each in one of its computations. */
  lemma EveryCombination(w: GoodRun, a: int, b: int, d: int)
    requires 0 <= a < w.x.N && 0 <= b < w.x.N && 0 <= d < w.x.N
    ensures exists c :: 0 <= c < w.Total() && OperandA(w.x.N, c) == a && OperandB(w.x.N, c) == b
                        && OperandD(w.x.N, c) == d
  {
    EveryTriple(w.x.N, a, b, d, (a * w.x.N + b) * w.x.N + d);
    hide OperandA, OperandB, OperandD;
  }

  /** Head of the chain computation c belongs to. */
  ghost function Head(w: GoodRun, c: int): int requires 0 <= c < w.Total() { Last(w.preload, true, c) }

  /** What is stored are the results of the last computation of each chain. */
  lemma OutputsAre(w: GoodRun, c: int)
    requires 0 <= c < w.Total()
    ensures Outputs(w)(c) <==> forall j :: c < j < w.Total() ==> Head(w, j) != Head(w, c)
  {
    if c + 1 < w.Total() && !w.preload[c + 1] {
      assert Head(w, c + 1) == Head(w, c);
    }
  }

  // ---------- the products ----------

  ghost predicate HoldsFull(pe: Mem, w: GoodRun, d: Dram, c: int) requires 0 <= c < w.Total() {
    forall r, k :: 0 <= r < DIM && 0 <= k < DIM ==> Cell(pe, r, k) == FullVal(w, d, c, r, k)
  }

  /** The results below n that are to be stored are in their scratchpad blocks. */
  ghost predicate ResultsTo(m: Mem, w: GoodRun, d: Dram, n: int) {
    forall j :: 0 <= j < n && Outputs(w)(j) ==> BlockIs(m, 3 * w.x.N + j, Gold(w, d)(j))
  }

  /** The state before computation n. */
  ghost predicate At(g: Gemmini, w: GoodRun, d: Dram, n: int)
    reads g
    requires n <= w.Total()
  {
    && g.Valid() && g.dram == d && g.stStride == DIM
    && g.ex.dataflow == OUTPUT_STATIONARY && g.ex.act == w.x.act && g.ex.sysShift == w.shift
       && g.ex.relu6Shift == w.x.relu6Shift && g.ex.Upright()
    && LoadedTo(g.spad, d, w.x, 3 * w.x.N)
    && (n > 0 ==> HoldsFull(g.pe, w, d, n - 1))
    && ResultsTo(g.spad, w, d, n)
  }

  function AAddress(w: GoodRun, c: int): int { OperandA(w.x.N, c) * DIM }
  function BAddress(w: GoodRun, c: int): int { w.x.N * DIM + OperandB(w.x.N, c) * DIM }
  function StartAddress(w: GoodRun, c: int): int requires 0 <= c < w.Total() {
    if !w.preload[c] || w.zeros[c] then GARBAGE_ADDR else 2 * w.x.N * DIM + OperandD(w.x.N, c) * DIM
  }

  lemma SpadFits(w: GoodRun)
    requires w.FitsMemory()
    ensures w.x.FitsSpad()
  {
    SmallerFits(3 * w.x.N - 1, 3 * w.x.N + w.Total() - 1, SPAD_ROWS);
  }

  lemma FactorsFetched(spad: Mem, w: GoodRun, d: Dram, c: int)
    requires 0 <= c < w.Total() && w.FitsMemory() && LoadedTo(spad, d, w.x, 3 * w.x.N)
    ensures 0 <= AAddress(w, c) && AAddress(w, c) + DIM <= SPAD_ROWS && 0 <= BAddress(w, c)
            && BAddress(w, c) + DIM <= SPAD_ROWS
    ensures forall i, j :: 0 <= i < DIM && 0 <= j < DIM ==>
      && Fetch(spad, AAddress(w, c), DIM, DIM)(i, j) == InDram(d, w.x.A, OperandA(w.x.N, c))(i, j)
      && Fetch(spad, BAddress(w, c), DIM, DIM)(i, j) == InDram(d, w.x.B, OperandB(w.x.N, c))(i, j)
  {
    SpadFits(w);
    OperandRange(w.x.N, c);
    var b := OperandB(w.x.N, c);
    Distribute(w.x.N, b, DIM);
    assert OperandOf(d, w.x, w.x.N + b) == InDram(d, w.x.B, b);
    assert OperandOf(d, w.x, OperandA(w.x.N, c)) == InDram(d, w.x.A, OperandA(w.x.N, c));
    hide LoadedTo, InDram, Fetch, OperandA, OperandB, OperandD, OperandOf, Run.Ok, Run.FitsMemory,
         Bench.FitsSpad;
    OperandFetched(spad, w.x, d, OperandA(w.x.N, c));
    OperandFetched(spad, w.x, d, w.x.N + b);
  }

  lemma StartFetched(spad: Mem, w: GoodRun, d: Dram, c: int)
    requires 0 <= c < w.Total() && w.FitsMemory() && LoadedTo(spad, d, w.x, 3 * w.x.N) && w.preload[c]
    ensures var a := StartAddress(w, c); a == GARBAGE_ADDR || (0 <= a && a + DIM <= SPAD_ROWS)
    ensures forall r, k :: 0 <= r < DIM && 0 <= k < DIM ==>
              Fetch(spad, StartAddress(w, c), DIM, DIM)(r, k) == Start(w, d, c)(r, k)
  {
    SpadFits(w);
    OperandRange(w.x.N, c);
    var dd := OperandD(w.x.N, c);
    Distribute(2 * w.x.N, dd, DIM);
    if !w.zeros[c] {
      assert OperandOf(d, w.x, 2 * w.x.N + dd) == InDram(d, w.x.D, dd);
      hide LoadedTo, InDram, OperandA, OperandB, OperandD, Fetch, OperandOf, Run.FitsMemory, Bench.FitsSpad;
      OperandFetched(spad, w.x, d, 2 * w.x.N + dd);
    }
  }

  /** What the commands of computation c leave in the array. */
  lemma ArrayResult(spad: Mem, pe: Mem, ex: ExConfig, w: GoodRun, d: Dram, c: int, pre: PreloadRegs)
    requires 0 <= c < w.Total() && w.FitsMemory() && LoadedTo(spad, d, w.x, 3 * w.x.N)
             && (c > 0 ==> HoldsFull(pe, w, d, c - 1))
    requires pre.bd == StartAddress(w, c) && pre.bdRows == DIM && pre.bdCols == DIM && ex.Upright()
    ensures HoldsFull(OsArray(spad, pe, ex, pre, w.preload[c],
                              Operands(AAddress(w, c), BAddress(w, c), DIM, DIM, DIM, DIM)), w, d, c)
  {
    FactorsFetched(spad, w, d, c);
    if w.preload[c] { StartFetched(spad, w, d, c); }
    forall r, k | 0 <= r < DIM && 0 <= k < DIM
      ensures Cell(OsArray(spad, pe, ex, pre, w.preload[c],
                           Operands(AAddress(w, c), BAddress(w, c), DIM, DIM, DIM, DIM)), r, k)
           == FullVal(w, d, c, r, k)
    {
      hide LoadedTo, Run.Ok, Run.FitsMemory, AAddress, BAddress, StartAddress, InDram, Fetch, OperandA, OperandB,
           OperandD, Start, Mac;
      MacEq(Fetch(spad, AAddress(w, c), DIM, DIM), Fetch(spad, BAddress(w, c), DIM, DIM),
            InDram(d, w.x.A, OperandA(w.x.N, c)), InDram(d, w.x.B, OperandB(w.x.N, c)), r, k);
    }
  }

  /** Destination of computation c. */
  function Destination(w: GoodRun, c: int): int requires 0 <= c < w.Total() {
    if Outputs(w)(c) then 3 * w.x.N * DIM + c * DIM else GARBAGE_ADDR
  }

  lemma DestinationIs(w: GoodRun, c: int)
    requires 0 <= c < w.Total() && w.FitsMemory()
    ensures TestBench.Fits(3 * w.x.N + c, SPAD_ROWS)
    ensures var a := 3 * w.x.N * DIM + c * DIM;
      && a == (3 * w.x.N + c) * DIM && !IsAcc(a) && RowOf(a) == a && 0 <= a && a + DIM <= SPAD_ROWS && a != GARBAGE_ADDR
  {
    SmallerFits(3 * w.x.N + c, 3 * w.x.N + w.Total() - 1, SPAD_ROWS);
    Distribute(3 * w.x.N, c, DIM);
    MulLe(0, 3 * w.x.N + c, DIM);
    Distribute(3 * w.x.N + c, 1, DIM);
    hide Run.Ok, Run.FitsMemory;
    SpadAddress((3 * w.x.N + c) * DIM);
  }

  /** Writing result block c leaves the operands. */
  lemma OperandsStay(m: Mem, m': Mem, w: GoodRun, d: Dram, c: int)
    requires 0 <= c < w.Total() && w.FitsMemory() && LoadedTo(m, d, w.x, 3 * w.x.N)
    requires OnlyBlock(m, m', SPAD_ROWS, 3 * w.x.N + c)
    ensures LoadedTo(m', d, w.x, 3 * w.x.N)
  {
    hide Run.Total, TestBench.Fits, OperandOf, BlockIs, OnlyBlock;
    forall j | 0 <= j < 3 * w.x.N ensures BlockIs(m', j, OperandOf(d, w.x, j)) {
      SmallerFits(j, 3 * w.x.N + w.Total() - 1, SPAD_ROWS);
      BlockKept(m, m', SPAD_ROWS, 3 * w.x.N + c, j, OperandOf(d, w.x, j));
    }
  }

  /** Writing result block c leaves the earlier results. */
  lemma ResultsStay(m: Mem, m': Mem, w: GoodRun, d: Dram, c: int)
    requires 0 <= c < w.Total() && w.FitsMemory() && ResultsTo(m, w, d, c) && OnlyBlock(m, m', SPAD_ROWS, 3 * w.x.N + c)
    requires BlockIs(m', 3 * w.x.N + c, Gold(w, d)(c))
    ensures ResultsTo(m', w, d, c + 1)
  {
    hide Run.Total, TestBench.Fits, Gold, BlockIs, OnlyBlock;
    forall j | 0 <= j < c + 1 && Outputs(w)(j) ensures BlockIs(m', 3 * w.x.N + j, Gold(w, d)(j)) {
      SmallerFits(3 * w.x.N + j, 3 * w.x.N + w.Total() - 1, SPAD_ROWS);
      if j < c {
        BlockKept(m, m', SPAD_ROWS, 3 * w.x.N + c, 3 * w.x.N + j, Gold(w, d)(j));
      }
    }
  }

  /** Writing result c touches neither the operands nor earlier results. */
  lemma ResultWritten(m: Mem, w: GoodRun, d: Dram, c: int, v: Matrix)
    requires 0 <= c < w.Total() && w.FitsMemory() && LoadedTo(m, d, w.x, 3 * w.x.N) && ResultsTo(m, w, d, c)
    requires forall r, k :: 0 <= r < DIM && 0 <= k < DIM ==> v(r, k) == Gold(w, d)(c)(r, k)
    ensures var m' := BlockWrite(m, SPAD_ROWS, (3 * w.x.N + c) * DIM, DIM, DIM, DIM, false, v);
      LoadedTo(m', d, w.x, 3 * w.x.N) && ResultsTo(m', w, d, c + 1)
  {
    var m' := BlockWrite(m, SPAD_ROWS, (3 * w.x.N + c) * DIM, DIM, DIM, DIM, false, v);
    DestinationIs(w, c);
    hide BlockWrite, Gold, BlockIs, OnlyBlock, TestBench.Fits, Run.FitsMemory, RowOf, IsAcc, LoadedTo, ResultsTo,
         Run.Ok;
    BlockWritten(m, SPAD_ROWS, 3 * w.x.N + c, false, v, v, Gold(w, d)(c));
    OperandsStay(m, m', w, d, c);
    ResultsStay(m, m', w, d, c);
  }

  /** A preload followed by a compute, all operands DIM x DIM. */
  method Commands(g: Gemmini, preloaded: bool, bd: int, caddr: int, a: int, b: int)
    requires g.Valid() && g.ex.dataflow == OUTPUT_STATIONARY && g.ex.Upright()
    requires 0 <= a && a + DIM <= SPAD_ROWS && 0 <= b && b + DIM <= SPAD_ROWS
    requires preloaded ==> bd == GARBAGE_ADDR || (0 <= bd && bd + DIM <= SPAD_ROWS)
    requires caddr == GARBAGE_ADDR || (!IsAcc(caddr) && 0 <= RowOf(caddr) && RowOf(caddr) + DIM <= SPAD_ROWS)
    modifies g`pre, g`spad, g`acc, g`pe, g`weights
    ensures g.Valid()
    ensures var pre, o := PreloadRegs(bd, DIM, DIM, caddr, DIM, DIM), Operands(a, b, DIM, DIM, DIM, DIM);
      && g.pe == OsArray(old(g.spad), old(g.pe), g.ex, pre, preloaded, o)
      && g.spad == if caddr == GARBAGE_ADDR then old(g.spad) else WriteOut(old(g.spad), SPAD_ROWS, g.pe, g.ex, pre)
  {
    hide IsAcc, RowOf, OsArray, WriteOut, Shape;
    g.Preload(bd, caddr, DIM, DIM, DIM, DIM);
    g.Compute(preloaded, Operands(a, b, DIM, DIM, DIM, DIM));
  }

  /** What goes to the scratchpad is the gold result. */
  lemma LeavesGold(pe: Mem, w: GoodRun, d: Dram, c: int, ex: ExConfig, addr: int, r: int, k: int)
    requires 0 <= c < w.Total() && HoldsFull(pe, w, d, c) && !IsAcc(addr) && 0 <= r < DIM && 0 <= k < DIM
    requires ex.act == w.x.act && ex.sysShift == w.shift && ex.relu6Shift == w.x.relu6Shift
    ensures OutFn(pe, ex, addr)(r, k) == Gold(w, d)(c)(r, k)
  {
    hide FullVal, RoundingRightShift, Activate, GoldActivate, Clip, IsAcc, Run.Ok;
    GoldActivateIs(Clip(RoundingRightShift(FullVal(w, d, c, r, k), w.shift)), w.x.act, w.x.relu6Shift);
  }

  /** The write-out of a result block. */
  lemma WriteOutIs(m: Mem, pe: Mem, w: GoodRun, c: int, ex: ExConfig, pre: PreloadRegs)
    requires 0 <= c < w.Total() && w.FitsMemory() && Shape(m, SPAD_ROWS)
    requires pre.c == 3 * w.x.N * DIM + c * DIM && pre.cRows == DIM && pre.cCols == DIM
    ensures !IsAcc(pre.c) && pre.c != GARBAGE_ADDR
    ensures WriteOut(m, SPAD_ROWS, pe, ex, pre)
         == BlockWrite(m, SPAD_ROWS, (3 * w.x.N + c) * DIM, DIM, DIM, DIM, false, OutFn(pe, ex, pre.c))
  {
    DestinationIs(w, c);
    hide BlockWrite, OutFn, RowOf, IsAcc, Shape, Run.Ok, Run.FitsMemory, TestBench.Fits;
  }

  lemma ComputedResult(m: Mem, pe: Mem, w: GoodRun, d: Dram, c: int, ex: ExConfig, addr: int)
    requires 0 <= c < w.Total() && w.FitsMemory() && LoadedTo(m, d, w.x, 3 * w.x.N) && ResultsTo(m, w, d, c)
             && !IsAcc(addr)
    requires HoldsFull(pe, w, d, c) && ex.act == w.x.act && ex.sysShift == w.shift && ex.relu6Shift == w.x.relu6Shift
    ensures var m' := BlockWrite(m, SPAD_ROWS, (3 * w.x.N + c) * DIM, DIM, DIM, DIM, false, OutFn(pe, ex, addr));
      LoadedTo(m', d, w.x, 3 * w.x.N) && ResultsTo(m', w, d, c + 1)
  {
    hide Run.FitsMemory, LoadedTo, ResultsTo, HoldsFull, Gold, BlockWrite, OutFn, IsAcc, Run.Ok, Run.Total;
    forall r, k | 0 <= r < DIM && 0 <= k < DIM ensures OutFn(pe, ex, addr)(r, k) == Gold(w, d)(c)(r, k) {
      LeavesGold(pe, w, d, c, ex, addr, r, k);
    }
    ResultWritten(m, w, d, c, OutFn(pe, ex, addr));
  }

  lemma SkippedResult(m: Mem, w: GoodRun, d: Dram, c: int)
    requires 0 <= c < w.Total() && ResultsTo(m, w, d, c) && !Outputs(w)(c)
    ensures ResultsTo(m, w, d, c + 1)
  {}

  function PreloadOf(w: GoodRun, c: int): PreloadRegs requires 0 <= c < w.Total() {
    PreloadRegs(StartAddress(w, c), DIM, DIM, Destination(w, c), DIM, DIM)
  }

  function OperandsOf(w: GoodRun, c: int): Operands { Operands(AAddress(w, c), BAddress(w, c), DIM, DIM, DIM, DIM) }

  /** The three ways a computation can start. */
  method Issue(g: Gemmini, w: GoodRun, c: int, outAddr: int)
    requires 0 <= c < w.Total() && g.Valid() && g.ex.dataflow == OUTPUT_STATIONARY && g.ex.Upright()
    requires outAddr == Destination(w, c)
    requires 0 <= AAddress(w, c) && AAddress(w, c) + DIM <= SPAD_ROWS && 0 <= BAddress(w, c)
             && BAddress(w, c) + DIM <= SPAD_ROWS
    requires w.preload[c] ==>
               StartAddress(w, c) == GARBAGE_ADDR || (0 <= StartAddress(w, c) && StartAddress(w, c) + DIM <= SPAD_ROWS)
    requires outAddr == GARBAGE_ADDR || (!IsAcc(outAddr) && 0 <= RowOf(outAddr) && RowOf(outAddr) + DIM <= SPAD_ROWS)
    modifies g`pre, g`spad, g`acc, g`pe, g`weights
    ensures g.Valid()
    ensures g.pe == OsArray(old(g.spad), old(g.pe), g.ex, PreloadOf(w, c), w.preload[c], OperandsOf(w, c))
    ensures g.spad == if outAddr == GARBAGE_ADDR then old(g.spad) else WriteOut(old(g.spad), SPAD_ROWS, g.pe, g.ex,
              PreloadOf(w, c))
  {
    hide IsAcc, RowOf, OsArray, WriteOut, Shape, OperandA, OperandB, OperandD, Destination, Run.Total;
    var a, b := AAddress(w, c), BAddress(w, c);
    if !w.preload[c] {
      Commands(g, false, GARBAGE_ADDR, outAddr, a, b);
    } else if w.zeros[c] {
      Commands(g, true, GARBAGE_ADDR, outAddr, a, b);
    } else {
      Commands(g, true, StartAddress(w, c), outAddr, a, b);
    }
  }

  method OutAddress(w: GoodRun, c: int) returns (outAddr: int)
    requires 0 <= c < w.Total()
    ensures outAddr == Destination(w, c)
  {
    outAddr := 3 * w.x.N * DIM + c * DIM;
    var noOutput := c < w.Total() - 1 && !w.preload[c + 1];
    if noOutput {
      outAddr := GARBAGE_ADDR;
    }
  }

  /** The commands of computation c carry out computation c. */
  method Step(g: Gemmini, w: GoodRun, c: int, ghost d: Dram)
    requires 0 <= c < w.Total() && w.FitsMemory() && At(g, w, d, c)
    modifies g`pre, g`spad, g`acc, g`pe, g`weights
    ensures At(g, w, d, c + 1)
  {
    hide Destination, Run.Total, Run.Ok, LoadedTo, ResultsTo, HoldsFull, OsArray, WriteOut, Run.FitsMemory, IsAcc,
         RowOf, AAddress, BAddress, StartAddress, Shape;
    ghost var spad, pe := g.spad, g.pe;
    assert Shape(spad, SPAD_ROWS);
    hide Gemmini.Valid;
    var outAddr := OutAddress(w, c);
    StepReady(w, c, spad, d);
    ArrayResult(spad, pe, g.ex, w, d, c, PreloadOf(w, c));
    Issue(g, w, c, outAddr);
    SpadAfter(spad, g.spad, g.pe, w, d, c, g.ex);
  }

  /** The scratchpad after computation c. */
  lemma SpadAfter(m: Mem, m': Mem, pe: Mem, w: GoodRun, d: Dram, c: int, ex: ExConfig)
    requires 0 <= c < w.Total() && w.FitsMemory() && LoadedTo(m, d, w.x, 3 * w.x.N) && ResultsTo(m, w, d, c)
             && Shape(m, SPAD_ROWS)
    requires HoldsFull(pe, w, d, c) && ex.act == w.x.act && ex.sysShift == w.shift && ex.relu6Shift == w.x.relu6Shift
    requires m' == if Destination(w, c) == GARBAGE_ADDR then m else WriteOut(m, SPAD_ROWS, pe, ex, PreloadOf(w, c))
    ensures LoadedTo(m', d, w.x, 3 * w.x.N) && ResultsTo(m', w, d, c + 1)
  {
    hide Run.Total, Run.FitsMemory, LoadedTo, ResultsTo, HoldsFull, WriteOut, IsAcc, StartAddress, BlockWrite;
    if Outputs(w)(c) {
      WriteOutIs(m, pe, w, c, ex, PreloadOf(w, c));
      ComputedResult(m, pe, w, d, c, ex, Destination(w, c));
    } else {
      SkippedResult(m, w, d, c);
    }
  }

  lemma StepReady(w: GoodRun, c: int, spad: Mem, d: Dram)
    requires 0 <= c < w.Total() && w.FitsMemory() && LoadedTo(spad, d, w.x, 3 * w.x.N)
    ensures 0 <= AAddress(w, c) && AAddress(w, c) + DIM <= SPAD_ROWS && 0 <= BAddress(w, c)
            && BAddress(w, c) + DIM <= SPAD_ROWS
    ensures w.preload[c] ==>
              StartAddress(w, c) == GARBAGE_ADDR || (0 <= StartAddress(w, c) && StartAddress(w, c) + DIM <= SPAD_ROWS)
    ensures var a := Destination(w, c); a == GARBAGE_ADDR || (!IsAcc(a) && 0 <= RowOf(a) && RowOf(a) + DIM <= SPAD_ROWS)
  {
    FactorsFetched(spad, w, d, c);
    DestinationIs(w, c);
    if w.preload[c] { StartFetched(spad, w, d, c); }
    hide LoadedTo, AAddress, BAddress, StartAddress, IsAcc, RowOf, Fetch, InDram, Run.FitsMemory;
  }

  // ---------- the results ----------

  lemma StoredBlock(m: Mem, w: GoodRun, d: Dram, ex: ExConfig, c: int, r: int, k: int)
    requires 0 <= c < w.Total() && w.FitsMemory() && Outputs(w)(c) && ResultsTo(m, w, d, w.Total()) && 0 <= r < DIM
             && 0 <= k < DIM
    ensures StoreFn(m, ex, 3 * w.x.N * DIM + c * DIM)(r, k) == Gold(w, d)(c)(r, k)
  {
    hide Gold, Run.Ok, Run.FitsMemory, IsAcc, RowOf, Run.Total, FullWidth;
    DestinationIs(w, c);
    ResultAt(m, w, d, c, r, k);
    hide ResultsTo;
    DivUnique(k, DIM, 0);
  }

  lemma ResultAt(m: Mem, w: GoodRun, d: Dram, c: int, r: int, k: int)
    requires 0 <= c < w.Total() && Outputs(w)(c) && ResultsTo(m, w, d, w.Total()) && 0 <= r < DIM && 0 <= k < DIM
    ensures BlockVal(m, 3 * w.x.N + c, r, k) == Gold(w, d)(c)(r, k)
  {
    hide Gold, Run.Ok, Run.Total;
    assert BlockIs(m, 3 * w.x.N + c, Gold(w, d)(c));
  }

  method StoreResult(g: Gemmini, w: GoodRun, c: int, ghost d: Dram)
    requires 0 <= c < w.Total() && w.FitsMemory() && g.Valid() && g.stStride == DIM && ArrayIn(d, w.x.C, w.Total())
    requires ResultsTo(g.spad, w, d, w.Total())
    requires StoredTo(d, g.dram, w.x.C, Gold(w, d), Outputs(w), c, w.Total())
    modifies g`dram
    ensures g.Valid() && StoredTo(d, g.dram, w.x.C, Gold(w, d), Outputs(w), c + 1, w.Total())
  {
    var noOutput := c < w.Total() - 1 && !w.preload[c + 1];
    assert noOutput == !Outputs(w)(c);
    if noOutput {
      StoredSkip(d, g.dram, w.x.C, Gold(w, d), Outputs(w), c, w.Total());
    } else {
      var addr := 3 * w.x.N * DIM + c * DIM;
      DestinationIs(w, c);
      assert StoreSize(addr) == SIZEOF_ELEM;
      hide StoredTo, Gold, ResultsTo, IsAcc, RowOf, StoreFn, ArrayIn, Run.Ok, Run.FitsMemory, StoreSize;
      forall r, k | 0 <= r < DIM && 0 <= k < DIM ensures StoreFn(g.spad, g.ex, addr)(r, k) == Gold(w, d)(c)(r, k) {
        StoredBlock(g.spad, w, d, g.ex, c, r, k);
      }
      MvoutMatrix(g, w.x, addr, c, d, Gold(w, d), Outputs(w), w.Total());
    }
  }

  /** The command loop. */
  method Products(g: Gemmini, w: GoodRun, ghost d: Dram)
    requires w.FitsMemory() && At(g, w, d, 0)
    modifies g`pre, g`spad, g`acc, g`pe, g`weights
    ensures At(g, w, d, w.Total())
  {
    hide At, Run.FitsMemory;
    for c := 0 to w.Total()
      invariant At(g, w, d, c)
    {
      Step(g, w, c, d);
    }
  }

  /** The mvout loop. */
  method StoreResults(g: Gemmini, w: GoodRun, ghost d: Dram)
    requires w.FitsMemory() && At(g, w, d, w.Total()) && ArrayIn(d, w.x.C, w.Total())
    modifies g`dram
    ensures g.Valid() && StoredTo(d, g.dram, w.x.C, Gold(w, d), Outputs(w), w.Total(), w.Total())
  {
    NothingStored(d, w);
    assert w.Total() >= 1;
    hide ResultsTo, StoredTo, Run.FitsMemory, ArrayIn, LoadedTo, HoldsFull, Run.Ok;
    for c := 0 to w.Total()
      invariant g.Valid() && StoredTo(d, g.dram, w.x.C, Gold(w, d), Outputs(w), c, w.Total())
    {
      StoreResult(g, w, c, d);
    }
  }

  lemma NothingStored(d: Dram, w: GoodRun)
    ensures StoredTo(d, d, w.x.C, Gold(w, d), Outputs(w), 0, w.Total())
  {}

  lemma NoResults(m: Mem, w: GoodRun, d: Dram)
    ensures ResultsTo(m, w, d, 0)
  {}

  /** One round of matmul_os: for every choice of the flags, each stored result is its gold. */
  method RunTest(g: Gemmini, w: GoodRun)
    requires g.Valid() && w.FitsMemory() && OperandsIn(g.dram, w.x) && ArrayIn(g.dram, w.x.C, w.Total())
    modifies g
    ensures g.Valid() && StoredTo(old(g.dram), g.dram, w.x.C, Gold(w, old(g.dram)), Outputs(w), w.Total(), w.Total())
  {
    ghost var d := g.dram;
    g.ConfigLd(DIM * SIZEOF_ELEM, Identity(), false, DIM, 0);
    g.ConfigSt(DIM * SIZEOF_ELEM);
    SmallerFits(3 * w.x.N - 1, 3 * w.x.N + w.Total() - 1, SPAD_ROWS);
    MvinOperands(g, w.x);
    g.ConfigEx(OUTPUT_STATIONARY, w.x.act, w.shift, Zero(), w.x.relu6Shift, false, false);
    NoResults(g.spad, w, d);
    hide LoadedTo, ResultsTo, StoredTo, Run.FitsMemory, ArrayIn;
    Products(g, w, d);
    StoreResults(g, w, d);
  }

  function Zero(): Scale { x => 0 }

  // ---------- the gold beside it ----------

  /** One pass of the gold loop. */
  method GoldMatrix(w: GoodRun, d: Dram, c: int, before: Mem) returns (full: Mem)
    requires 0 <= c < w.Total() && (c > 0 ==> HoldsFull(before, w, d, c - 1))
    ensures HoldsFull(full, w, d, c)
  {
    var a, b := InDram(d, w.x.A, OperandA(w.x.N, c)), InDram(d, w.x.B, OperandB(w.x.N, c));
    hide Mac, InDram, OperandA, OperandB, OperandD;
    if !w.preload[c] {
      full := Matmul(a, b, (r, k) => Cell(before, r, k));
    } else if w.zeros[c] {
      full := Matmul(a, b, (r, k) => 0);
    } else {
      full := Matmul(a, b, InDram(d, w.x.D, OperandD(w.x.N, c)));
    }
  }

  /** gold_full as the test computes it. */
  method ComputeGold(w: GoodRun, d: Dram) returns (full: seq<Mem>)
    ensures |full| == w.Total() && forall c :: 0 <= c < w.Total() ==> HoldsFull(full[c], w, d, c)
  {
    full := [];
    var before: Mem := [];
    for c := 0 to w.Total()
      invariant |full| == c && (c > 0 ==> before == full[c - 1])
      invariant forall i :: 0 <= i < c ==> HoldsFull(full[i], w, d, i)
    {
      hide HoldsFull;
      before := GoldMatrix(w, d, c, before);
      full := full + [before];
    }
  }

  /** gold: every gold_full matrix narrowed and activated. */
  method FinishGold(w: GoodRun, d: Dram) returns (golds: seq<Mem>)
    ensures |golds| == w.Total() && forall c :: 0 <= c < w.Total() ==> Shape(golds[c], DIM)
    ensures forall c, r, k :: 0 <= c < w.Total() && 0 <= r < DIM && 0 <= k < DIM ==>
              Cell(golds[c], r, k) == Gold(w, d)(c)(r, k)
  {
    var full := ComputeGold(w, d);
    golds := [];
    hide FullVal, Cell, Shape, GoldActivate, Clip, RoundingRightShift;
    for c := 0 to w.Total()
      invariant |golds| == c && forall i :: 0 <= i < c ==> Shape(golds[i], DIM)
      invariant forall i, r, k :: 0 <= i < c && 0 <= r < DIM && 0 <= k < DIM ==>
                  Cell(golds[i], r, k) == Gold(w, d)(i)(r, k)
    {
      var gold := Finish(full[c], x => RoundingRightShift(x, w.shift), w.x.act, w.x.relu6Shift);
      golds := golds + [gold];
    }
  }

  /** One round of the program: the gold, the run and the comparison, which never finds a difference. */
  method Round(g: Gemmini, w: GoodRun) returns (failed: bool)
    requires g.Valid() && w.FitsMemory() && OperandsIn(g.dram, w.x) && ArrayIn(g.dram, w.x.C, w.Total())
    modifies g
    ensures g.Valid() && !failed
  {
    ghost var d := g.dram;
    var golds := FinishGold(w, g.dram);
    hide Gold, Cell, ArrayIn, OperandsIn, Shape, Run.FitsMemory, ElemAddr, MatrixAt, InResults;
    RunTest(g, w);
    ResultsKept(d, g.dram, w.x.C, w.Total());
    failed := AnyWrong(g.dram, w.x.C, golds, Outputs(w));
  }
}
