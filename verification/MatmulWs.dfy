/** sp_tiled_matmul_ws: one tile of a weight-stationary multiply, as the stream of commands that the
    hardware loop it starts stands for. Moves, products and stores are interleaved. */
module MatmulWs {
  import opened Accelerator
  import opened Arith
  import opened Config
  import opened LocalMemory
  import opened MatmulTile
  import opened Quantize
  import opened Sums
  import opened Transfers

  // ---------- operands that arrive in runs of blocks ----------

  /** Blocks of a row of n that are there once the run holding block b - 1 is. */
  function Up(b: int, run: int, n: int): int
    requires run > 0
  {
    Min(n, CeilDiv(b, run) * run)
  }

  lemma UpStep(b: int, run: int, n: int)
    requires run > 0 && 0 <= b < n
    ensures Up(b + 1, run, n) == if b % run == 0 then (if b + run <= n then b + run else n) else Up(b, run, n)
    ensures b % run == 0 ==> Up(b, run, n) == b
    ensures b < Up(b + 1, run, n) <= n
  {
    var q := b / run;
    DivMul(b, run);
    CeilDivUnique(b + 1, run, q + 1);
    CeilDivUnique(b, run, if b % run == 0 then q else q + 1);
    assert (q + 1) * run == q * run + run;
    hide CeilDiv;
  }

  lemma UpEnds(run: int, n: int)
    requires run > 0 && n > 0
    ensures Up(0, run, n) == 0 && Up(n, run, n) == n
  {
    CeilDivUnique(0, run, 0);
  }

  /** A or B as the loops bring it in: H x W blocks, at most `run` of a row at a time. The loops
      over `major` and `minor` block indices run along the rows (rowwise) or down the columns. */
  datatype Panel = Panel(p: int, stride: int, scale: Scale, base: int, H: int, W: int, padR: int, padC: int,
                               run: int, rowwise: bool)
  {
    function V(): View { View(base, H, W) }
    function R(): int { H * DIM - padR }
    function C(): int { W * DIM - padC }
    function Vals(d: Dram): (int, int) -> int { Scaled(d, p, stride, scale) }
    function Majors(): int { if rowwise then H else W }
    function Minors(): int { if rowwise then W else H }

    ghost predicate Ok() {
      && p > 0 && stride >= 0 && 0 < H && 0 < W && 0 <= padR < DIM && 0 <= padC < DIM
      && 0 < run <= MAX_BLOCK_LEN && Fits(V(), SPAD_ROWS)
    }
  }

  /** Cells in place before block (major, minor) is needed. */
  function Stage(x: Panel, major: int, minor: int): (int, int) -> bool
    requires x.run > 0
  {
    if x.rowwise then RowMajor(major, Up(minor, x.run, x.W))
    else Columns(Up(major, x.run, x.W), Up(major + 1, x.run, x.W), minor)
  }

  /** The first u0 block columns, and of those up to u1 the first i block rows. */
  function Columns(u0: int, u1: int, i: int): (int, int) -> bool {
    (row, col) => col < u0 * DIM || (row < i * DIM && col < u1 * DIM)
  }

  /** What is in place is only extended by the run that starts here, if one does. */
  lemma StageStep(x: Panel, major: int, minor: int, a: int, b: int, r: int, c: int)
    requires x.Ok() && 0 <= major < x.Majors() && 0 <= minor < x.Minors() && 0 <= r && 0 <= c
    requires (a, b) == if x.rowwise then (major, minor) else (minor, major)
    requires Stage(x, major, minor + 1)(r, c)
    ensures Stage(x, major, minor)(r, c)
         || (a * DIM <= r < (a + 1) * DIM && Up(b, x.run, x.W) * DIM <= c < Up(b + 1, x.run, x.W) * DIM)
  {
    hide Up;
    Distribute(minor, 1, DIM);
    MulLe(0, a, DIM);
  }

  lemma StageNext(x: Panel, major: int, r: int, c: int)
    requires x.Ok() && 0 <= major < x.Majors() && 0 <= r < x.R() && 0 <= c < x.C()
    requires Stage(x, major + 1, 0)(r, c)
    ensures Stage(x, major, x.Minors())(r, c)
  {
    UpEnds(x.run, x.W);
    hide Up;
  }

  lemma StageEnds(x: Panel, r: int, c: int)
    requires x.Ok() && 0 <= r < x.R() && 0 <= c < x.C()
    ensures !Stage(x, 0, 0)(r, c) && Stage(x, x.Majors(), 0)(r, c)
  {
    UpEnds(x.run, x.W);
    hide Up;
  }

  lemma StageCovers(x: Panel, major: int, minor: int, rows: int, cols: int)
    requires x.Ok() && 0 <= major < x.Majors() && 0 <= minor < x.Minors() && rows <= DIM && cols <= DIM
    ensures if x.rowwise then Covers(Stage(x, major, minor + 1), major, minor, rows, cols)
            else Covers(Stage(x, major, minor + 1), minor, major, rows, cols)
  {
    var b := if x.rowwise then minor else major;
    UpStep(b, x.run, x.W);
    MulLe(b + 1, Up(b + 1, x.run, x.W), DIM);
    Distribute(b, 1, DIM);
    Distribute(major, 1, DIM);
    Distribute(minor, 1, DIM);
    hide Up;
  }

  ghost predicate Loaded(m: Mem, d: Dram, x: Panel, done: (int, int) -> bool) {
    Filled(m, x.V(), x.Vals(d), x.R(), x.C(), done)
  }

  /** d still holds the operand as d0 did. */
  ghost predicate Intact(d0: Dram, d: Dram, x: Panel) {
    forall r, c :: 0 <= r < x.R() && 0 <= c < x.C() ==>
      var a := ElemAddr(x.p, x.stride * SIZEOF_ELEM, SIZEOF_ELEM, r, c); a in d && Get(d, a) == Get(d0, a)
  }

  ghost predicate Channel(g: Gemmini, x: Panel, id: nat)
    reads g
  {
    id < 3 && |g.ld| == 3 && g.ld[id] == LoadConfig(x.stride * SIZEOF_ELEM, x.scale, false, DIM)
  }

  /** One mvin of a run of blocks: block row a from block b on. */
  method MvinRun(g: Gemmini, id: nat, x: Panel, a: int, b: int, blocks: int, ghost w: View, ghost d0: Dram,
                 ghost done: (int, int) -> bool, ghost done': (int, int) -> bool)
    requires g.Valid() && Channel(g, x, id) && x.Ok() && Intact(d0, g.dram, x)
    requires 0 <= a < x.H && 0 <= b && 0 < blocks <= x.run && b + blocks <= x.W
    requires Fits(w, SPAD_ROWS) && Apart(x.V(), w) && Loaded(g.spad, d0, x, done)
    requires forall r, c :: 0 <= r < x.R() && 0 <= c < x.C() && done'(r, c) ==>
               done(r, c) || (a * DIM <= r < (a + 1) * DIM && b * DIM <= c < (b + blocks) * DIM)
    modifies g`spad, g`acc
    ensures g.Valid() && g.acc == old(g.acc) && Same(old(g.spad), g.spad, w)
    ensures Loaded(g.spad, d0, x, done')
  {
    var q := x.p + (a * x.stride + b) * DIM;
    var addr := x.base + (a * x.W + b) * DIM;
    var cols := blocks * DIM - (if b + blocks >= x.W then x.padC else 0);
    var rows := DIM - (if a == x.H - 1 then x.padR else 0);
    BlockInView(x.V(), SPAD_ROWS, a, b);
    SpadAddress(addr);
    BlockPointer(x.p, x.stride, SIZEOF_ELEM, a, b);
    Positive(x.p, x.stride * SIZEOF_ELEM, SIZEOF_ELEM, a, b);
    RunEnd(x.W, x.padC, b, blocks);
    RunEnd(x.H, x.padR, a, 1);
    MvinFill(g, id, q, addr, cols, rows, x.p, x.V(), w, a, b, blocks, x.Vals(d0), x.R(), x.C(), done, done');
  }

  /** The move-in that belongs to block (major, minor), issued if a run starts there. */
  method MvinStage(g: Gemmini, id: nat, x: Panel, major: int, minor: int, ghost w: View, ghost d0: Dram)
    requires g.Valid() && Channel(g, x, id) && x.Ok() && Intact(d0, g.dram, x)
    requires 0 <= major < x.Majors() && 0 <= minor < x.Minors()
    requires Fits(w, SPAD_ROWS) && Apart(x.V(), w) && Loaded(g.spad, d0, x, Stage(x, major, minor))
    modifies g`spad, g`acc
    ensures g.Valid() && g.acc == old(g.acc) && Same(old(g.spad), g.spad, w)
    ensures Loaded(g.spad, d0, x, Stage(x, major, minor + 1))
  {
    var a, b := if x.rowwise then major else minor, if x.rowwise then minor else major;
    UpStep(b, x.run, x.W);
    forall r, c | 0 <= r < x.R() && 0 <= c < x.C() && Stage(x, major, minor + 1)(r, c)
      ensures Stage(x, major, minor)(r, c)
           || (a * DIM <= r < (a + 1) * DIM && Up(b, x.run, x.W) * DIM <= c < Up(b + 1, x.run, x.W) * DIM)
    {
      StageStep(x, major, minor, a, b, r, c);
    }
    hide Up, Stage, Intact;
    if b % x.run == 0 {
      var blocks := if b + x.run <= x.W then x.run else x.W - b;
      MvinRun(g, id, x, a, b, blocks, w, d0, Stage(x, major, minor), Stage(x, major, minor + 1));
    }
  }

  // ---------- the panels of a tile ----------

  function Run(blocks: int): int { Min(blocks, MAX_BLOCK_LEN) }

  function APanel(t: Tile): Panel {
    if t.transA then Panel(t.A, t.strideA, t.scaleA, 0, t.K, t.I, t.padK, t.padI, Run(t.I), true)
    else Panel(t.A, t.strideA, t.scaleA, 0, t.I, t.K, t.padI, t.padK, Run(t.K), false)
  }

  function BPanel(t: Tile): Panel {
    var base := SPAD_ROWS - t.K * t.J * DIM;
    if t.transB then Panel(t.B, t.strideB, t.scaleB, base, t.J, t.K, t.padJ, t.padK, Run(t.K), true)
    else Panel(t.B, t.strideB, t.scaleB, base, t.K, t.J, t.padK, t.padJ, Run(t.J), false)
  }

  lemma Panels(t: GoodTile)
    ensures APanel(t).Ok() && BPanel(t).Ok() && Apart(APanel(t).V(), BPanel(t).V())
    ensures Apart(BPanel(t).V(), APanel(t).V())
    ensures APanel(t).V() == t.AView() && APanel(t).R() == t.AHeight() && APanel(t).C() == t.AWidth()
    ensures BPanel(t).V() == t.BView() && BPanel(t).R() == t.BHeight() && BPanel(t).C() == t.BWidth()
    ensures APanel(t).Majors() == t.K && APanel(t).Minors() == t.I
    ensures BPanel(t).Majors() == t.J && BPanel(t).Minors() == t.K
    ensures APanel(t).rowwise == t.transA && BPanel(t).rowwise == t.transB
  {
    Regions(t);
  }

  /** Cells of A in place before the step (j, k, i): everything after the first block column of C. */
  function AStage(t: GoodTile, j: int, k: int, i: int): (int, int) -> bool {
    Panels(t);
    if j > 0 then Everywhere() else Stage(APanel(t), k, i)
  }

  /** Cells of B in place once its blocks above row k of block column j are. */
  function BStage(t: GoodTile, j: int, k: int): (int, int) -> bool {
    Panels(t);
    Stage(BPanel(t), j, k)
  }

  lemma AStageCovers(t: GoodTile, j: int, k: int, i: int)
    requires 0 <= k < t.K && 0 <= i < t.I
    ensures ACovered(t, AStage(t, j, k, i + 1), i, k)
  {
    Panels(t);
    if t.transA {
      StageCovers(APanel(t), k, i, BlockDepth(t, k), BlockRows(t, i));
    } else {
      StageCovers(APanel(t), k, i, BlockRows(t, i), BlockDepth(t, k));
    }
    hide Stage, APanel, Panel.Ok;
  }

  lemma BStageCovers(t: GoodTile, j: int, k: int)
    requires 0 <= k < t.K && 0 <= j < t.J
    ensures BCovered(t, BStage(t, j, k + 1), k, j)
  {
    Panels(t);
    if t.transB {
      StageCovers(BPanel(t), j, k, BlockCols(t, j), BlockDepth(t, k));
    } else {
      StageCovers(BPanel(t), j, k, BlockDepth(t, k), BlockCols(t, j));
    }
    hide Stage, BPanel, Panel.Ok;
  }

  // ---------- products ----------

  /** The stationary weights are block (k, j) of B. */
  ghost predicate WeightsAre(weights: Mem, d: Dram, t: Tile, k: int, j: int) {
    forall kk, c :: 0 <= kk < BlockDepth(t, k) && 0 <= c < BlockCols(t, j) ==>
      Cell(weights, kk, c) == BVals(d, t)(k * DIM + kk, j * DIM + c)
  }

  /** Preloading a block of B that is in place. */
  lemma WeightsPreloaded(spad: Mem, weights: Mem, d: Dram, t: GoodTile, done: (int, int) -> bool, k: int, j: int,
                         ex: ExConfig, pre: PreloadRegs)
    requires 0 <= k < t.K && 0 <= j < t.J && Shape(weights, DIM) && ex.transB == t.transB
    requires BLoaded(spad, d, t, done) && BCovered(t, done, k, j)
    requires pre.bd == BSp(t, k, j) && pre.bdRows == BlockDepth(t, k) && pre.bdCols == BlockCols(t, j)
    ensures WeightsAre(WsWeights(spad, weights, ex, pre, true), d, t, k, j)
  {
    BlockExtents(t, 0, j, k);
    hide BLoaded, BCovered, BVals, BlockDepth, BlockCols;
    forall kk, c | 0 <= kk < BlockDepth(t, k) && 0 <= c < BlockCols(t, j)
      ensures Cell(WsWeights(spad, weights, ex, pre, true), kk, c) == BVals(d, t)(k * DIM + kk, j * DIM + c)
    {
      BTermAt(spad, d, t, done, k, j, kk, c);
      hide FetchAs, BSp;
    }
  }

  function OperandsOf(t: Tile, i: int, k: int): Operands {
    Operands(ASp(t, i, k), GARBAGE_ADDR, BlockDepth(t, k), BlockRows(t, i), DIM, DIM)
  }

  /** With the weights in place, the array computes one block's worth of products. */
  lemma ArrayIs(spad: Mem, weights: Mem, d: Dram, t: GoodTile, done: (int, int) -> bool, i: int, j: int, k: int,
                ex: ExConfig)
    requires 0 <= i < t.I && 0 <= j < t.J && 0 <= k < t.K && ex.transA == t.transA
    requires ALoaded(spad, d, t, done) && ACovered(t, done, i, k) && WeightsAre(weights, d, t, k, j)
    ensures forall r, c :: 0 <= r < BlockRows(t, i) && 0 <= c < BlockCols(t, j) ==>
              Cell(WsArray(spad, weights, ex, OperandsOf(t, i, k)), r, c)
                == BlockSum(d, t, k)(i * DIM + r, j * DIM + c)
  {
    BlockExtents(t, i, j, k);
    BlockAddrs(t, i, j, k);
    hide ALoaded, ACovered, BlockRows, BlockCols, BlockDepth, BlockSum, WsArray;
    forall r, c | 0 <= r < BlockRows(t, i) && 0 <= c < BlockCols(t, j)
      ensures Cell(WsArray(spad, weights, ex, OperandsOf(t, i, k)), r, c)
           == BlockSum(d, t, k)(i * DIM + r, j * DIM + c)
    {
      ArrayCell(spad, weights, d, t, done, i, j, k, ex, r, c);
    }
  }

  lemma ArrayCell(spad: Mem, weights: Mem, d: Dram, t: GoodTile, done: (int, int) -> bool, i: int, j: int, k: int,
                  ex: ExConfig, r: int, c: int)
    requires 0 <= i < t.I && 0 <= j < t.J && 0 <= k < t.K && ex.transA == t.transA
    requires ALoaded(spad, d, t, done) && ACovered(t, done, i, k) && WeightsAre(weights, d, t, k, j)
    requires 0 <= r < BlockRows(t, i) <= DIM && 0 <= c < BlockCols(t, j) <= DIM
    ensures Cell(WsArray(spad, weights, ex, OperandsOf(t, i, k)), r, c) == BlockSum(d, t, k)(i * DIM + r, j * DIM + c)
  {
    hide ALoaded, ACovered, AVals, BVals, BlockRows, BlockCols, ASp, BlockSum, Mac;
    BlockExtents(t, i, j, k);
    BlockAddrs(t, i, j, k);
    var a, b := AOperand(spad, t, i, k), Operand(weights, 0, DIM, DIM);
    forall kk | 0 <= kk < BlockDepth(t, k)
      ensures a(r, kk) == AVals(d, t)(i * DIM + r, k * DIM + kk) && b(kk, c) == BVals(d, t)(k * DIM + kk, j * DIM + c)
    {
      ATermAt(spad, d, t, done, i, k, r, kk);
      hide AOperand;
    }
    MacBlock(a, b, d, t, i, j, k, r, c);
  }

  /** The channels and the array are configured for the tile. */
  ghost predicate Ready(g: Gemmini, t: Tile)
    reads g
  {
    && g.Valid() && g.ex.dataflow == WEIGHT_STATIONARY && g.ex.sysShift == 0
    && g.ex.transA == t.transA && g.ex.transB == t.transB
    && g.ld[0] == LoadConfig(t.strideA * SIZEOF_ELEM, t.scaleA, false, DIM)
    && g.ld[1] == LoadConfig(t.strideB * SIZEOF_ELEM, t.scaleB, false, DIM)
    && DChannel(g, t, 2)
  }

  /** preload; compute. The block of B is preloaded for the first block row of A and then kept. */
  method PreloadCompute(g: Gemmini, t: GoodTile, i: int, j: int, k: int, out: int)
    requires Ready(g, t) && 0 <= i < t.I && 0 <= j < t.J && 0 <= k < t.K
    requires IsAcc(out) && out != GARBAGE_ADDR && 0 <= RowOf(out) && RowOf(out) + DIM <= ACC_ROWS
    modifies g`pre, g`spad, g`acc, g`pe, g`weights
    ensures Ready(g, t) && g.spad == old(g.spad)
    ensures var bd := if i == 0 then BSp(t, k, j) else GARBAGE_ADDR;
      var pre := PreloadRegs(bd, BlockCols(t, j), BlockDepth(t, k), out, BlockCols(t, j), BlockRows(t, i));
      && g.weights == WsWeights(old(g.spad), old(g.weights), g.ex, pre, i == 0)
      && g.pe == WsArray(old(g.spad), g.weights, g.ex, OperandsOf(t, i, k))
      && g.acc == WriteOut(old(g.acc), ACC_ROWS, g.pe, g.ex, pre)
  {
    hide BSp, ASp, BlockRows, BlockCols, BlockDepth, IsAcc, RowOf, WriteOut, WsArray, WsWeights, Shape, InSpad;
    BlockAddrs(t, i, j, k);
    OperandRows(t, i, j, k);
    var bd := if i == 0 then BSp(t, k, j) else GARBAGE_ADDR;
    g.Preload(bd, out, BlockCols(t, j), BlockDepth(t, k), BlockCols(t, j), BlockRows(t, i));
    g.Compute(i == 0, OperandsOf(t, i, k));
  }

  /** The operands of a step are in the scratchpad, as they are stored. */
  lemma OperandRows(t: GoodTile, i: int, j: int, k: int)
    requires 0 <= i < t.I && 0 <= j < t.J && 0 <= k < t.K
    ensures InSpad(ASp(t, i, k), BlockRows(t, i), BlockDepth(t, k), t.transA)
    ensures InSpad(BSp(t, k, j), BlockDepth(t, k), BlockCols(t, j), t.transB)
  {
    BlockAddrs(t, i, j, k);
    hide ASp, BSp, BlockRows, BlockCols, BlockDepth;
  }

  /** The products of blocks (i, k) and (k, j) reach the accumulator. */
  method MultiplyBlocks(g: Gemmini, t: GoodTile, i: int, j: int, k: int, ghost d0: Dram,
                        ghost doneA: (int, int) -> bool,
                 ghost doneB: (int, int) -> bool)
    requires Ready(g, t) && 0 <= i < t.I && 0 <= j < t.J && 0 <= k < t.K
    requires ALoaded(g.spad, d0, t, doneA) && ACovered(t, doneA, i, k)
    requires i == 0 ==> BLoaded(g.spad, d0, t, doneB) && BCovered(t, doneB, k, j)
    requires i > 0 ==> WeightsAre(g.weights, d0, t, k, j)
    modifies g`pre, g`spad, g`acc, g`pe, g`weights
    ensures Ready(g, t) && g.spad == old(g.spad) && WeightsAre(g.weights, d0, t, k, j)
    ensures Moved(old(g.acc), g.acc, t.CView(), i, j, BlockRows(t, i), BlockCols(t, j), !(Replaces(t) && k == 0),
                  BlockSum(d0, t, k))
  {
    hide ALoaded, ACovered, BLoaded, BCovered, WeightsAre, BlockRows, BlockCols, BlockDepth, BSp, ASp, CSp, IsAcc,
         RowOf,
         WriteOut, WsArray, Moved, Accumulates, FullWidth, ClearAccumulate, BlockSum;
    var out := CSp(t, i, j);
    var noBiasNewMatrix := t.noBias && t.D != NULL && k == 0;
    if noBiasNewMatrix {
      out := ClearAccumulate(out);
    }
    ghost var replace, spad, weights, acc := Replaces(t) && k == 0, g.spad, g.weights, g.acc;
    assert out == OutAddr(t, replace, i, j);
    hide OutAddr;
    OutAddrFields(t, replace, i, j);
    assert Shape(weights, DIM) && Shape(acc, ACC_ROWS);
    hide Shape;
    PreloadCompute(g, t, i, j, k, out);
    ghost var pre := PreloadRegs(if i == 0 then BSp(t, k, j) else GARBAGE_ADDR, BlockCols(t, j), BlockDepth(t, k), out,
                                 BlockCols(t, j), BlockRows(t, i));
    if i == 0 {
      WeightsPreloaded(spad, weights, d0, t, doneB, k, j, g.ex, pre);
    }
    ArrayIs(spad, g.weights, d0, t, doneA, i, j, k, g.ex);
    WriteOutBlock(acc, g.pe, t, i, j, g.ex, pre, replace, BlockSum(d0, t, k));
  }

  // ---------- the accumulator over the steps ----------

  /** Blocks of the shared dimension already in cell (row, col) before the step (j, k, i). */
  function Passes(t: Tile, j: int, k: int, i: int, row: int, col: int): int {
    if col < j * DIM then t.K
    else if col >= (j + 1) * DIM then 0
    else if row < i * DIM then k + 1
    else k
  }

  /** What cell (row, col) holds after n of them: acc1 is the accumulator once the bias is in. */
  function CellAfter(acc1: Mem, d: Dram, t: Tile, row: int, col: int, n: int): int {
    if n <= 0 then Val(acc1, t.CView(), row, col)
    else (if Replaces(t) then 0 else Val(acc1, t.CView(), row, col)) + Sum(0, KEnd(t, n), TileTerm(d, t, row, col))
  }

  ghost predicate CellsAre(acc1: Mem, acc: Mem, d: Dram, t: Tile, j: int, k: int, i: int) {
    forall row, col :: 0 <= row < t.Rows() && 0 <= col < t.Cols() ==>
      Val(acc, t.CView(), row, col) == CellAfter(acc1, d, t, row, col, Passes(t, j, k, i, row, col))
  }

  lemma PassesStep(t: GoodTile, j: int, k: int, i: int, row: int, col: int)
    requires 0 <= i < t.I && 0 <= j < t.J && 0 <= row < t.Rows() && 0 <= col < t.Cols()
    ensures if Inside(i, j, BlockRows(t, i), BlockCols(t, j), row, col)
            then Passes(t, j, k, i, row, col) == k && Passes(t, j, k, i + 1, row, col) == k + 1
            else Passes(t, j, k, i + 1, row, col) == Passes(t, j, k, i, row, col)
  {
    RunEnd(t.I, t.padI, i, 1);
    RunEnd(t.J, t.padJ, j, 1);
  }

  lemma CellNext(acc1: Mem, d: Dram, t: GoodTile, row: int, col: int, k: int)
    requires 0 <= k < t.K
    ensures (if Replaces(t) && k == 0 then 0 else CellAfter(acc1, d, t, row, col, k)) + BlockSum(d, t, k)(row, col)
         == CellAfter(acc1, d, t, row, col, k + 1)
  {
    hide TileTerm, KEnd, Val;
    KEndSplit(t, k, TileTerm(d, t, row, col));
  }

  lemma CellsStep(acc1: Mem, acc: Mem, acc': Mem, d: Dram, t: GoodTile, j: int, k: int, i: int)
    requires 0 <= i < t.I && 0 <= j < t.J && 0 <= k < t.K && CellsAre(acc1, acc, d, t, j, k, i)
    requires Moved(acc, acc', t.CView(), i, j, BlockRows(t, i), BlockCols(t, j), !(Replaces(t) && k == 0),
                   BlockSum(d, t, k))
    ensures CellsAre(acc1, acc', d, t, j, k, i + 1)
  {
    hide BlockSum, CellAfter, Passes, Inside, BlockRows, BlockCols, Val, Replaces;
    forall row, col | 0 <= row < t.Rows() && 0 <= col < t.Cols()
      ensures Val(acc', t.CView(), row, col) == CellAfter(acc1, d, t, row, col, Passes(t, j, k, i + 1, row, col))
    {
      PassesStep(t, j, k, i, row, col);
      CellNext(acc1, d, t, row, col, k);
    }
  }

  lemma CellsNextK(acc1: Mem, acc: Mem, d: Dram, t: GoodTile, j: int, k: int)
    requires CellsAre(acc1, acc, d, t, j, k, t.I)
    ensures CellsAre(acc1, acc, d, t, j, k + 1, 0)
  {
    hide CellAfter, Val;
  }

  lemma CellsNextJ(acc1: Mem, acc: Mem, d: Dram, t: GoodTile, j: int)
    requires 0 <= j < t.J && CellsAre(acc1, acc, d, t, j, t.K, 0)
    ensures CellsAre(acc1, acc, d, t, j + 1, 0, 0)
  {
    Distribute(j, 1, DIM);
    hide CellAfter, Val;
  }

  lemma CellsStart(acc1: Mem, d: Dram, t: GoodTile)
    ensures CellsAre(acc1, acc1, d, t, 0, 0, 0)
  {
    hide Val;
  }

  // ---------- move-out, C_blocks at a time, as soon as they are finished ----------

  function CBlocks(t: Tile): int { if t.fullC then 1 else Run(t.J) }

  /** Block columns stored before block column j is started on. */
  function Down(t: GoodTile, j: int): int { if j >= t.J then t.J else j / CBlocks(t) * CBlocks(t) }

  predicate Flushes(t: GoodTile, j: int) { j == t.J - 1 || j % CBlocks(t) == CBlocks(t) - 1 }

  lemma DownStep(t: GoodTile, j: int)
    requires 0 <= j < t.J
    ensures 0 <= Down(t, j) <= j && Down(t, 0) == 0
    ensures Down(t, j + 1) == if Flushes(t, j) then j + 1 else Down(t, j)
    ensures Flushes(t, j) ==>
              (if Down(t, j) + CBlocks(t) <= t.J then CBlocks(t) else t.J - Down(t, j)) == j + 1 - Down(t, j)
  {
    assert 0 < CBlocks(t);
    RunStep(j, CBlocks(t));
    DivMul(j, CBlocks(t));
    DivBounds(0, CBlocks(t));
    hide CBlocks;
  }

  lemma RunStep(j: int, cb: int)
    requires 0 <= j && 0 < cb
    ensures 0 <= j / cb * cb <= j
    ensures if j % cb == cb - 1 then (j + 1) / cb * cb == j + 1 && j / cb * cb + cb == j + 1
            else (j + 1) / cb * cb == j / cb * cb && j + 1 < j / cb * cb + cb
  {
    var q := j / cb;
    MulLe(0, q, cb);
    assert (q + 1) * cb == q * cb + cb;
    if j % cb == cb - 1 { DivUnique(j + 1, cb, q + 1); } else { DivUnique(j + 1, cb, q); }
  }

  /** Cells of C stored before the step (j, k, i). */
  function Leave(t: GoodTile, j: int, k: int, i: int): (int, int) -> bool {
    if k >= t.K then Columns(Down(t, j + 1), 0, 0)
    else Columns(Down(t, j), if k == t.K - 1 then Down(t, j + 1) else 0, i)
  }

  lemma LeaveStep(t: GoodTile, j: int, k: int, i: int, row: int, col: int)
    requires 0 <= i < t.I && 0 <= j < t.J && 0 <= k < t.K && 0 <= row < t.Rows() && 0 <= col < t.Cols()
    ensures Leave(t, j, k, i + 1)(row, col) <==>
              Leave(t, j, k, i)(row, col)
              || (k == t.K - 1 && Flushes(t, j) && i * DIM <= row < (i + 1) * DIM
                  && Down(t, j) * DIM <= col < (j + 1) * DIM)
  {
    DownStep(t, j);
    Distribute(i, 1, DIM);
    hide Down, Flushes;
  }

  lemma LeaveNextK(t: GoodTile, j: int, k: int, row: int, col: int)
    requires 0 <= j < t.J && 0 <= k < t.K && 0 <= row < t.Rows() && 0 <= col < t.Cols()
    ensures Leave(t, j, k + 1, 0)(row, col) <==> Leave(t, j, k, t.I)(row, col)
  {
    DownStep(t, j);
    MulLe(Down(t, j), Down(t, j + 1), DIM);
    hide Down, Flushes;
  }

  lemma LeaveNextJ(t: GoodTile, j: int, row: int, col: int)
    requires 0 <= row && 0 <= col
    ensures Leave(t, j + 1, 0, 0)(row, col) <==> Leave(t, j, t.K, 0)(row, col)
  {
    hide Down;
  }

  lemma LeaveEnds(t: GoodTile, row: int, col: int)
    requires 0 <= row < t.Rows() && 0 <= col < t.Cols()
    ensures !Leave(t, 0, 0, 0)(row, col) && Leave(t, t.J, 0, 0)(row, col)
  {
    DownStep(t, 0);
  }

  /** The tile's results as they leave the accumulator. */
  function Finals(acc1: Mem, ex: ExConfig, d: Dram, t: Tile): (int, int) -> int {
    (row, col) =>
      var x := CellAfter(acc1, d, t, row, col, t.K);
      if t.fullC then x else ScaleAndSat(x, ex.act, ex.accScale, ex.relu6Shift)
  }

  ghost predicate StoredAs(d0: Dram, d: Dram, t: Tile, f: (int, int) -> int, done: (int, int) -> bool) {
    Stored(d0, d, t.C, t.strideC * SizeC(t), SizeC(t), t.Rows(), t.Cols(), f, done)
  }

  /** DRAM before the step (j, k, i). */
  ghost predicate DramIs(d0: Dram, d: Dram, t: GoodTile, f: (int, int) -> int, j: int, k: int, i: int) {
    if t.C == NULL then d == d0 else StoredAs(d0, d, t, f, Leave(t, j, k, i))
  }

  lemma StoredSame(d0: Dram, d: Dram, t: Tile, f: (int, int) -> int, done: (int, int) -> bool,
                   done': (int, int) -> bool)
    requires StoredAs(d0, d, t, f, done)
    requires forall row, col :: 0 <= row < t.Rows() && 0 <= col < t.Cols() ==> done(row, col) == done'(row, col)
    ensures StoredAs(d0, d, t, f, done')
  {}

  /** The blocks a flush stores are finished. */
  lemma FlushedValues(acc1: Mem, acc: Mem, ex: ExConfig, d: Dram, t: GoodTile, j: int, i: int, addr: int, rows: int,
                      cols: int)
    requires 0 <= i < t.I && 0 <= j < t.J && CellsAre(acc1, acc, d, t, j, t.K - 1, i + 1)
    requires IsAcc(addr) && (FullWidth(addr) <==> t.fullC)
    requires 0 <= Down(t, j) && i * DIM + rows <= t.Rows() && Down(t, j) * DIM + cols <= t.Cols()
    requires rows <= DIM && Down(t, j) * DIM + cols <= (j + 1) * DIM
    ensures forall row, col :: Inside(i, Down(t, j), rows, cols, row, col) ==>
              Finals(acc1, ex, d, t)(row, col) == Leaving(ex, addr, Val(acc, t.CView(), row, col))
  {
    MulLe(0, i, DIM);
    MulLe(0, Down(t, j), DIM);
    Distribute(i, 1, DIM);
    hide Down, CellAfter, Val, IsAcc, FullWidth, ScaleAndSat;
  }

  /** gemmini_extended_mvout of the finished blocks of block row i. */
  method Flush(g: Gemmini, t: GoodTile, j: int, i: int, ghost d0: Dram, ghost acc1: Mem)
    requires g.Valid() && COk(g.stStride, d0, t) && 0 <= i < t.I && 0 <= j < t.J && Flushes(t, j)
    requires CellsAre(acc1, g.acc, d0, t, j, t.K - 1, i + 1)
    requires StoredAs(d0, g.dram, t, Finals(acc1, g.ex, d0, t), Leave(t, j, t.K - 1, i))
    modifies g`dram
    ensures g.Valid()
    ensures StoredAs(d0, g.dram, t, Finals(acc1, g.ex, d0, t), Leave(t, j, t.K - 1, i + 1))
  {
    var rj := j / CBlocks(t) * CBlocks(t);
    var blocks := if rj + CBlocks(t) <= t.J then CBlocks(t) else t.J - rj;
    var cols := blocks * DIM - (if rj + blocks >= t.J then t.padJ else 0);
    var rows := DIM - (if i == t.I - 1 then t.padI else 0);
    var p := t.C + (i * t.strideC + rj) * DIM * SizeC(t);
    assert 0 < t.K && rj == Down(t, j);
    hide Flushes, Leave, Finals, CellsAre, COk, CSp, IsAcc, RowOf, FullWidth, StoreSize, Leaving, Down, CBlocks,
         InMatrix,
         ElemAddr, Fits;
    FlushedRun(t, j, i, rj, blocks, cols, rows);
    OutPlace(t, i, rj, p);
    StrideFits(t, g.stStride, d0);
    FlushedValues(acc1, g.acc, g.ex, d0, t, j, i, CSp(t, i, rj), rows, cols);
    FlushedCells(t, j, i, rows, cols);
    MvoutBlocks(g, p, CSp(t, i, rj), cols, rows, t.C, t.CView(), i, rj, blocks, d0, Finals(acc1, g.ex, d0, t),
                t.Rows(), t.Cols(), Leave(t, j, t.K - 1, i), Leave(t, j, t.K - 1, i + 1));
  }

  /** The blocks a flush takes: from the last one stored to the one just finished. */
  lemma FlushedRun(t: GoodTile, j: int, i: int, rj: int, blocks: int, cols: int, rows: int)
    requires 0 <= i < t.I && 0 <= j < t.J && Flushes(t, j) && rj == Down(t, j)
    requires blocks == (if rj + CBlocks(t) <= t.J then CBlocks(t) else t.J - rj)
    requires cols == blocks * DIM - (if rj + blocks >= t.J then t.padJ else 0)
    requires rows == DIM - (if i == t.I - 1 then t.padI else 0)
    ensures 0 <= rj && 0 < blocks && rj + blocks == j + 1 <= t.J
    ensures 0 <= rows <= DIM && (blocks - 1) * DIM < cols <= blocks * DIM
    ensures i * DIM + rows == (if i == t.I - 1 then t.Rows() else (i + 1) * DIM) <= t.Rows()
    ensures rj * DIM + cols == (if j == t.J - 1 then t.Cols() else (j + 1) * DIM) <= t.Cols()
  {
    hide Down, CBlocks, Flushes;
    DownStep(t, j);
    RunEnd(t.I, t.padI, i, 1);
    RunEnd(t.J, t.padJ, rj, blocks);
  }

  lemma FlushedCells(t: GoodTile, j: int, i: int, rows: int, cols: int)
    requires 0 <= i < t.I && 0 <= j < t.J && Flushes(t, j)
    requires i * DIM + rows == (if i == t.I - 1 then t.Rows() else (i + 1) * DIM)
    requires Down(t, j) * DIM + cols == (if j == t.J - 1 then t.Cols() else (j + 1) * DIM)
    ensures forall row, col :: 0 <= row < t.Rows() && 0 <= col < t.Cols() ==>
      (Leave(t, j, t.K - 1, i + 1)(row, col) <==>
        Leave(t, j, t.K - 1, i)(row, col) || Inside(i, Down(t, j), rows, cols, row, col))
  {
    hide Leave, Down, Flushes;
    forall row, col | 0 <= row < t.Rows() && 0 <= col < t.Cols()
      ensures Leave(t, j, t.K - 1, i + 1)(row, col) <==>
        Leave(t, j, t.K - 1, i)(row, col) || Inside(i, Down(t, j), rows, cols, row, col)
    {
      LeaveStep(t, j, t.K - 1, i, row, col);
    }
  }

  // ---------- the loops ----------

  /** A and B do not overlap the tile's C, which is stored while they are still being read. */
  ghost predicate OperandsApart(t: Tile) {
    && (forall r, c :: 0 <= r < t.AHeight() && 0 <= c < t.AWidth() ==>
          !InMatrix(ElemAddr(t.A, t.strideA * SIZEOF_ELEM, SIZEOF_ELEM, r, c), t.C, t.strideC * SizeC(t), SizeC(t),
                    t.Rows(), t.Cols()))
    && (forall r, c :: 0 <= r < t.BHeight() && 0 <= c < t.BWidth() ==>
          !InMatrix(ElemAddr(t.B, t.strideB * SIZEOF_ELEM, SIZEOF_ELEM, r, c), t.C, t.strideC * SizeC(t), SizeC(t),
                    t.Rows(), t.Cols()))
  }

  ghost predicate Sources(d0: Dram, t: Tile) {
    AInDram(d0, t) && BInDram(d0, t) && (t.C != NULL ==> OperandsApart(t))
  }

  lemma OperandsIntact(d0: Dram, d: Dram, t: GoodTile, f: (int, int) -> int, j: int, k: int, i: int)
    requires Sources(d0, t) && DramIs(d0, d, t, f, j, k, i)
    ensures Intact(d0, d, APanel(t)) && Intact(d0, d, BPanel(t))
  {
    Panels(t);
    hide ElemAddr, InMatrix, Leave;
  }

  /** The state before the step (j, k, i). */
  ghost predicate Running(g: Gemmini, t: GoodTile, d0: Dram, acc1: Mem, j: int, k: int, i: int)
    reads g
  {
    && Ready(g, t) && (t.C != NULL ==> COk(g.stStride, d0, t))
    && ALoaded(g.spad, d0, t, AStage(t, j, k, i)) && BLoaded(g.spad, d0, t, BStage(t, j, if i > 0 then k + 1 else k))
    && (i > 0 ==> WeightsAre(g.weights, d0, t, k, j))
    && CellsAre(acc1, g.acc, d0, t, j, k, i)
    && DramIs(d0, g.dram, t, Finals(acc1, g.ex, d0, t), j, k, i)
  }

  method MvinA(g: Gemmini, t: GoodTile, j: int, k: int, i: int, ghost d0: Dram, ghost doneB: (int, int) -> bool)
    requires Ready(g, t) && Intact(d0, g.dram, APanel(t)) && 0 <= j < t.J && 0 <= k < t.K && 0 <= i < t.I
    requires ALoaded(g.spad, d0, t, AStage(t, j, k, i)) && BLoaded(g.spad, d0, t, doneB)
    modifies g`spad, g`acc
    ensures Ready(g, t) && g.acc == old(g.acc)
    ensures ALoaded(g.spad, d0, t, AStage(t, j, k, i + 1)) && BLoaded(g.spad, d0, t, doneB)
  {
    Panels(t);
    Regions(t);
    ghost var spad := g.spad;
    hide Stage, Filled, Intact, Fits, Apart, Same;
    if j == 0 {
      MvinStage(g, 0, APanel(t), k, i, t.BView(), d0);
      StillLoaded(spad, g.spad, t.BView(), BStored(d0, t), t.BHeight(), t.BWidth(), doneB);
    }
  }

  method MvinB(g: Gemmini, t: GoodTile, j: int, k: int, i: int, ghost d0: Dram, ghost doneA: (int, int) -> bool)
    requires Ready(g, t) && Intact(d0, g.dram, BPanel(t)) && 0 <= j < t.J && 0 <= k < t.K && 0 <= i < t.I
    requires ALoaded(g.spad, d0, t, doneA) && BLoaded(g.spad, d0, t, BStage(t, j, if i > 0 then k + 1 else k))
    modifies g`spad, g`acc
    ensures Ready(g, t) && g.acc == old(g.acc)
    ensures ALoaded(g.spad, d0, t, doneA) && BLoaded(g.spad, d0, t, BStage(t, j, k + 1))
  {
    Panels(t);
    Regions(t);
    ghost var spad := g.spad;
    hide Stage, Filled, Intact, Fits, Apart, Same;
    if i == 0 {
      MvinStage(g, 1, BPanel(t), j, k, t.AView(), d0);
      StillLoaded(spad, g.spad, t.AView(), AStored(d0, t), t.AHeight(), t.AWidth(), doneA);
    }
  }

  method MvoutC(g: Gemmini, t: GoodTile, j: int, k: int, i: int, ghost d0: Dram, ghost acc1: Mem)
    requires Ready(g, t) && (t.C != NULL ==> COk(g.stStride, d0, t)) && 0 <= i < t.I && 0 <= j < t.J && 0 <= k < t.K
    requires CellsAre(acc1, g.acc, d0, t, j, k, i + 1)
    requires DramIs(d0, g.dram, t, Finals(acc1, g.ex, d0, t), j, k, i)
    modifies g`dram
    ensures Ready(g, t) && DramIs(d0, g.dram, t, Finals(acc1, g.ex, d0, t), j, k, i + 1)
  {
    hide Flushes, CellsAre, StoredAs, Leave, COk, Finals;
    if t.C != NULL {
      if k == t.K - 1 && Flushes(t, j) {
        Flush(g, t, j, i, d0, acc1);
      } else {
        forall row, col | 0 <= row < t.Rows() && 0 <= col < t.Cols()
          ensures Leave(t, j, k, i)(row, col) == Leave(t, j, k, i + 1)(row, col)
        {
          LeaveStep(t, j, k, i, row, col);
        }
        StoredSame(d0, g.dram, t, Finals(acc1, g.ex, d0, t), Leave(t, j, k, i), Leave(t, j, k, i + 1));
      }
    }
  }

  method Step(g: Gemmini, t: GoodTile, j: int, k: int, i: int, ghost d0: Dram, ghost acc1: Mem)
    requires 0 <= i < t.I && 0 <= j < t.J && 0 <= k < t.K && Sources(d0, t) && Running(g, t, d0, acc1, j, k, i)
    modifies g`pre, g`spad, g`acc, g`pe, g`weights, g`dram
    ensures Running(g, t, d0, acc1, j, k, i + 1)
  {
    hide *;
    RunningIs(g, t, d0, acc1, j, k, i);
    OperandsIntact(d0, g.dram, t, Finals(acc1, g.ex, d0, t), j, k, i);
    AStageCovers(t, j, k, i);
    BStageCovers(t, j, k);
    MvinA(g, t, j, k, i, d0, BStage(t, j, if i > 0 then k + 1 else k));
    MvinB(g, t, j, k, i, d0, AStage(t, j, k, i + 1));
    ghost var acc := g.acc;
    MultiplyBlocks(g, t, i, j, k, d0, AStage(t, j, k, i + 1), BStage(t, j, k + 1));
    CellsStep(acc1, acc, g.acc, d0, t, j, k, i);
    MvoutC(g, t, j, k, i, d0, acc1);
    RunningNext(g, t, d0, acc1, j, k, i);
  }

  lemma RunningIs(g: Gemmini, t: GoodTile, d0: Dram, acc1: Mem, j: int, k: int, i: int)
    requires Running(g, t, d0, acc1, j, k, i)
    ensures Ready(g, t) && (t.C != NULL ==> COk(g.stStride, d0, t))
    ensures ALoaded(g.spad, d0, t, AStage(t, j, k, i)) && BLoaded(g.spad, d0, t,
                                                                  BStage(t, j, if i > 0 then k + 1 else k))
    ensures (i > 0 ==> WeightsAre(g.weights, d0, t, k, j)) && CellsAre(acc1, g.acc, d0, t, j, k, i)
    ensures DramIs(d0, g.dram, t, Finals(acc1, g.ex, d0, t), j, k, i)
  {}

  lemma RunningNext(g: Gemmini, t: GoodTile, d0: Dram, acc1: Mem, j: int, k: int, i: int)
    requires i >= 0 && Ready(g, t) && (t.C != NULL ==> COk(g.stStride, d0, t))
    requires ALoaded(g.spad, d0, t, AStage(t, j, k, i + 1)) && BLoaded(g.spad, d0, t, BStage(t, j, k + 1))
    requires WeightsAre(g.weights, d0, t, k, j) && CellsAre(acc1, g.acc, d0, t, j, k, i + 1)
    requires DramIs(d0, g.dram, t, Finals(acc1, g.ex, d0, t), j, k, i + 1)
    ensures Running(g, t, d0, acc1, j, k, i + 1)
  {}

  lemma NextK(g: Gemmini, t: GoodTile, d0: Dram, acc1: Mem, j: int, k: int)
    requires 0 <= j < t.J && 0 <= k < t.K && Running(g, t, d0, acc1, j, k, t.I)
    ensures Running(g, t, d0, acc1, j, k + 1, 0)
  {
    CellsNextK(acc1, g.acc, d0, t, j, k);
    ALoadedNextK(g.spad, d0, t, j, k);
    if t.C != NULL {
      forall row, col | 0 <= row < t.Rows() && 0 <= col < t.Cols()
        ensures Leave(t, j, k, t.I)(row, col) == Leave(t, j, k + 1, 0)(row, col)
      {
        LeaveNextK(t, j, k, row, col);
      }
      StoredSame(d0, g.dram, t, Finals(acc1, g.ex, d0, t), Leave(t, j, k, t.I), Leave(t, j, k + 1, 0));
    }
    hide Ready, COk, ALoaded, BLoaded, AStage, BStage, CellsAre, WeightsAre, StoredAs, Leave, Finals;
  }

  lemma ALoadedNextK(spad: Mem, d: Dram, t: GoodTile, j: int, k: int)
    requires 0 <= k < t.K && ALoaded(spad, d, t, AStage(t, j, k, t.I))
    ensures ALoaded(spad, d, t, AStage(t, j, k + 1, 0))
  {
    Panels(t);
    if j <= 0 {
      hide Val;
      forall r, c | 0 <= r < t.AHeight() && 0 <= c < t.AWidth() && AStage(t, j, k + 1, 0)(r, c)
        ensures AStage(t, j, k, t.I)(r, c)
      {
        StageNext(APanel(t), k, r, c);
      }
    }
  }

  lemma NextJ(g: Gemmini, t: GoodTile, d0: Dram, acc1: Mem, j: int)
    requires 0 <= j < t.J && Running(g, t, d0, acc1, j, t.K, 0)
    ensures Running(g, t, d0, acc1, j + 1, 0, 0)
  {
    CellsNextJ(acc1, g.acc, d0, t, j);
    LoadedNextJ(g.spad, d0, t, j);
    if t.C != NULL {
      forall row, col | 0 <= row < t.Rows() && 0 <= col < t.Cols()
        ensures Leave(t, j, t.K, 0)(row, col) == Leave(t, j + 1, 0, 0)(row, col)
      {
        LeaveNextJ(t, j, row, col);
      }
      StoredSame(d0, g.dram, t, Finals(acc1, g.ex, d0, t), Leave(t, j, t.K, 0), Leave(t, j + 1, 0, 0));
    }
    hide Ready, COk, ALoaded, BLoaded, AStage, BStage, CellsAre, WeightsAre, StoredAs, Leave, Finals;
  }

  lemma LoadedNextJ(spad: Mem, d: Dram, t: GoodTile, j: int)
    requires 0 <= j < t.J && ALoaded(spad, d, t, AStage(t, j, t.K, 0)) && BLoaded(spad, d, t, BStage(t, j, t.K))
    ensures ALoaded(spad, d, t, AStage(t, j + 1, 0, 0)) && BLoaded(spad, d, t, BStage(t, j + 1, 0))
  {
    Panels(t);
    hide Val, Stage, Panel.Ok, APanel, BPanel;
    forall r, c | 0 <= r < t.AHeight() && 0 <= c < t.AWidth() ensures AStage(t, j, t.K, 0)(r, c) {
      StageEnds(APanel(t), r, c);
    }
    forall r, c | 0 <= r < t.BHeight() && 0 <= c < t.BWidth() && BStage(t, j + 1, 0)(r, c)
      ensures BStage(t, j, t.K)(r, c)
    {
      StageNext(BPanel(t), j, r, c);
    }
  }

  lemma Begin(g: Gemmini, t: GoodTile, d0: Dram, acc1: Mem)
    requires Ready(g, t) && (t.C != NULL ==> COk(g.stStride, d0, t)) && g.acc == acc1 && g.dram == d0
    ensures Running(g, t, d0, acc1, 0, 0, 0)
  {
    hide Ready, COk, ALoaded, BLoaded, AStage, BStage, CellsAre, DramIs, WeightsAre;
    CellsStart(acc1, d0, t);
    NothingLoaded(g.spad, d0, t);
    NothingLeft(d0, t, Finals(acc1, g.ex, d0, t));
  }

  lemma NothingLoaded(spad: Mem, d: Dram, t: GoodTile)
    ensures ALoaded(spad, d, t, AStage(t, 0, 0, 0)) && BLoaded(spad, d, t, BStage(t, 0, 0))
  {
    Panels(t);
    hide Stage, Val, Panel.Ok, APanel, BPanel;
    forall r, c | 0 <= r < t.AHeight() && 0 <= c < t.AWidth() ensures !AStage(t, 0, 0, 0)(r, c) {
      StageEnds(APanel(t), r, c);
    }
    forall r, c | 0 <= r < t.BHeight() && 0 <= c < t.BWidth() ensures !BStage(t, 0, 0)(r, c) {
      StageEnds(BPanel(t), r, c);
    }
  }

  lemma NothingLeft(d: Dram, t: GoodTile, f: (int, int) -> int)
    ensures DramIs(d, d, t, f, 0, 0, 0)
  {
    hide Leave, InMatrix, ElemAddr;
    forall row, col | 0 <= row < t.Rows() && 0 <= col < t.Cols() ensures !Leave(t, 0, 0, 0)(row, col) {
      LeaveEnds(t, row, col);
    }
  }

  method Layer(g: Gemmini, t: GoodTile, j: int, k: int, ghost d0: Dram, ghost acc1: Mem)
    requires 0 <= j < t.J && 0 <= k < t.K && Sources(d0, t) && Running(g, t, d0, acc1, j, k, 0)
    modifies g`pre, g`spad, g`acc, g`pe, g`weights, g`dram
    ensures Running(g, t, d0, acc1, j, k + 1, 0)
  {
    hide Running, Sources;
    var i := 0;
    while i < t.I
      invariant 0 <= i <= t.I && Running(g, t, d0, acc1, j, k, i)
    {
      Step(g, t, j, k, i, d0, acc1);
      i := i + 1;
    }
    NextK(g, t, d0, acc1, j, k);
  }

  method Loops(g: Gemmini, t: GoodTile, ghost d0: Dram, ghost acc1: Mem)
    requires Sources(d0, t) && Running(g, t, d0, acc1, 0, 0, 0)
    modifies g`pre, g`spad, g`acc, g`pe, g`weights, g`dram
    ensures Running(g, t, d0, acc1, t.J, 0, 0)
  {
    hide Running, Sources;
    var j := 0;
    while j < t.J
      invariant 0 <= j <= t.J && Running(g, t, d0, acc1, j, 0, 0)
    {
      var k := 0;
      while k < t.K
        invariant 0 <= k <= t.K && Running(g, t, d0, acc1, j, k, 0)
      {
        Layer(g, t, j, k, d0, acc1);
        k := k + 1;
      }
      NextJ(g, t, d0, acc1, j);
      j := j + 1;
    }
  }

  /** When the loops are done every cell has all its products on top of what it started from. */
  lemma Finished(acc0: Mem, acc1: Mem, acc: Mem, d: Dram, t: GoodTile)
    requires if t.D != NULL && !t.noBias then Filled(acc1, t.CView(), DVals(d, t), t.Rows(), t.Cols(), Everywhere())
             else acc1 == acc0
    requires CellsAre(acc1, acc, d, t, t.J, 0, 0)
    ensures TileResult(acc0, acc, d, t)
    ensures forall row, col :: 0 <= row < t.Rows() && 0 <= col < t.Cols() ==>
              Val(acc, t.CView(), row, col) == CellAfter(acc1, d, t, row, col, t.K)
  {
    KEndSplit(t, 0, TileTerm(d, t, 0, 0));
    hide DVals, Val, TileTerm, KEnd;
  }

  lemma StoredResult(acc1: Mem, acc: Mem, ex: ExConfig, d0: Dram, d: Dram, t: GoodTile)
    requires StoredAs(d0, d, t, Finals(acc1, ex, d0, t), Leave(t, t.J, 0, 0))
    requires forall row, col :: 0 <= row < t.Rows() && 0 <= col < t.Cols() ==>
               Val(acc, t.CView(), row, col) == CellAfter(acc1, d0, t, row, col, t.K)
    ensures StoredAs(d0, d, t, OutVals(acc, ex, t), Everywhere())
  {
    forall row, col | 0 <= row < t.Rows() && 0 <= col < t.Cols() ensures Leave(t, t.J, 0, 0)(row, col) {
      LeaveEnds(t, row, col);
    }
    hide Leave, CellAfter, Val, ScaleAndSat, InMatrix;
  }

  method SpTiledMatmulWs(g: Gemmini, t: GoodTile)
    requires Ready(g, t) && Sources(g.dram, t)
    requires t.D != NULL && !t.noBias ==> DInDram(g.dram, t)
    requires t.C != NULL ==> COk(g.stStride, g.dram, t)
    modifies g`pre, g`spad, g`acc, g`pe, g`weights, g`dram
    ensures Ready(g, t)
    ensures TileResult(old(g.acc), g.acc, old(g.dram), t)
    ensures if t.C == NULL then g.dram == old(g.dram)
            else Stored(old(g.dram), g.dram, t.C, t.strideC * SizeC(t), SizeC(t), t.Rows(), t.Cols(),
                        OutVals(g.acc, g.ex, t), Everywhere())
  {
    ghost var d0, acc0 := g.dram, g.acc;
    hide DVals, AInDram, BInDram, DInDram, CellsAre, TileResult, OutVals, Filled, Sources, ALoaded, BLoaded, COk, Leave,
         Finals, OperandsApart, CellAfter;
    if t.D != NULL && !t.noBias {
      MoveInD(g, t, 2);
    }
    ghost var acc1 := g.acc;
    Begin(g, t, d0, acc1);
    Loops(g, t, d0, acc1);
    Finished(acc0, acc1, g.acc, d0, t);
    if t.C != NULL {
      StoredResult(acc1, g.acc, g.ex, d0, g.dram, t);
    }
  }
}
