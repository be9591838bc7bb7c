/** sp_tiled_matmul_os: one tile of an output-stationary multiply, as a stream of commands. */
module MatmulOs {
  import opened Accelerator
  import opened Config
  import opened LocalMemory
  import opened MatmulTile
  import opened Sums
  import opened Transfers

  /** Tiles this function can do: no transposes, and no narrow bias to bring in. */
  predicate Plain(t: Tile) { !t.transA && !t.transB && (t.lowD ==> t.D == NULL || t.noBias) }

  // ---------- move-in ----------

  /** Move-in A, in runs of up to MAX_BLOCK_LEN blocks of one block row. */
  method MoveInA(g: Gemmini, t: GoodTile)
    requires g.Valid() && Plain(t) && AInDram(g.dram, t)
    modifies g`ld, g`spad, g`acc
    ensures g.Valid() && g.acc == old(g.acc)
    ensures Same(old(g.spad), g.spad, t.BView())
    ensures Filled(g.spad, t.AView(), AStored(g.dram, t), t.Rows(), t.Depth(), Everywhere())
  {
    var aBlocks := if t.K <= MAX_BLOCK_LEN then t.K else MAX_BLOCK_LEN;
    g.ConfigLd(t.strideA * SIZEOF_ELEM, t.scaleA, false, DIM, 0);
    ghost var ld := g.ld;
    hide AInDram;
    var i := 0;
    while i < t.I
      invariant 0 <= i <= t.I && g.Valid() && g.ld == ld
      invariant g.acc == old(g.acc) && Same(old(g.spad), g.spad, t.BView())
      invariant Filled(g.spad, t.AView(), AStored(g.dram, t), t.Rows(), t.Depth(), RowMajor(i, 0))
    {
      MoveInARow(g, t, aBlocks, i);
      i := i + 1;
    }
    AllRowsDone(g.spad, t.AView(), AStored(g.dram, t), t.Rows(), t.Depth());
  }

  method MoveInARow(g: Gemmini, t: GoodTile, aBlocks: int, i: int)
    requires g.Valid() && Plain(t) && AInDram(g.dram, t)
    requires g.ld[0] == LoadConfig(t.strideA * SIZEOF_ELEM, t.scaleA, false, DIM)
    requires 0 <= i < t.I && 0 < aBlocks <= MAX_BLOCK_LEN
    requires Filled(g.spad, t.AView(), AStored(g.dram, t), t.Rows(), t.Depth(), RowMajor(i, 0))
    modifies g`spad, g`acc
    ensures g.Valid() && g.acc == old(g.acc)
    ensures Same(old(g.spad), g.spad, t.BView())
    ensures Filled(g.spad, t.AView(), AStored(g.dram, t), t.Rows(), t.Depth(), RowMajor(i + 1, 0))
  {
    hide AInDram;
    var k := 0;
    while k < t.K
      invariant 0 <= k <= t.K && g.Valid()
      invariant g.acc == old(g.acc) && Same(old(g.spad), g.spad, t.BView())
      invariant Filled(g.spad, t.AView(), AStored(g.dram, t), t.Rows(), t.Depth(), RowMajor(i, k))
    {
      var blocks := if k + aBlocks <= t.K then aBlocks else t.K - k;
      MoveInABlocks(g, t, i, k, blocks);
      k := k + blocks;
    }
    RowDone(g.spad, t.AView(), AStored(g.dram, t), t.Rows(), t.Depth(), i);
  }

  method MoveInABlocks(g: Gemmini, t: GoodTile, i: int, k: int, blocks: int)
    requires g.Valid() && Plain(t) && AInDram(g.dram, t)
    requires g.ld[0] == LoadConfig(t.strideA * SIZEOF_ELEM, t.scaleA, false, DIM)
    requires 0 <= i < t.I && 0 <= k && 0 < blocks <= MAX_BLOCK_LEN && k + blocks <= t.K
    requires Filled(g.spad, t.AView(), AStored(g.dram, t), t.Rows(), t.Depth(), RowMajor(i, k))
    modifies g`spad, g`acc
    ensures g.Valid() && g.acc == old(g.acc)
    ensures Same(old(g.spad), g.spad, t.BView())
    ensures Filled(g.spad, t.AView(), AStored(g.dram, t), t.Rows(), t.Depth(), RowMajor(i, k + blocks))
  {
    var p := t.A + (i * t.strideA + k) * DIM;
    var addr := 0 + (i * t.K + k) * DIM;
    var cols := blocks * DIM - (if k + blocks >= t.K then t.padK else 0);
    var rows := DIM - (if i == t.I - 1 then t.padI else 0);
    Regions(t);
    BlockInView(t.AView(), SPAD_ROWS, i, k);
    SpadAddress(addr);
    BlockPointer(t.A, t.strideA, SIZEOF_ELEM, i, k);
    Positive(t.A, t.strideA * SIZEOF_ELEM, SIZEOF_ELEM, i, k);
    RunEnd(t.K, t.padK, k, blocks);
    RunEnd(t.I, t.padI, i, 1);
    MvinFill(g, 0, p, addr, cols, rows, t.A, t.AView(), t.BView(), i, k, blocks,
             AStored(g.dram, t), t.Rows(), t.Depth(), RowMajor(i, k), RowMajor(i, k + blocks));
  }

  lemma ColumnsDone(m: Mem, v: View, f: (int, int) -> int, R: int, C: int, j: int, n: int, n': int)
    requires Filled(m, v, f, R, C, ColMajor(j, n, v.H)) && R <= v.H * DIM
    ensures Filled(m, v, f, R, C, ColMajor(j + n, n', 0))
  {}

  lemma AllColumnsDone(m: Mem, v: View, f: (int, int) -> int, R: int, C: int, n: int)
    requires Filled(m, v, f, R, C, ColMajor(v.W, n, 0)) && C <= v.W * DIM
    ensures Filled(m, v, f, R, C, Everywhere())
  {}

  /** Move-in B, block columns in runs of up to MAX_BLOCK_LEN, each run down all of K. */
  method MoveInB(g: Gemmini, t: GoodTile)
    requires g.Valid() && Plain(t) && BInDram(g.dram, t)
    modifies g`ld, g`spad, g`acc
    ensures g.Valid() && g.acc == old(g.acc)
    ensures Filled(g.spad, t.BView(), BStored(g.dram, t), t.Depth(), t.Cols(), Everywhere())
  {
    var bBlocks := if t.J <= MAX_BLOCK_LEN then t.J else MAX_BLOCK_LEN;
    g.ConfigLd(t.strideB * SIZEOF_ELEM, t.scaleB, false, DIM, 0);
    ghost var ld := g.ld;
    hide BInDram;
    var j := 0;
    ghost var n := bBlocks;
    while j < t.J
      invariant 0 <= j <= t.J && g.Valid() && g.ld == ld && g.acc == old(g.acc)
      invariant Filled(g.spad, t.BView(), BStored(g.dram, t), t.Depth(), t.Cols(), ColMajor(j, n, 0))
      decreases t.J - j
    {
      var blocks := if j + bBlocks <= t.J then bBlocks else t.J - j;
      MoveInBColumns(g, t, j, blocks, n);
      j := j + blocks;
      n := blocks;
    }
    AllColumnsDone(g.spad, t.BView(), BStored(g.dram, t), t.Depth(), t.Cols(), n);
  }

  method MoveInBColumns(g: Gemmini, t: GoodTile, j: int, blocks: int, ghost n: int)
    requires g.Valid() && Plain(t) && BInDram(g.dram, t)
    requires g.ld[0] == LoadConfig(t.strideB * SIZEOF_ELEM, t.scaleB, false, DIM)
    requires 0 <= j && 0 < blocks <= MAX_BLOCK_LEN && j + blocks <= t.J
    requires Filled(g.spad, t.BView(), BStored(g.dram, t), t.Depth(), t.Cols(), ColMajor(j, n, 0))
    modifies g`spad, g`acc
    ensures g.Valid() && g.acc == old(g.acc)
    ensures Filled(g.spad, t.BView(), BStored(g.dram, t), t.Depth(), t.Cols(), ColMajor(j + blocks, blocks, 0))
  {
    hide BInDram;
    var k := 0;
    while k < t.K
      invariant 0 <= k <= t.K && g.Valid() && g.acc == old(g.acc)
      invariant Filled(g.spad, t.BView(), BStored(g.dram, t), t.Depth(), t.Cols(), ColMajor(j, blocks, k))
    {
      MoveInBBlocks(g, t, k, j, blocks);
      k := k + 1;
    }
    ColumnsDone(g.spad, t.BView(), BStored(g.dram, t), t.Depth(), t.Cols(), j, blocks, blocks);
  }

  method MoveInBBlocks(g: Gemmini, t: GoodTile, k: int, j: int, blocks: int)
    requires g.Valid() && Plain(t) && BInDram(g.dram, t)
    requires g.ld[0] == LoadConfig(t.strideB * SIZEOF_ELEM, t.scaleB, false, DIM)
    requires 0 <= k < t.K && 0 <= j && 0 < blocks <= MAX_BLOCK_LEN && j + blocks <= t.J
    requires Filled(g.spad, t.BView(), BStored(g.dram, t), t.Depth(), t.Cols(), ColMajor(j, blocks, k))
    modifies g`spad, g`acc
    ensures g.Valid() && g.acc == old(g.acc)
    ensures Filled(g.spad, t.BView(), BStored(g.dram, t), t.Depth(), t.Cols(), ColMajor(j, blocks, k + 1))
  {
    var p := t.B + (k * t.strideB + j) * DIM;
    var addr := (SPAD_ROWS - t.K * t.J * DIM) + (k * t.J + j) * DIM;
    var cols := blocks * DIM - (if j + blocks >= t.J then t.padJ else 0);
    var rows := DIM - (if k == t.K - 1 then t.padK else 0);
    Regions(t);
    BlockInView(t.BView(), SPAD_ROWS, k, j);
    SpadAddress(addr);
    BlockPointer(t.B, t.strideB, SIZEOF_ELEM, k, j);
    Positive(t.B, t.strideB * SIZEOF_ELEM, SIZEOF_ELEM, k, j);
    RunEnd(t.J, t.padJ, j, blocks);
    RunEnd(t.K, t.padK, k, 1);
    MvinFill(g, 0, p, addr, cols, rows, t.B, t.BView(), NOWHERE, k, j, blocks,
             BStored(g.dram, t), t.Depth(), t.Cols(), ColMajor(j, blocks, k), ColMajor(j, blocks, k + 1));
  }

  // ---------- compute ----------

  /** Operands are in place in the scratchpad. */
  ghost predicate OperandsLoaded(spad: Mem, d: Dram, t: Tile) {
    ALoaded(spad, d, t, Everywhere()) && BLoaded(spad, d, t, Everywhere())
  }

  /** One pass of the array on two blocks of the operands. */
  lemma BlockPass(spad: Mem, d: Dram, t: GoodTile, i: int, j: int, k: int, r: int, c: int)
    requires OperandsLoaded(spad, d, t)
    requires 0 <= i < t.I && 0 <= j < t.J && 0 <= k < t.K
    requires 0 <= r < BlockRows(t, i) && 0 <= c < BlockCols(t, j)
    ensures Mac(AOperand(spad, t, i, k), BOperand(spad, t, k, j), r, c) == BlockSum(d, t, k)(i * DIM + r, j * DIM + c)
  {
    hide ALoaded, BLoaded, AVals, BVals, Mac, BlockSum, BlockRows, BlockCols, BlockDepth;
    forall kk | 0 <= kk < BlockDepth(t, k)
      ensures AOperand(spad, t, i, k)(r, kk) == AVals(d, t)(i * DIM + r, k * DIM + kk)
      ensures BOperand(spad, t, k, j)(kk, c) == BVals(d, t)(k * DIM + kk, j * DIM + c)
    {
      ATermAt(spad, d, t, Everywhere(), i, k, r, kk);
      BTermAt(spad, d, t, Everywhere(), k, j, kk, c);
    }
    MacBlock(AOperand(spad, t, i, k), BOperand(spad, t, k, j), d, t, i, j, k, r, c);
  }

  /** The array holds, for each cell of block (i, j), the products of the first k block columns. */
  ghost predicate PeHolds(pe: Mem, d: Dram, t: Tile, i: int, j: int, k: int) {
    forall r, c :: 0 <= r < BlockRows(t, i) && 0 <= c < BlockCols(t, j) ==>
      Cell(pe, r, c) == Sum(0, KEnd(t, k), TileTerm(d, t, i * DIM + r, j * DIM + c))
  }

  function ZeroOrPe(pe: Mem, k: int): (int, int) -> int {
    if k == 0 then Fetch([], GARBAGE_ADDR, DIM, DIM) else Operand(pe, 0, DIM, DIM)
  }

  lemma PeStep(spad: Mem, pe: Mem, d: Dram, t: GoodTile, i: int, j: int, k: int)
    requires OperandsLoaded(spad, d, t)
    requires 0 <= i < t.I && 0 <= j < t.J && 0 <= k < t.K
    requires k > 0 ==> PeHolds(pe, d, t, i, j, k)
    ensures PeHolds(MacArray(ZeroOrPe(pe, k), AOperand(spad, t, i, k), BOperand(spad, t, k, j)), d, t, i, j, k + 1)
  {
    hide TileTerm, AOperand, BOperand, OperandsLoaded, Mac, KEnd, BlockRows, BlockCols, ZeroOrPe, BlockSum, Sum;
    var pe' := MacArray(ZeroOrPe(pe, k), AOperand(spad, t, i, k), BOperand(spad, t, k, j));
    BlockExtents(t, i, j, k);
    forall r, c | 0 <= r < BlockRows(t, i) && 0 <= c < BlockCols(t, j)
      ensures Cell(pe', r, c) == Sum(0, KEnd(t, k + 1), TileTerm(d, t, i * DIM + r, j * DIM + c))
    {
      BlockPass(spad, d, t, i, j, k, r, c);
      PeBefore(pe, d, t, i, j, k, r, c);
    }
  }

  /** What the array starts a pass from, and where that pass takes it. */
  lemma PeBefore(pe: Mem, d: Dram, t: GoodTile, i: int, j: int, k: int, r: int, c: int)
    requires 0 <= k < t.K && 0 <= r < BlockRows(t, i) <= DIM && 0 <= c < BlockCols(t, j) <= DIM
    requires k > 0 ==> PeHolds(pe, d, t, i, j, k)
    ensures ZeroOrPe(pe, k)(r, c) + BlockSum(d, t, k)(i * DIM + r, j * DIM + c)
         == Sum(0, KEnd(t, k + 1), TileTerm(d, t, i * DIM + r, j * DIM + c))
  {
    hide TileTerm, KEnd, BlockRows, BlockCols;
    KEndSplit(t, k, TileTerm(d, t, i * DIM + r, j * DIM + c));
  }

  /** A finished block of the array is a block of the tile's sums. */
  lemma PeFinished(pe: Mem, d: Dram, t: GoodTile, i: int, j: int)
    requires PeHolds(pe, d, t, i, j, t.K)
    ensures forall r, c :: 0 <= r < BlockRows(t, i) && 0 <= c < BlockCols(t, j) ==>
              Cell(pe, r, c) == TileSum(d, t)(i * DIM + r, j * DIM + c)
  {
    hide TileTerm, BlockRows, BlockCols;
  }

  /** A preload of zeros followed by a compute, results going nowhere or to the accumulator. */
  method PreloadCompute(g: Gemmini, out: int, cCols: int, cRows: int, k: int, o: Operands)
    requires g.Valid() && g.ex.dataflow == OUTPUT_STATIONARY && g.ex.Upright()
    requires 0 <= cCols <= DIM && 0 <= cRows <= DIM
    requires out == GARBAGE_ADDR || (IsAcc(out) && 0 <= RowOf(out) && RowOf(out) + cRows <= ACC_ROWS)
    requires 0 <= o.aCols <= DIM && 0 <= o.aRows <= DIM && 0 <= o.bdCols <= DIM && 0 <= o.bdRows <= DIM
    requires 0 <= o.a && o.a + o.aRows <= SPAD_ROWS && o.a != GARBAGE_ADDR
    requires 0 <= o.bd && o.bd + o.bdRows <= SPAD_ROWS && o.bd != GARBAGE_ADDR
    modifies g`pre, g`spad, g`acc, g`pe, g`weights
    ensures g.Valid() && g.spad == old(g.spad)
    ensures g.pe == MacArray(ZeroOrPe(old(g.pe), k), FetchAs(g.spad, o.a, o.aRows, o.aCols, false),
                             FetchAs(g.spad, o.bd, o.bdRows, o.bdCols, false))
    ensures g.acc == if out == GARBAGE_ADDR then old(g.acc)
                     else WriteOut(old(g.acc), ACC_ROWS, g.pe, g.ex,
                                   PreloadRegs(GARBAGE_ADDR, DIM, DIM, out, cCols, cRows))
  {
    hide IsAcc, RowOf, MacArray, WriteOut, Operand, Turned, Shape, WsWeights, WsArray;
    g.Preload(GARBAGE_ADDR, out, DIM, DIM, cCols, cRows);
    g.Compute(k == 0, o);
  }

  /** preload; compute: the body of the k loop. */
  method ComputeStep(g: Gemmini, t: GoodTile, i: int, j: int, k: int)
    requires g.Valid() && g.ex.dataflow == OUTPUT_STATIONARY && g.ex.Upright() && g.ex.sysShift == 0 && Plain(t)
    requires OperandsLoaded(g.spad, g.dram, t)
    requires 0 <= i < t.I && 0 <= j < t.J && 0 <= k < t.K
    requires k > 0 ==> PeHolds(g.pe, g.dram, t, i, j, k)
    modifies g`pre, g`spad, g`acc, g`pe, g`weights
    ensures g.Valid() && g.spad == old(g.spad)
    ensures PeHolds(g.pe, g.dram, t, i, j, k + 1)
    ensures k < t.K - 1 ==> g.acc == old(g.acc)
    ensures k == t.K - 1 ==>
              Moved(old(g.acc), g.acc, t.CView(), i, j, BlockRows(t, i), BlockCols(t, j),
                    !Replaces(t), TileSum(g.dram, t))
  {
    OutAddrFields(t, Replaces(t), i, j);
    BlockAddrs(t, i, j, k);
    hide ASp, BSp, CSp, BlockRows, BlockCols, BlockDepth, PeHolds, IsAcc, Accumulates, RowOf, FullWidth,
         ClearAccumulate, WriteOut, MacArray, TileSum, ZeroOrPe, FetchAs, MacTerm, TileTerm;
    var out := if k == t.K - 1 then CSp(t, i, j) else GARBAGE_ADDR;
    var noBiasNewMatrix := t.noBias && t.D != NULL && k == t.K - 1;
    if noBiasNewMatrix {
      out := ClearAccumulate(out);
    }
    var aCols, aRows := BlockDepth(t, k), BlockRows(t, i);
    var bCols, bRows := BlockCols(t, j), BlockDepth(t, k);
    var cCols, cRows := BlockCols(t, j), BlockRows(t, i);
    assert k == t.K - 1 ==> out == OutAddr(t, Replaces(t), i, j);
    PeStep(g.spad, g.pe, g.dram, t, i, j, k);
    hide OutAddr, OperandsLoaded;
    ghost var acc := g.acc;
    PreloadCompute(g, out, cCols, cRows, k, Operands(ASp(t, i, k), BSp(t, k, j), aCols, aRows, bCols, bRows));
    if k == t.K - 1 {
      PeFinished(g.pe, g.dram, t, i, j);
      WriteOutBlock(acc, g.pe, t, i, j, g.ex, PreloadRegs(GARBAGE_ADDR, DIM, DIM, out, cCols, cRows), Replaces(t),
                    TileSum(g.dram, t));
    }
  }

  // ---------- the i, j loops ----------

  /** What a cell holds before the tile's own products: nothing, or bias or earlier tiles. */
  function Base(acc0: Mem, t: Tile, row: int, col: int): int {
    if Replaces(t) then 0 else Val(acc0, t.CView(), row, col)
  }

  ghost predicate CellsDone(acc0: Mem, acc: Mem, d: Dram, t: Tile, done: (int, int) -> bool) {
    forall row, col :: 0 <= row < t.Rows() && 0 <= col < t.Cols() ==>
      Val(acc, t.CView(), row, col) ==
        if done(row, col) then Base(acc0, t, row, col) + TileSum(d, t)(row, col)
        else Val(acc0, t.CView(), row, col)
  }

  lemma CellsStep(acc0: Mem, acc: Mem, acc': Mem, d: Dram, t: GoodTile, i: int, j: int)
    requires 0 <= i < t.I && 0 <= j < t.J
    requires CellsDone(acc0, acc, d, t, RowMajor(i, j))
    requires Moved(acc, acc', t.CView(), i, j, BlockRows(t, i), BlockCols(t, j), !Replaces(t),
                   TileSum(d, t))
    ensures CellsDone(acc0, acc', d, t, RowMajor(i, j + 1))
  {
    RunEnd(t.I, t.padI, i, 1);
    RunEnd(t.J, t.padJ, j, 1);
    hide TileSum, Val;
  }

  lemma CellsNextRow(acc0: Mem, acc: Mem, d: Dram, t: GoodTile, i: int)
    requires CellsDone(acc0, acc, d, t, RowMajor(i, t.J))
    ensures CellsDone(acc0, acc, d, t, RowMajor(i + 1, 0))
  {}

  method ComputeBlock(g: Gemmini, t: GoodTile, i: int, j: int)
    requires g.Valid() && g.ex.dataflow == OUTPUT_STATIONARY && g.ex.Upright() && g.ex.sysShift == 0 && Plain(t)
    requires OperandsLoaded(g.spad, g.dram, t)
    requires 0 <= i < t.I && 0 <= j < t.J
    modifies g`pre, g`spad, g`acc, g`pe, g`weights
    ensures g.Valid() && g.spad == old(g.spad)
    ensures Moved(old(g.acc), g.acc, t.CView(), i, j, BlockRows(t, i), BlockCols(t, j),
                  !Replaces(t), TileSum(g.dram, t))
  {
    hide TileSum, PeHolds, BlockRows, BlockCols;
    var k := 0;
    while k < t.K
      invariant 0 <= k <= t.K && g.Valid() && g.spad == old(g.spad)
      invariant k > 0 ==> PeHolds(g.pe, g.dram, t, i, j, k)
      invariant k < t.K ==> g.acc == old(g.acc)
      invariant k == t.K ==> Moved(old(g.acc), g.acc, t.CView(), i, j, BlockRows(t, i), BlockCols(t, j),
                                   !Replaces(t), TileSum(g.dram, t))
    {
      ComputeStep(g, t, i, j, k);
      k := k + 1;
    }
  }

  method ComputeAll(g: Gemmini, t: GoodTile)
    requires g.Valid() && g.ex.dataflow == OUTPUT_STATIONARY && g.ex.Upright() && g.ex.sysShift == 0 && Plain(t)
    requires OperandsLoaded(g.spad, g.dram, t)
    modifies g`pre, g`spad, g`acc, g`pe, g`weights
    ensures g.Valid() && g.spad == old(g.spad)
    ensures CellsDone(old(g.acc), g.acc, g.dram, t, Everywhere())
  {
    hide TileSum, OperandsLoaded;
    var i := 0;
    while i < t.I
      invariant 0 <= i <= t.I && g.Valid() && g.spad == old(g.spad)
      invariant CellsDone(old(g.acc), g.acc, g.dram, t, RowMajor(i, 0))
    {
      ComputeRow(g, t, i, old(g.acc));
      i := i + 1;
    }
  }

  method ComputeRow(g: Gemmini, t: GoodTile, i: int, ghost acc0: Mem)
    requires g.Valid() && g.ex.dataflow == OUTPUT_STATIONARY && g.ex.Upright() && g.ex.sysShift == 0 && Plain(t)
    requires OperandsLoaded(g.spad, g.dram, t)
    requires 0 <= i < t.I && CellsDone(acc0, g.acc, g.dram, t, RowMajor(i, 0))
    modifies g`pre, g`spad, g`acc, g`pe, g`weights
    ensures g.Valid() && g.spad == old(g.spad)
    ensures CellsDone(acc0, g.acc, g.dram, t, RowMajor(i + 1, 0))
  {
    hide TileSum, OperandsLoaded, CellsDone;
    var j := 0;
    while j < t.J
      invariant 0 <= j <= t.J && g.Valid() && g.spad == old(g.spad)
      invariant CellsDone(acc0, g.acc, g.dram, t, RowMajor(i, j))
    {
      ghost var acc := g.acc;
      ComputeBlock(g, t, i, j);
      CellsStep(acc0, acc, g.acc, g.dram, t, i, j);
      j := j + 1;
    }
    CellsNextRow(acc0, g.acc, g.dram, t, i);
  }

  // ---------- move-out ----------

  method MoveOutC(g: Gemmini, t: GoodTile)
    requires g.Valid() && COk(g.stStride, g.dram, t)
    modifies g`dram
    ensures g.Valid()
    ensures Stored(old(g.dram), g.dram, t.C, t.strideC * SizeC(t), SizeC(t), t.Rows(), t.Cols(),
                   OutVals(g.acc, g.ex, t), Everywhere())
  {
    ghost var d0 := g.dram;
    var i := 0;
    hide OutVals, InMatrix;
    while i < t.I
      invariant 0 <= i <= t.I && g.Valid()
      invariant Stored(d0, g.dram, t.C, t.strideC * SizeC(t), SizeC(t), t.Rows(), t.Cols(),
                       OutVals(g.acc, g.ex, t), RowMajor(i, 0))
    {
      MoveOutRow(g, t, i, d0);
      i := i + 1;
    }
  }

  method MoveOutRow(g: Gemmini, t: GoodTile, i: int, ghost d0: Dram)
    requires g.Valid() && COk(g.stStride, d0, t) && 0 <= i < t.I
    requires Stored(d0, g.dram, t.C, t.strideC * SizeC(t), SizeC(t), t.Rows(), t.Cols(),
                    OutVals(g.acc, g.ex, t), RowMajor(i, 0))
    modifies g`dram
    ensures g.Valid()
    ensures Stored(d0, g.dram, t.C, t.strideC * SizeC(t), SizeC(t), t.Rows(), t.Cols(),
                   OutVals(g.acc, g.ex, t), RowMajor(i + 1, 0))
  {
    hide OutVals, InMatrix, MatrixIn;
    var j := 0;
    while j < t.J
      invariant 0 <= j <= t.J && g.Valid()
      invariant Stored(d0, g.dram, t.C, t.strideC * SizeC(t), SizeC(t), t.Rows(), t.Cols(),
                       OutVals(g.acc, g.ex, t), RowMajor(i, j))
    {
      MoveOutBlock(g, t, i, j, d0);
      j := j + 1;
    }
  }

  method MoveOutBlock(g: Gemmini, t: GoodTile, i: int, j: int, ghost d0: Dram)
    requires g.Valid() && COk(g.stStride, d0, t) && 0 <= i < t.I && 0 <= j < t.J
    requires Stored(d0, g.dram, t.C, t.strideC * SizeC(t), SizeC(t), t.Rows(), t.Cols(),
                    OutVals(g.acc, g.ex, t), RowMajor(i, j))
    modifies g`dram
    ensures g.Valid()
    ensures Stored(d0, g.dram, t.C, t.strideC * SizeC(t), SizeC(t), t.Rows(), t.Cols(),
                   OutVals(g.acc, g.ex, t), RowMajor(i, j + 1))
  {
    var p := t.C + (i * t.strideC + j) * DIM * SizeC(t);
    BlockAddrs(t, i, j, 0);
    BlockExtents(t, i, j, 0);
    BlockEnd(t, i, j);
    OutPlace(t, i, j, p);
    StrideFits(t, g.stStride, d0);
    OutLeaves(g.acc, g.ex, t, CSp(t, i, j));
    hide IsAcc, RowOf, FullWidth, Accumulates, CSp, ASp, BSp, InMatrix, StoreSize, ElemAddr, Fits, OutVals, Leaving,
         COk;
    MvoutBlocks(g, p, CSp(t, i, j), BlockCols(t, j), BlockRows(t, i), t.C, t.CView(), i, j, 1, d0,
                OutVals(g.acc, g.ex, t), t.Rows(), t.Cols(), RowMajor(i, j), RowMajor(i, j + 1));
  }

  lemma BlockEnd(t: GoodTile, i: int, j: int)
    requires 0 <= i < t.I && 0 <= j < t.J
    ensures i * DIM + BlockRows(t, i) == (if i == t.I - 1 then t.Rows() else (i + 1) * DIM)
    ensures j * DIM + BlockCols(t, j) == (if j == t.J - 1 then t.Cols() else (j + 1) * DIM)
  {
    RunEnd(t.I, t.padI, i, 1);
    RunEnd(t.J, t.padJ, j, 1);
  }

  lemma OutLeaves(acc: Mem, ex: ExConfig, t: Tile, addr: int)
    requires IsAcc(addr) && (FullWidth(addr) <==> t.fullC)
    ensures forall row, col :: OutVals(acc, ex, t)(row, col) == Leaving(ex, addr, Val(acc, t.CView(), row, col))
  {}

  // ---------- the whole tile ----------

  lemma TileResultFrom(acc0: Mem, acc1: Mem, acc: Mem, d: Dram, t: GoodTile)
    requires if t.D != NULL && !t.noBias then Filled(acc1, t.CView(), DVals(d, t), t.Rows(), t.Cols(), Everywhere())
             else acc1 == acc0
    requires CellsDone(acc1, acc, d, t, Everywhere())
    ensures TileResult(acc0, acc, d, t)
  {
    hide TileSum, DVals, Val;
  }

  method SpTiledMatmulOs(g: Gemmini, t: GoodTile)
    requires g.Valid() && g.ex.dataflow == OUTPUT_STATIONARY && g.ex.Upright() && g.ex.sysShift == 0 && Plain(t)
    requires AInDram(g.dram, t) && BInDram(g.dram, t)
    requires t.D != NULL && !t.noBias ==> DInDram(g.dram, t)
    requires t.C != NULL ==> COk(g.stStride, g.dram, t)
    modifies g`ld, g`pre, g`spad, g`acc, g`pe, g`weights, g`dram
    ensures g.Valid()
    ensures TileResult(old(g.acc), g.acc, old(g.dram), t)
    ensures if t.C == NULL then g.dram == old(g.dram)
            else Stored(old(g.dram), g.dram, t.C, t.strideC * SizeC(t), SizeC(t), t.Rows(), t.Cols(),
                        OutVals(g.acc, g.ex, t), Everywhere())
  {
    hide TileSum, AStored, BStored, DVals, AInDram, BInDram, DInDram, CellsDone, TileResult, OutVals, InMatrix, Filled,
         Same;
    if t.D != NULL && !t.noBias {
      g.ConfigLd(DStride(t), t.scaleD, false, DIM, 0);
      MoveInD(g, t, 0);
    }
    ghost var acc1 := g.acc;
    MoveInB(g, t);
    ghost var spad := g.spad;
    MoveInA(g, t);
    StillLoaded(spad, g.spad, t.BView(), BStored(g.dram, t), t.Depth(), t.Cols(), Everywhere());
    ComputeAll(g, t);
    TileResultFrom(old(g.acc), acc1, g.acc, g.dram, t);
    if t.C != NULL {
      MoveOutC(g, t);
    }
  }
}
