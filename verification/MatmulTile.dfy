/** One call of an inner matmul function: the tile it works on, where its operands lie in DRAM,
    scratchpad and accumulator, and what it must leave behind. */
module MatmulTile {
  import opened Accelerator
  import opened Arith
  import opened Config
  import opened LocalMemory
  import opened Quantize
  import opened Sums
  import opened Transfers

  /** The arguments of one call. I, J and K count blocks; strides count elements. */
  datatype Tile = Tile(
    A: int, B: int, D: int, C: int,
    scaleA: Scale, scaleB: Scale, scaleD: Scale,
    I: int, J: int, K: int, padI: int, padJ: int, padK: int,
    strideA: int, strideB: int, strideD: int, strideC: int,
    transA: bool, transB: bool, fullC: bool, lowD: bool, noBias: bool, repeatingBias: bool)
  {
    function Rows(): int { I * DIM - padI }
    function Cols(): int { J * DIM - padJ }
    function Depth(): int { K * DIM - padK }
    function AHeight(): int { if transA then Depth() else Rows() }
    function AWidth(): int { if transA then Rows() else Depth() }
    function BHeight(): int { if transB then Cols() else Depth() }
    function BWidth(): int { if transB then Depth() else Cols() }
    function AView(): View { if transA then View(0, K, I) else View(0, I, K) }
    function BView(): View {
      var base := SPAD_ROWS - K * J * DIM;
      if transB then View(base, J, K) else View(base, K, J)
    }
    function CView(): View { View(0, I, J) }

    /** The tile is not empty and fits the memories as tiled_matmul checks. */
    ghost predicate Ok() {
      && 0 < I && 0 < J && 0 < K
      && 0 <= padI < DIM && 0 <= padJ < DIM && 0 <= padK < DIM
      && I * J * DIM <= ACC_ROWS
      && I * K * DIM + K * J * DIM <= SPAD_ROWS
      && A > 0 && B > 0 && C >= 0 && D >= 0
      && strideA >= 0 && strideB >= 0 && strideD >= 0 && strideC >= 0
    }
  }

  type GoodTile = t: Tile | t.Ok()
    ghost witness Tile(1, 1, 0, 0, x => x, x => x, x => x, 1, 1, 1, 0, 0, 0, 0, 0, 0, 0, false, false, false, false,
                       true, false)

  /** A and B as they are laid out in DRAM and scratchpad, scaled. */
  function AStored(d: Dram, t: Tile): (int, int) -> int { Scaled(d, t.A, t.strideA, t.scaleA) }
  function BStored(d: Dram, t: Tile): (int, int) -> int { Scaled(d, t.B, t.strideB, t.scaleB) }

  function Scaled(d: Dram, p: int, stride: int, scale: Scale): (int, int) -> int {
    (r, c) => scale(Get(d, ElemAddr(p, stride * SIZEOF_ELEM, SIZEOF_ELEM, r, c)))
  }

  /** A and B as the multiply sees them. */
  function AVals(d: Dram, t: Tile): (int, int) -> int {
    if t.transA then (row, k) => AStored(d, t)(k, row) else AStored(d, t)
  }

  function BVals(d: Dram, t: Tile): (int, int) -> int {
    if t.transB then (k, col) => BStored(d, t)(col, k) else BStored(d, t)
  }

  lemma OperandValues(d: Dram, t: Tile, i: int, j: int, k: int)
    ensures AVals(d, t)(i, k) == t.scaleA(Get(d, ElemAddr(t.A, t.strideA * SIZEOF_ELEM, SIZEOF_ELEM,
                                                          if t.transA then k else i, if t.transA then i else k)))
    ensures BVals(d, t)(k, j) == t.scaleB(Get(d, ElemAddr(t.B, t.strideB * SIZEOF_ELEM, SIZEOF_ELEM,
                                                          if t.transB then j else k, if t.transB then k else j)))
  {
    assert forall r, c :: AStored(d, t)(r, c) == Scaled(d, t.A, t.strideA, t.scaleA)(r, c);
    if t.transA { assert AVals(d, t)(i, k) == AStored(d, t)(k, i); }
    if t.transB { assert BVals(d, t)(k, j) == BStored(d, t)(j, k); }
  }

  function DStride(t: Tile): int { if t.repeatingBias then 0 else t.strideD * SizeofD(t.lowD) }

  /** A bias of element width is scaled on its way in. */
  function DVals(d: Dram, t: Tile): (int, int) -> int {
    if t.lowD then (row, col) => t.scaleD(Get(d, ElemAddr(t.D, DStride(t), SIZEOF_ELEM, row, col)))
    else (row, col) => Get(d, ElemAddr(t.D, DStride(t), SIZEOF_ACC, row, col))
  }

  ghost predicate AInDram(d: Dram, t: Tile) {
    MatrixIn(d, t.A, t.strideA * SIZEOF_ELEM, SIZEOF_ELEM, t.AHeight(), t.AWidth())
  }

  ghost predicate BInDram(d: Dram, t: Tile) {
    MatrixIn(d, t.B, t.strideB * SIZEOF_ELEM, SIZEOF_ELEM, t.BHeight(), t.BWidth())
  }

  ghost predicate DInDram(d: Dram, t: Tile) {
    MatrixIn(d, t.D, DStride(t), SizeofD(t.lowD), t.Rows(), t.Cols())
  }

  function Everywhere(): (int, int) -> bool { (row, col) => true }

  // ---------- addresses ----------

  /** The A and B regions are disjoint, and both inside the scratchpad. */
  lemma Regions(t: GoodTile)
    ensures Fits(t.AView(), SPAD_ROWS) && Fits(t.BView(), SPAD_ROWS) && Fits(t.CView(), ACC_ROWS)
    ensures Apart(t.AView(), t.BView())
  {
    RegionSize(t.I, t.K);
    RegionSize(t.K, t.J);
    RegionSize(t.I, t.J);
  }

  lemma RegionSize(h: int, w: int)
    requires 0 < h && 0 < w
    ensures 0 < h * w * DIM == w * h * DIM
  {
    MulPos(h, w);
    MulPos(h * w, DIM);
  }

  /** A block address lies inside its view. */
  lemma BlockInView(v: View, memRows: int, i: int, j: int)
    requires Fits(v, memRows) && 0 <= i < v.H && 0 <= j < v.W
    ensures 0 <= (i * v.W + j) * DIM && v.base + (i * v.W + j) * DIM + DIM <= memRows
  {
    BlockRunFits(v, i, j, 1);
  }

  /** Pointer arithmetic on blocks: p + (i * stride + j) * DIM, in elements. */
  lemma BlockPointer(p: int, stride: int, size: int, i: int, j: int)
    ensures p + (i * stride + j) * DIM * size == ElemAddr(p, stride * size, size, i * DIM, j * DIM)
  {}

  lemma Positive(p: int, stride: int, size: int, i: int, j: int)
    requires p > 0 && stride >= 0 && size >= 0 && i >= 0 && j >= 0
    ensures ElemAddr(p, stride, size, i * DIM, j * DIM) > 0
  {}

  // ---------- move-in ----------

  lemma RowDone(m: Mem, v: View, f: (int, int) -> int, R: int, C: int, i: int)
    requires Filled(m, v, f, R, C, RowMajor(i, v.W)) && C <= v.W * DIM
    ensures Filled(m, v, f, R, C, RowMajor(i + 1, 0))
  {}

  lemma AllRowsDone(m: Mem, v: View, f: (int, int) -> int, R: int, C: int)
    requires Filled(m, v, f, R, C, RowMajor(v.H, 0)) && R <= v.H * DIM
    ensures Filled(m, v, f, R, C, Everywhere())
  {}

  ghost predicate DChannel(g: Gemmini, t: Tile, id: nat)
    reads g
  {
    id < 3 && |g.ld| == 3 && g.ld[id] == LoadConfig(DStride(t), t.scaleD, t.lowD, DIM)
  }

  function MaxDBlocks(t: Tile): int { if t.lowD then MAX_BLOCK_LEN else MAX_BLOCK_LEN_ACC }

  /** Move-in D to the accumulator, overwriting it; a repeating bias re-reads its one row. */
  method MoveInD(g: Gemmini, t: GoodTile, id: nat)
    requires g.Valid() && t.D != NULL && DInDram(g.dram, t) && DChannel(g, t, id)
    modifies g`spad, g`acc
    ensures g.Valid() && g.spad == old(g.spad)
    ensures Filled(g.acc, t.CView(), DVals(g.dram, t), t.Rows(), t.Cols(), Everywhere())
  {
    var dBlocks := if t.J <= MaxDBlocks(t) then t.J else MaxDBlocks(t);
    hide DInDram, DVals;
    var i := 0;
    while i < t.I
      invariant 0 <= i <= t.I && g.Valid() && g.spad == old(g.spad)
      invariant Filled(g.acc, t.CView(), DVals(g.dram, t), t.Rows(), t.Cols(), RowMajor(i, 0))
    {
      MoveInDRow(g, t, id, dBlocks, i);
      i := i + 1;
    }
    AllRowsDone(g.acc, t.CView(), DVals(g.dram, t), t.Rows(), t.Cols());
  }

  method MoveInDRow(g: Gemmini, t: GoodTile, id: nat, dBlocks: int, i: int)
    requires g.Valid() && t.D != NULL && DInDram(g.dram, t) && DChannel(g, t, id)
    requires 0 <= i < t.I && 0 < dBlocks <= MaxDBlocks(t)
    requires Filled(g.acc, t.CView(), DVals(g.dram, t), t.Rows(), t.Cols(), RowMajor(i, 0))
    modifies g`spad, g`acc
    ensures g.Valid() && g.spad == old(g.spad)
    ensures Filled(g.acc, t.CView(), DVals(g.dram, t), t.Rows(), t.Cols(), RowMajor(i + 1, 0))
  {
    hide DInDram, DVals;
    var j := 0;
    while j < t.J
      invariant 0 <= j <= t.J && g.Valid() && g.spad == old(g.spad)
      invariant Filled(g.acc, t.CView(), DVals(g.dram, t), t.Rows(), t.Cols(), RowMajor(i, j))
    {
      var blocks := if j + dBlocks <= t.J then dBlocks else t.J - j;
      MoveInDBlocks(g, t, id, i, j, blocks);
      j := j + blocks;
    }
    RowDone(g.acc, t.CView(), DVals(g.dram, t), t.Rows(), t.Cols(), i);
  }

  method MoveInDBlocks(g: Gemmini, t: GoodTile, id: nat, i: int, j: int, blocks: int)
    requires g.Valid() && t.D != NULL && DInDram(g.dram, t) && DChannel(g, t, id)
    requires 0 <= i < t.I && 0 <= j && 0 < blocks <= MaxDBlocks(t) && j + blocks <= t.J
    requires Filled(g.acc, t.CView(), DVals(g.dram, t), t.Rows(), t.Cols(), RowMajor(i, j))
    modifies g`spad, g`acc
    ensures g.Valid() && g.spad == old(g.spad)
    ensures Filled(g.acc, t.CView(), DVals(g.dram, t), t.Rows(), t.Cols(), RowMajor(i, j + blocks))
  {
    var biasRow := if t.repeatingBias then 0 else i;
    var p := t.D + (biasRow * t.strideD + j) * DIM * SizeofD(t.lowD);
    var row := (i * t.J + j) * DIM;
    var addr := 0x8000_0000 + row;
    var cols := blocks * DIM - (if j + blocks >= t.J then t.padJ else 0);
    var rows := DIM - (if i == t.I - 1 then t.padI else 0);
    Regions(t);
    BlockInView(t.CView(), ACC_ROWS, i, j);
    AccAddress(4, row);
    BiasPointer(t, i, j);
    BiasLoads(g.dram, g.ld[id], t, addr);
    RunEnd(t.J, t.padJ, j, blocks);
    RunEnd(t.I, t.padI, i, 1);
    hide LoadFn, LoadSize, DVals, DStride, ElemAddr, IsAcc, RowOf, Accumulates, Apart;
    MvinFill(g, id, p, addr, cols, rows, t.D, t.CView(), NOWHERE, i, j, blocks,
             DVals(g.dram, t), t.Rows(), t.Cols(), RowMajor(i, j), RowMajor(i, j + blocks));
  }

  /** What the load channel brings in is the bias. */
  lemma BiasLoads(d: Dram, ld: LoadConfig, t: Tile, addr: int)
    requires ld == LoadConfig(DStride(t), t.scaleD, t.lowD, DIM) && IsAcc(addr) && t.D != NULL
    ensures LoadSize(ld, addr) == SizeofD(t.lowD)
    ensures forall row, col :: LoadFn(d, ld, t.D, addr)(row, col) == DVals(d, t)(row, col)
  {
    hide IsAcc, ElemAddr, DStride;
  }

  lemma BiasPointer(t: GoodTile, i: int, j: int)
    requires t.D != NULL && 0 <= i && 0 <= j
    ensures var p := t.D + ((if t.repeatingBias then 0 else i) * t.strideD + j) * DIM * SizeofD(t.lowD);
      p != NULL && p == ElemAddr(t.D, DStride(t), SizeofD(t.lowD), i * DIM, j * DIM)
  {
    BlockPointer(t.D, t.strideD, SizeofD(t.lowD), if t.repeatingBias then 0 else i, j);
    MulLe(0, t.strideD, SizeofD(t.lowD));
    Positive(t.D, DStride(t), SizeofD(t.lowD), i, j);
  }

  // ---------- compute ----------

  function TileTerm(d: Dram, t: Tile, row: int, col: int): int -> int {
    k => AVals(d, t)(row, k) * BVals(d, t)(k, col)
  }

  /** The tile's own contribution to each cell. */
  function TileSum(d: Dram, t: Tile): (int, int) -> int {
    (row, col) => Sum(0, t.Depth(), TileTerm(d, t, row, col))
  }

  /** Elements of the shared dimension covered by the first k block columns of A. */
  function KEnd(t: Tile, k: int): int { if k >= t.K then t.Depth() else k * DIM }

  function BlockRows(t: Tile, i: int): int { DIM - (if i == t.I - 1 then t.padI else 0) }
  function BlockCols(t: Tile, j: int): int { DIM - (if j == t.J - 1 then t.padJ else 0) }
  function BlockDepth(t: Tile, k: int): int { DIM - (if k == t.K - 1 then t.padK else 0) }

  function ASp(t: Tile, i: int, k: int): int { 0 + (if t.transA then k * t.I + i else i * t.K + k) * DIM }
  function BSp(t: Tile, k: int, j: int): int {
    SPAD_ROWS - t.K * t.J * DIM + (if t.transB then j * t.K + k else k * t.J + j) * DIM
  }
  function CSp(t: Tile, i: int, j: int): int { CStart(t) + (i * t.J + j) * DIM }

  /** 3 << 30 | full_C << 29 */
  function CStart(t: Tile): int { 0xC000_0000 + (if t.fullC then 0x2000_0000 else 0) }

  /** The operands of one pass of the array: block (i, k) of A and block (k, j) of B. */
  function AOperand(spad: Mem, t: Tile, i: int, k: int): (int, int) -> int {
    FetchAs(spad, ASp(t, i, k), BlockRows(t, i), BlockDepth(t, k), t.transA)
  }

  function BOperand(spad: Mem, t: Tile, k: int, j: int): (int, int) -> int {
    FetchAs(spad, BSp(t, k, j), BlockDepth(t, k), BlockCols(t, j), t.transB)
  }

  /** Block (i, j), as stored, is among the cells in place. */
  ghost predicate Covers(done: (int, int) -> bool, i: int, j: int, rows: int, cols: int) {
    forall r, c :: i * DIM <= r < i * DIM + rows && j * DIM <= c < j * DIM + cols ==> done(r, c)
  }

  ghost predicate ACovered(t: Tile, done: (int, int) -> bool, i: int, k: int) {
    if t.transA then Covers(done, k, i, BlockDepth(t, k), BlockRows(t, i))
    else Covers(done, i, k, BlockRows(t, i), BlockDepth(t, k))
  }

  ghost predicate BCovered(t: Tile, done: (int, int) -> bool, k: int, j: int) {
    if t.transB then Covers(done, j, k, BlockCols(t, j), BlockDepth(t, k))
    else Covers(done, k, j, BlockDepth(t, k), BlockCols(t, j))
  }

  ghost predicate ALoaded(spad: Mem, d: Dram, t: Tile, done: (int, int) -> bool) {
    Filled(spad, t.AView(), AStored(d, t), t.AHeight(), t.AWidth(), done)
  }

  ghost predicate BLoaded(spad: Mem, d: Dram, t: Tile, done: (int, int) -> bool) {
    Filled(spad, t.BView(), BStored(d, t), t.BHeight(), t.BWidth(), done)
  }

  lemma StoredCell(m: Mem, v: View, f: (int, int) -> int, R: int, C: int, done: (int, int) -> bool, i: int, j: int,
                   rows: int, cols: int, r: int, c: int)
    requires Filled(m, v, f, R, C, done) && Covers(done, i, j, rows, cols)
    requires 0 <= r < rows <= DIM && 0 <= c < cols <= DIM
    requires 0 <= i && 0 <= j && i * DIM + rows <= R && j * DIM + cols <= C
    ensures Cell(m, v.base + (i * v.W + j) * DIM + r, c) == f(i * DIM + r, j * DIM + c)
  {
    ViewRowBlock(v.base, v.W, i, j, r, c);
    MulLe(0, i, DIM);
    MulLe(0, j, DIM);
    assert Val(m, v, i * DIM + r, j * DIM + c) == f(i * DIM + r, j * DIM + c);
  }

  lemma BlockExtents(t: GoodTile, i: int, j: int, k: int)
    requires 0 <= i < t.I && 0 <= j < t.J && 0 <= k < t.K
    ensures i * DIM + BlockRows(t, i) <= t.Rows() && j * DIM + BlockCols(t, j) <= t.Cols()
    ensures k * DIM + BlockDepth(t, k) <= t.Depth()
    ensures BlockRows(t, i) <= DIM && BlockCols(t, j) <= DIM && BlockDepth(t, k) <= DIM
  {
    RunEnd(t.I, t.padI, i, 1);
    RunEnd(t.J, t.padJ, j, 1);
    RunEnd(t.K, t.padK, k, 1);
  }

  lemma ATermAt(spad: Mem, d: Dram, t: GoodTile, done: (int, int) -> bool, i: int, k: int, r: int, kk: int)
    requires ALoaded(spad, d, t, done) && ACovered(t, done, i, k)
    requires 0 <= i < t.I && 0 <= k < t.K && 0 <= r < BlockRows(t, i) && 0 <= kk < BlockDepth(t, k)
    ensures AOperand(spad, t, i, k)(r, kk) == AVals(d, t)(i * DIM + r, k * DIM + kk)
  {
    BlockExtents(t, i, 0, k);
    BlockAddrs(t, i, 0, k);
    hide Filled, Covers, BlockRows, BlockDepth;
    if t.transA {
      StoredCell(spad, t.AView(), AStored(d, t), t.AHeight(), t.AWidth(), done, k, i, BlockDepth(t, k),
                 BlockRows(t, i), kk, r);
    } else {
      StoredCell(spad, t.AView(), AStored(d, t), t.AHeight(), t.AWidth(), done, i, k, BlockRows(t, i),
                 BlockDepth(t, k), r, kk);
    }
  }

  lemma BTermAt(spad: Mem, d: Dram, t: GoodTile, done: (int, int) -> bool, k: int, j: int, kk: int, c: int)
    requires BLoaded(spad, d, t, done) && BCovered(t, done, k, j)
    requires 0 <= k < t.K && 0 <= j < t.J && 0 <= kk < BlockDepth(t, k) && 0 <= c < BlockCols(t, j)
    ensures BOperand(spad, t, k, j)(kk, c) == BVals(d, t)(k * DIM + kk, j * DIM + c)
  {
    BlockExtents(t, 0, j, k);
    BlockAddrs(t, 0, j, k);
    hide Filled, Covers, BlockCols, BlockDepth;
    if t.transB {
      StoredCell(spad, t.BView(), BStored(d, t), t.BHeight(), t.BWidth(), done, j, k, BlockCols(t, j),
                 BlockDepth(t, k), c, kk);
    } else {
      StoredCell(spad, t.BView(), BStored(d, t), t.BHeight(), t.BWidth(), done, k, j, BlockDepth(t, k),
                 BlockCols(t, j), kk, c);
    }
  }

  /** The products of one block of the shared dimension. */
  function BlockSum(d: Dram, t: Tile, k: int): (int, int) -> int {
    (row, col) => Sum(KEnd(t, k), KEnd(t, k + 1), TileTerm(d, t, row, col))
  }

  /** One pass through the array adds exactly one block's worth of products: what lies beyond a
      ragged last block is multiplied by zeros of A. */
  lemma MacBlock(a: (int, int) -> int, b: (int, int) -> int, d: Dram, t: GoodTile, i: int, j: int, k: int, r: int,
                 c: int)
    requires 0 <= k < t.K
    requires forall kk :: 0 <= kk < BlockDepth(t, k) ==>
               a(r, kk) == AVals(d, t)(i * DIM + r, k * DIM + kk) && b(kk, c) == BVals(d, t)(k * DIM + kk, j * DIM + c)
    requires forall kk :: BlockDepth(t, k) <= kk < DIM ==> a(r, kk) == 0
    ensures Mac(a, b, r, c) == BlockSum(d, t, k)(i * DIM + r, j * DIM + c)
  {
    hide *;
    MacTerms(a, b, d, t, i, j, k, r, c);
    MacSums(a, b, d, t, k, r, c, i * DIM + r, j * DIM + c);
    KEndStep(t, k);
    MacSplit(MacTerm(a, b, r, c), BlockDepth(t, k));
    SumOfBlock(MacTerm(a, b, r, c), TileTerm(d, t, i * DIM + r, j * DIM + c), k, BlockDepth(t, k));
  }

  lemma MacSums(a: (int, int) -> int, b: (int, int) -> int, d: Dram, t: Tile, k: int, r: int, c: int, row: int,
                col: int)
    ensures Mac(a, b, r, c) == Sum(0, DIM, MacTerm(a, b, r, c))
    ensures BlockSum(d, t, k)(row, col) == Sum(KEnd(t, k), KEnd(t, k + 1), TileTerm(d, t, row, col))
  {
    hide KEnd, TileTerm, MacTerm;
  }

  lemma MacTerms(a: (int, int) -> int, b: (int, int) -> int, d: Dram, t: GoodTile, i: int, j: int, k: int, r: int,
                 c: int)
    requires forall kk :: 0 <= kk < BlockDepth(t, k) ==>
               a(r, kk) == AVals(d, t)(i * DIM + r, k * DIM + kk) && b(kk, c) == BVals(d, t)(k * DIM + kk, j * DIM + c)
    requires forall kk :: BlockDepth(t, k) <= kk < DIM ==> a(r, kk) == 0
    ensures forall kk :: 0 <= kk < BlockDepth(t, k) ==>
              MacTerm(a, b, r, c)(kk) == TileTerm(d, t, i * DIM + r, j * DIM + c)(kk + k * DIM)
    ensures forall kk :: BlockDepth(t, k) <= kk < DIM ==> MacTerm(a, b, r, c)(kk) == 0
  {
    hide AVals, BVals, BlockDepth;
  }

  lemma MacSplit(f: int -> int, n: int)
    requires 0 <= n <= DIM && forall kk :: n <= kk < DIM ==> f(kk) == 0
    ensures Sum(0, DIM, f) == Sum(0, n, f)
  {
    SumSplit(0, n, DIM, f);
    SumZero(n, DIM, f);
  }

  lemma SumOfBlock(f: int -> int, h: int -> int, k: int, n: int)
    requires forall kk :: 0 <= kk < n ==> f(kk) == h(kk + k * DIM)
    ensures Sum(0, n, f) == Sum(k * DIM, k * DIM + n, h)
  {
    SumShift(0, n, k * DIM, f, h);
  }

  lemma KEndStep(t: GoodTile, k: int)
    requires 0 <= k < t.K
    ensures KEnd(t, k + 1) == k * DIM + BlockDepth(t, k)
    ensures KEnd(t, k) == k * DIM && 0 < BlockDepth(t, k) <= DIM
  {}

  lemma KEndSplit(t: GoodTile, k: int, f: int -> int)
    requires 0 <= k < t.K
    ensures Sum(0, KEnd(t, k), f) + Sum(KEnd(t, k), KEnd(t, k + 1), f) == Sum(0, KEnd(t, k + 1), f)
    ensures KEnd(t, 0) == 0 && KEnd(t, t.K) == t.Depth()
  {
    KEndStep(t, k);
    MulLe(0, k, DIM);
    SumSplit(0, KEnd(t, k), KEnd(t, k + 1), f);
  }

  /** The first products of an unbiased tile replace what the accumulator holds. */
  predicate Replaces(t: Tile) { t.noBias && t.D != NULL }

  /** Address of the results of block (i, j): full width if asked for, accumulating unless they
      replace what is there. */
  function OutAddr(t: Tile, replace: bool, i: int, j: int): int {
    if replace then ClearAccumulate(CSp(t, i, j)) else CSp(t, i, j)
  }

  lemma OutFlags(t: Tile, row: int)
    requires 0 <= row < ADDR_ROWS - 1
    ensures var c := CStart(t) + row;
      && IsAcc(c) && RowOf(c) == row && (FullWidth(c) <==> t.fullC) && Accumulates(c) && c != GARBAGE_ADDR
      && IsAcc(ClearAccumulate(c)) && RowOf(ClearAccumulate(c)) == row
      && !Accumulates(ClearAccumulate(c)) && ClearAccumulate(c) != GARBAGE_ADDR
  {
    var full := if t.fullC then 1 else 0;
    AccAddress(6 + full, row);
    AccAddress(4 + full, row);
  }

  lemma OutAddrFields(t: GoodTile, replace: bool, i: int, j: int)
    requires 0 <= i < t.I && 0 <= j < t.J
    ensures var row, c := (i * t.J + j) * DIM, OutAddr(t, replace, i, j);
      && IsAcc(c) && RowOf(c) == row && c != GARBAGE_ADDR && (Accumulates(c) <==> !replace)
      && IsAcc(CSp(t, i, j)) && RowOf(CSp(t, i, j)) == row && (FullWidth(CSp(t, i, j)) <==> t.fullC)
      && 0 <= row && row + DIM <= ACC_ROWS
  {
    Regions(t);
    BlockInView(t.CView(), ACC_ROWS, i, j);
    OutFlags(t, (i * t.J + j) * DIM);
    hide IsAcc, RowOf, Accumulates, FullWidth, CStart, ClearAccumulate;
  }

  lemma BlockAddrs(t: GoodTile, i: int, j: int, k: int)
    requires 0 <= i < t.I && 0 <= j < t.J && 0 <= k < t.K
    ensures 0 <= ASp(t, i, k) && ASp(t, i, k) + DIM <= SPAD_ROWS && ASp(t, i, k) != GARBAGE_ADDR
    ensures 0 <= BSp(t, k, j) && BSp(t, k, j) + DIM <= SPAD_ROWS && BSp(t, k, j) != GARBAGE_ADDR
    ensures 0 < BlockRows(t, i) <= DIM && 0 < BlockCols(t, j) <= DIM && 0 < BlockDepth(t, k) <= DIM
  {
    Regions(t);
    if t.transA { BlockInView(t.AView(), SPAD_ROWS, k, i); } else { BlockInView(t.AView(), SPAD_ROWS, i, k); }
    if t.transB { BlockInView(t.BView(), SPAD_ROWS, j, k); } else { BlockInView(t.BView(), SPAD_ROWS, k, j); }
  }

  /** Writing out block (i, j) adds what the array holds to it, or puts it in place. */
  lemma WriteOutBlock(acc: Mem, pe: Mem, t: GoodTile, i: int, j: int, ex: ExConfig, pre: PreloadRegs, replace: bool,
                      f: (int, int) -> int)
    requires Shape(acc, ACC_ROWS) && ex.sysShift == 0 && 0 <= i < t.I && 0 <= j < t.J
    requires forall r, c :: 0 <= r < BlockRows(t, i) && 0 <= c < BlockCols(t, j) ==>
               Cell(pe, r, c) == f(i * DIM + r, j * DIM + c)
    requires pre.c == OutAddr(t, replace, i, j) && pre.cRows == BlockRows(t, i) && pre.cCols == BlockCols(t, j)
    ensures Moved(acc, WriteOut(acc, ACC_ROWS, pe, ex, pre), t.CView(), i, j, BlockRows(t, i), BlockCols(t, j),
                  !replace, f)
  {
    hide *;
    WriteOutView(acc, pe, t, i, j, ex, pre, replace);
    OutValues(pe, t, i, j, ex, pre.c, f);
    BlockMoved(acc, ACC_ROWS, t.CView(), i, j, 1, pre.cRows, pre.cCols, !replace, OutFn(pe, ex, pre.c), f);
  }

  /** The write-out of block (i, j), as a transfer to its place in the view. */
  lemma WriteOutView(acc: Mem, pe: Mem, t: GoodTile, i: int, j: int, ex: ExConfig, pre: PreloadRegs, replace: bool)
    requires Shape(acc, ACC_ROWS) && 0 <= i < t.I && 0 <= j < t.J
    requires pre.c == OutAddr(t, replace, i, j) && pre.cRows == BlockRows(t, i) && pre.cCols == BlockCols(t, j)
    ensures var v := t.CView();
      && IsAcc(pre.c) && Fits(v, ACC_ROWS) && j + 1 <= v.W && 0 <= pre.cRows <= DIM && pre.cCols <= 1 * DIM
      && WriteOut(acc, ACC_ROWS, pe, ex, pre)
         == BlockWrite(acc, ACC_ROWS, v.base + (i * v.W + j) * DIM, DIM, pre.cRows, pre.cCols, !replace,
                       OutFn(pe, ex, pre.c))
      && ACC_ROWS >= 0
  {
    assert 0 < t.K && ACC_ROWS >= 0;
    hide *;
    OutAddrFields(t, replace, i, j);
    CViewIs(t);
    BlockAddrs(t, i, j, 0);
    WriteOutIs(acc, pe, ex, pre);
  }

  lemma CViewIs(t: GoodTile)
    ensures t.CView().base == 0 && t.CView().H == t.I && t.CView().W == t.J && Fits(t.CView(), ACC_ROWS)
  {
    Regions(t);
  }

  lemma WriteOutIs(acc: Mem, pe: Mem, ex: ExConfig, pre: PreloadRegs)
    requires Shape(acc, ACC_ROWS) && IsAcc(pre.c)
    ensures WriteOut(acc, ACC_ROWS, pe, ex, pre)
         == BlockWrite(acc, ACC_ROWS, RowOf(pre.c), DIM, pre.cRows, pre.cCols, Accumulates(pre.c), OutFn(pe, ex, pre.c))
  {
    hide BlockWrite, OutFn, RowOf, IsAcc, Accumulates, Shape;
  }

  lemma OutValues(pe: Mem, t: GoodTile, i: int, j: int, ex: ExConfig, c: int, f: (int, int) -> int)
    requires ex.sysShift == 0 && IsAcc(c)
    requires forall r, c :: 0 <= r < BlockRows(t, i) && 0 <= c < BlockCols(t, j) ==>
               Cell(pe, r, c) == f(i * DIM + r, j * DIM + c)
    ensures forall row, col :: Inside(i, j, BlockRows(t, i), BlockCols(t, j), row, col) ==>
              OutFn(pe, ex, c)(row - i * DIM, col - j * DIM) == f(row, col)
  {
    forall row, col | Inside(i, j, BlockRows(t, i), BlockCols(t, j), row, col)
      ensures OutFn(pe, ex, c)(row - i * DIM, col - j * DIM) == f(row, col)
    {
      assert Cell(pe, row - i * DIM, col - j * DIM) == f(i * DIM + (row - i * DIM), j * DIM + (col - j * DIM));
    }
  }

  lemma StillLoaded(m: Mem, m': Mem, v: View, f: (int, int) -> int, R: int, C: int, done: (int, int) -> bool)
    requires Filled(m, v, f, R, C, done) && Same(m, m', v) && R <= v.H * DIM && C <= v.W * DIM
    ensures Filled(m', v, f, R, C, done)
  {}

  // ---------- what the call leaves ----------

  function SizeC(t: Tile): int { SizeofC(t.fullC) }

  /** The tile's results as they leave the accumulator. */
  function OutVals(acc: Mem, ex: ExConfig, t: Tile): (int, int) -> int {
    (row, col) => if t.fullC then Val(acc, t.CView(), row, col)
                  else ScaleAndSat(Val(acc, t.CView(), row, col), ex.act, ex.accScale, ex.relu6Shift)
  }

  /** The store stride is that of C, and the tile's part of C is in DRAM. */
  ghost predicate COk(stStride: int, d0: Dram, t: Tile) {
    && stStride == t.strideC * SizeC(t) && t.strideC >= t.Cols()
    && MatrixIn(d0, t.C, t.strideC * SizeC(t), SizeC(t), t.Rows(), t.Cols())
  }

  /** Where block (i, j) of the results lies, in the accumulator and in DRAM. */
  lemma OutPlace(t: GoodTile, i: int, j: int, p: int)
    requires 0 <= i < t.I && 0 <= j < t.J && p == t.C + (i * t.strideC + j) * DIM * SizeC(t)
    ensures var addr := CSp(t, i, j);
      && p == ElemAddr(t.C, t.strideC * SizeC(t), StoreSize(addr), i * DIM, j * DIM) && StoreSize(addr) == SizeC(t)
      && IsAcc(addr) && (FullWidth(addr) <==> t.fullC) && Fits(t.CView(), RowsIn(addr))
      && RowOf(addr) == t.CView().base + (i * t.CView().W + j) * DIM && t.CView().H == t.I && t.CView().W == t.J
  {
    hide IsAcc, RowOf, FullWidth, StoreSize, CSp, ElemAddr, Fits, Accumulates;
    OutAddrFields(t, false, i, j);
    CViewIs(t);
    BlockPointer(t.C, t.strideC, SizeC(t), i, j);
    SizeOfC(t, CSp(t, i, j));
  }

  lemma StrideFits(t: GoodTile, stStride: int, d0: Dram)
    requires COk(stStride, d0, t)
    ensures stStride == t.strideC * SizeC(t) && t.Cols() * SizeC(t) <= stStride
    ensures MatrixIn(d0, t.C, stStride, SizeC(t), t.Rows(), t.Cols())
  {
    hide MatrixIn;
    MulLe(t.Cols(), t.strideC, SizeC(t));
  }

  lemma SizeOfC(t: Tile, addr: int)
    requires IsAcc(addr) && (FullWidth(addr) <==> t.fullC)
    ensures StoreSize(addr) == SizeC(t)
  {}

  /** What a result cell starts from: bias, nothing, or what earlier tiles left there. */
  function Before(acc0: Mem, d: Dram, t: Tile, row: int, col: int): int {
    if t.D == NULL then Val(acc0, t.CView(), row, col)
    else if t.noBias then 0
    else DVals(d, t)(row, col)
  }

  ghost predicate TileResult(acc0: Mem, acc: Mem, d: Dram, t: Tile) {
    forall row, col :: 0 <= row < t.Rows() && 0 <= col < t.Cols() ==>
      Val(acc, t.CView(), row, col) == Before(acc0, d, t, row, col) + TileSum(d, t)(row, col)
  }}
