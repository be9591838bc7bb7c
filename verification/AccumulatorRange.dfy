/** What the array and the accumulator hold during a tiled multiply on narrow operands fits in 32 bits,
    so that the machine, which works on integers, computes what 32-bit registers compute. */
module AccumulatorRange {
  import opened Accelerator
  import opened Arith
  import Config
  import opened LocalMemory
  import opened MatmulOs
  import opened MatmulOuter
  import opened MatmulSpec
  import opened MatmulTile
  import opened MatmulWs
  import opened Overflow
  import opened Sums
  import opened Transfers

  predicate InInt32(x: int) { -0x8000_0000 <= x < 0x8000_0000 }

  lemma ReachBounds(s: GoodSplit, n: int)
    requires 0 <= n <= s.Count()
    ensures 0 <= s.Reach(n) <= s.dim
  {
    if n < s.Count() { SplitTile(s, n); }
    hide Split.Count, Split.Lo, Split.Last, Split.Padding;
  }

  /** Between two inner calls every accumulator cell is an int32. */
  lemma AccInRange(z: GoodPlan, acc: Mem, i0: int, j0: int, k0: int, row: int, col: int)
    requires Narrow(z.q.d, z.q.p) && AccHolds(z, acc, i0, j0, k0)
    requires 0 <= i0 < z.sI.Count() && 0 <= j0 < z.sJ.Count() && 0 <= k0 <= z.sK.Count()
    requires 0 <= row < z.sI.Len(i0) && 0 <= col < z.sJ.Len(j0)
    ensures InInt32(Val(acc, AccView(z, i0, j0), row, col))
  {
    SplitTile(z.sI, i0);
    SplitTile(z.sJ, j0);
    ReachBounds(z.sK, k0);
    PlanDims(z);
    HeldAt(z, acc, i0, j0, k0, row, col);
    hide *;
    PartialInRange(z, z.sI.Lo(i0) + row, z.sJ.Lo(j0) + col, z.sK.Reach(k0));
  }

  lemma PlanDims(z: GoodPlan)
    ensures z.sI.dim == z.q.p.dimI && z.sJ.dim == z.q.p.dimJ && z.sK.dim == z.q.p.dimK
  {
    hide WellPlaced;
  }

  lemma PartialInRange(z: GoodPlan, i: int, j: int, k: int)
    requires Narrow(z.q.d, z.q.p) && 0 <= i < z.q.p.dimI && 0 <= j < z.q.p.dimJ && 0 <= k <= z.q.p.dimK
    ensures InInt32(Partial(z.q.d, z.q.p, i, j, k))
  {
    hide Narrow, Partial;
    NoOverflow(z.q.d, z.q.p, i, j, 0, k);
  }

  /** The first n blocks of a tile's products are a slice of the layer's. */
  lemma TileSlice(z: GoodPlan, d: Dram, i0: int, j0: int, k0: int, row: int, col: int, n: int)
    requires InGrid(z, i0, j0, k0) && OnlyC(z, d)
    requires 0 <= row < z.sI.Len(i0) && 0 <= col < z.sJ.Len(j0) && 0 <= n <= TileOf(z, i0, j0, k0).K
    ensures var t, lo := TileOf(z, i0, j0, k0), z.sK.Lo(k0);
      && 0 <= KEnd(t, n) <= t.Depth() && 0 <= lo && lo + KEnd(t, n) <= z.q.p.dimK
      && Sum(0, KEnd(t, n), TileTerm(d, t, row, col))
         == Sum(lo, lo + KEnd(t, n), Term(z.q.d, z.q.p, z.sI.Lo(i0) + row, z.sJ.Lo(j0) + col))
  {
    var t, lo := TileOf(z, i0, j0, k0), z.sK.Lo(k0);
    hide *;
    TileIsGood(z, i0, j0, k0);
    KEndBounds(t, n);
    TileExtents(z, i0, j0, k0);
    TileTermsAre(z, d, i0, j0, k0, row, col, t);
    SumShift(0, KEnd(t, n), lo, TileTerm(d, t, row, col), Term(z.q.d, z.q.p, z.sI.Lo(i0) + row, z.sJ.Lo(j0) + col));
  }

  lemma KEndBounds(t: GoodTile, n: int)
    requires 0 <= n <= t.K
    ensures 0 <= KEnd(t, n) <= t.Depth()
  {
    KEndStep(t, if n > 0 then n - 1 else 0);
    BlockExtents(t, 0, 0, if n > 0 then n - 1 else 0);
    MulLe(0, if n > 0 then n - 1 else 0, Config.DIM);
    hide KEnd, BlockDepth, BlockRows, BlockCols;
  }

  /** Output-stationary: so is every cell of the array, after each of its passes. */
  lemma PeInRange(z: GoodPlan, d: Dram, pe: Mem, i0: int, j0: int, k0: int, i: int, j: int, n: int, r: int, c: int)
    requires Narrow(z.q.d, z.q.p) && InGrid(z, i0, j0, k0) && OnlyC(z, d)
    requires var t := TileOf(z, i0, j0, k0);
      && 0 <= i < t.I && 0 <= j < t.J && 0 <= n <= t.K && PeHolds(pe, d, t, i, j, n)
      && 0 <= r < BlockRows(t, i) && 0 <= c < BlockCols(t, j)
    ensures InInt32(Cell(pe, r, c))
  {
    var t := TileOf(z, i0, j0, k0);
    hide *;
    TileIsGood(z, i0, j0, k0);
    CellInTile(t, i, j, r, c);
    TileExtents(z, i0, j0, k0);
    PeAt(pe, d, t, i, j, n, r, c);
    TileSlice(z, d, i0, j0, k0, i * Config.DIM + r, j * Config.DIM + c, n);
    SliceInRange(z, i0, j0, k0, i * Config.DIM + r, j * Config.DIM + c, n);
  }

  lemma PeAt(pe: Mem, d: Dram, t: Tile, i: int, j: int, n: int, r: int, c: int)
    requires PeHolds(pe, d, t, i, j, n) && 0 <= r < BlockRows(t, i) && 0 <= c < BlockCols(t, j)
    ensures Cell(pe, r, c) == Sum(0, KEnd(t, n), TileTerm(d, t, i * Config.DIM + r, j * Config.DIM + c))
  {}

  lemma CellInTile(t: GoodTile, i: int, j: int, r: int, c: int)
    requires 0 <= i < t.I && 0 <= j < t.J && 0 <= r < BlockRows(t, i) && 0 <= c < BlockCols(t, j)
    ensures 0 <= i * Config.DIM + r < t.Rows() && 0 <= j * Config.DIM + c < t.Cols()
  {
    BlockExtents(t, i, j, 0);
    MulLe(0, i, Config.DIM);
    MulLe(0, j, Config.DIM);
  }

  lemma SliceInRange(z: GoodPlan, i0: int, j0: int, k0: int, row: int, col: int, n: int)
    requires Narrow(z.q.d, z.q.p) && InGrid(z, i0, j0, k0)
    requires 0 <= row < z.sI.Len(i0) && 0 <= col < z.sJ.Len(j0)
    requires var t, lo := TileOf(z, i0, j0, k0), z.sK.Lo(k0);
      0 <= KEnd(t, n) && 0 <= lo && lo + KEnd(t, n) <= z.q.p.dimK
    ensures var t, lo := TileOf(z, i0, j0, k0), z.sK.Lo(k0);
      InInt32(Sum(lo, lo + KEnd(t, n), Term(z.q.d, z.q.p, z.sI.Lo(i0) + row, z.sJ.Lo(j0) + col)))
  {
    SplitTile(z.sI, i0);
    SplitTile(z.sJ, j0);
    PlanDims(z);
    hide Narrow, Partial, Term, Sum, KEnd, Split.Lo, Split.Len, Split.Reach, TileOf;
    NoOverflow(z.q.d, z.q.p, z.sI.Lo(i0) + row, z.sJ.Lo(j0) + col, z.sK.Lo(k0),
               z.sK.Lo(k0) + KEnd(TileOf(z, i0, j0, k0), n));
  }

  /** What a tile's cells start from once its bias is in: bias, or what the earlier tiles left. */
  ghost predicate Based(z: GoodPlan, acc1: Mem, i0: int, j0: int, k0: int, row: int, col: int)
    requires InGrid(z, i0, j0, k0)
  {
    Replaces(TileOf(z, i0, j0, k0))
    || Val(acc1, AccView(z, i0, j0), row, col)
       == Partial(z.q.d, z.q.p, z.sI.Lo(i0) + row, z.sJ.Lo(j0) + col, z.sK.Lo(k0))
  }

  /** Weight-stationary: an accumulator cell after each block of the shared dimension is the layer's
      partial sum up to there. */
  lemma PassIs(z: GoodPlan, d: Dram, acc1: Mem, i0: int, j0: int, k0: int, row: int, col: int, n: int, t: Tile)
    requires InGrid(z, i0, j0, k0) && OnlyC(z, d) && t == TileOf(z, i0, j0, k0)
    requires 0 <= row < z.sI.Len(i0) && 0 <= col < z.sJ.Len(j0) && 0 < n <= t.K
    requires Based(z, acc1, i0, j0, k0, row, col)
    ensures CellAfter(acc1, d, t, row, col, n)
         == Partial(z.q.d, z.q.p, z.sI.Lo(i0) + row, z.sJ.Lo(j0) + col, z.sK.Lo(k0) + KEnd(t, n))
  {
    hide *;
    TileSlice(z, d, i0, j0, k0, row, col, n);
    TileViewIs(z, i0, j0, k0);
    BaseIs(z, acc1, i0, j0, k0, row, col);
    CellAfterIs(acc1, d, t, row, col, n);
    PartialSplit(z, z.sI.Lo(i0) + row, z.sJ.Lo(j0) + col, z.sK.Lo(k0), z.sK.Lo(k0) + KEnd(t, n));
  }

  /** So it is an int32. */
  lemma PassInRange(z: GoodPlan, d: Dram, acc1: Mem, i0: int, j0: int, k0: int, row: int, col: int, n: int, t: Tile)
    requires Narrow(z.q.d, z.q.p) && InGrid(z, i0, j0, k0) && OnlyC(z, d) && t == TileOf(z, i0, j0, k0)
    requires 0 <= row < z.sI.Len(i0) && 0 <= col < z.sJ.Len(j0) && 0 < n <= t.K
    requires Based(z, acc1, i0, j0, k0, row, col)
    ensures InInt32(CellAfter(acc1, d, t, row, col, n))
  {
    hide *;
    PassIs(z, d, acc1, i0, j0, k0, row, col, n, t);
    CellPlace(z, i0, j0, row, col, k0);
    TileSlice(z, d, i0, j0, k0, row, col, n);
    PartialInRange(z, z.sI.Lo(i0) + row, z.sJ.Lo(j0) + col, z.sK.Lo(k0) + KEnd(t, n));
  }

  lemma CellPlace(z: GoodPlan, i0: int, j0: int, row: int, col: int, k0: int)
    requires InGrid(z, i0, j0, k0) && 0 <= row < z.sI.Len(i0) && 0 <= col < z.sJ.Len(j0)
    ensures 0 <= z.sI.Lo(i0) + row < z.q.p.dimI && 0 <= z.sJ.Lo(j0) + col < z.q.p.dimJ
  {
    SplitTile(z.sI, i0);
    SplitTile(z.sJ, j0);
    PlanDims(z);
    hide Split.Lo, Split.Len, Split.Reach, Plan.Ok;
  }

  lemma CellAfterIs(acc1: Mem, d: Dram, t: Tile, row: int, col: int, n: int)
    requires n > 0
    ensures CellAfter(acc1, d, t, row, col, n)
         == (if Replaces(t) then 0 else Val(acc1, t.CView(), row, col)) + Sum(0, KEnd(t, n), TileTerm(d, t, row, col))
  {}

  lemma PartialSplit(z: GoodPlan, i: int, j: int, lo: int, hi: int)
    requires 0 <= lo <= hi
    ensures Partial(z.q.d, z.q.p, i, j, hi)
         == Partial(z.q.d, z.q.p, i, j, lo) + Sum(lo, hi, Term(z.q.d, z.q.p, i, j))
  {
    SumSplit(0, lo, hi, Term(z.q.d, z.q.p, i, j));
  }

  lemma BaseIs(z: GoodPlan, acc1: Mem, i0: int, j0: int, k0: int, row: int, col: int)
    requires InGrid(z, i0, j0, k0) && Based(z, acc1, i0, j0, k0, row, col)
    ensures (if Replaces(TileOf(z, i0, j0, k0)) then 0 else Val(acc1, AccView(z, i0, j0), row, col))
         == Partial(z.q.d, z.q.p, z.sI.Lo(i0) + row, z.sJ.Lo(j0) + col, z.sK.Lo(k0))
  {
    PreIsNull(z, i0, j0, k0);
    LoZero(z.sK);
    hide TileOf, Term, Val, Split.Lo, WellPlaced;
  }
}
