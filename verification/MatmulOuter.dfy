/** tiled_matmul_outer: the loop over tiles, and its meaning as one multiply. */
module MatmulOuter {
  import opened Accelerator
  import opened Arith
  import opened Config
  import opened LocalMemory
  import opened MatmulOs
  import opened MatmulSpec
  import opened MatmulTile
  import opened MatmulWs
  import opened Quantize
  import opened Sums
  import opened Transfers

  /** A dimension of `dim` elements cut into tiles of `tile` blocks. */
  datatype Split = Split(dim: int, tile: int) {
    function Padded(): int { CeilDiv(dim, DIM) * DIM }
    function Count(): int
      requires tile > 0
    {
      PosMul(tile);
      CeilDiv(Padded(), tile * DIM)
    }
    function Last(): int
      requires tile > 0
    {
      PosMul(tile);
      if Padded() % (tile * DIM) == 0 then tile else Padded() / DIM % tile
    }
    function Padding(): int { Padded() - dim }

    /** The tiling factors tiled_matmul accepts for this dimension. */
    ghost predicate Ok() { 0 < tile && 0 < dim && tile * DIM <= Padded() }

    function Blocks(n: int): int
      requires tile > 0
    { if n < Count() - 1 then tile else Last() }
    function Pad(n: int): int
      requires tile > 0
    { if n == Count() - 1 then Padding() else 0 }
    function Lo(n: int): int { n * tile * DIM }
    function Len(n: int): int
      requires tile > 0
    { Blocks(n) * DIM - Pad(n) }

    /** First element past the first n tiles. */
    function Reach(n: int): int
      requires tile > 0
    { if n >= Count() then dim else Lo(n) }
  }

  lemma PosMul(tile: int)
    ensures tile > 0 ==> tile * DIM > 0
  {}

  type GoodSplit = s: Split | s.Ok() ghost witness (SplitWitness(); Split(1, 1))

  lemma SplitWitness()
    ensures Split(1, 1).Ok()
  {}

  /** The tiles are as many as needed, the last one holds what is left, and only it is padded. */
  lemma SplitShape(s: GoodSplit)
    ensures var nb := CeilDiv(s.dim, DIM);
      && nb >= s.tile
      && s.Count() == CeilDiv(nb, s.tile) >= 1
      && (s.Count() - 1) * s.tile + s.Last() == nb
      && 1 <= s.Last() <= s.tile
      && 0 <= s.Padding() < DIM
  {
    assert s.tile > 0;
    hide *;
    SplitBounds(s);
    CountIs(s);
    LastIs(s);
    LastTile(CeilDiv(s.dim, DIM), s.tile);
  }

  lemma SplitBounds(s: GoodSplit)
    ensures CeilDiv(s.dim, DIM) >= s.tile && 0 <= s.Padding() < DIM
  {
    var nb := CeilDiv(s.dim, DIM);
    Distribute(nb, -1, DIM);
    hide CeilDiv;
    if nb < s.tile { MulLt(nb, s.tile, DIM); }
  }

  lemma CountIs(s: GoodSplit)
    ensures s.Count() == CeilDiv(CeilDiv(s.dim, DIM), s.tile)
  {
    hide CeilDiv;
    CeilDivScale(CeilDiv(s.dim, DIM), s.tile, DIM);
  }

  lemma LastIs(s: GoodSplit)
    ensures var nb := CeilDiv(s.dim, DIM); s.Last() == if nb % s.tile == 0 then s.tile else nb % s.tile
  {
    var nb := CeilDiv(s.dim, DIM);
    hide CeilDiv;
    ModScale(nb, s.tile, DIM);
    DivUnique(nb * DIM, DIM, nb);
    ZeroProduct(nb % s.tile, DIM);
  }

  lemma ZeroProduct(a: int, b: int)
    requires b > 0
    ensures a * b == 0 <==> a == 0
  {}

  lemma LastTile(nb: int, tile: int)
    requires 0 < tile <= nb
    ensures var last := if nb % tile == 0 then tile else nb % tile;
      && CeilDiv(nb, tile) >= 1
      && (CeilDiv(nb, tile) - 1) * tile + last == nb
      && 1 <= last <= tile
  {}

  /** Tile n covers the elements from Lo(n) up to Reach(n + 1), a non-empty range. */
  lemma SplitTile(s: GoodSplit, n: int)
    requires 0 <= n < s.Count()
    ensures 1 <= s.Blocks(n) <= s.tile && 0 <= s.Pad(n) < DIM
    ensures 0 <= s.Lo(n) && s.Lo(n) + s.Len(n) == s.Reach(n + 1) <= s.dim && 0 < s.Len(n)
    ensures s.Lo(n) == s.Reach(n)
  {
    SplitShape(s);
    TileExtent(CeilDiv(s.dim, DIM), s.Count(), s.tile, s.Last(), n, s.dim);
    hide CeilDiv;
  }

  lemma TileExtent(nb: int, c: int, tile: int, last: int, n: int, dim: int)
    requires 0 <= n < c && (c - 1) * tile + last == nb && 1 <= last <= tile
    requires (nb - 1) * DIM < dim <= nb * DIM
    ensures var blocks, pad := if n < c - 1 then tile else last, if n == c - 1 then nb * DIM - dim else 0;
      && 0 <= n * tile * DIM
      && n * tile * DIM + (blocks * DIM - pad) == (if n + 1 >= c then dim else (n + 1) * tile * DIM) <= dim
      && 0 < blocks * DIM - pad
  {
    MulLe(0, n, tile);
    MulLe(0, n * tile, DIM);
    if n < c - 1 {
      MulLe(n + 1, c - 1, tile);
      MulLe((n + 1) * tile, nb - 1, DIM);
      MulLe(1, tile, DIM);
      Distribute(n, 1, tile);
      Distribute(n * tile, tile, DIM);
    } else {
      MulLe(1, last, DIM);
      Distribute(n * tile, last, DIM);
    }
  }

  // ---------- one tile of the multiply ----------

  /** The output-stationary functions neither transpose nor read a narrow bias. */
  predicate Supported(p: Args, dataflow: int) {
    dataflow == OUTPUT_STATIONARY ==> !p.transA && !p.transB && (p.lowD ==> p.D == NULL)
  }

  /** A multiply on well-placed matrices with tiling factors that tiled_matmul accepts. */
  datatype Plan = Plan(q: Problem, sI: GoodSplit, sJ: GoodSplit, sK: GoodSplit, dataflow: int) {
    ghost predicate Ok() {
      && WellPlaced(q.d, q.p) && Supported(q.p, dataflow) && dataflow in {OUTPUT_STATIONARY, WEIGHT_STATIONARY}
      && sI.dim == q.p.dimI && sJ.dim == q.p.dimJ && sK.dim == q.p.dimK
      && sI.tile * sJ.tile * DIM <= ACC_ROWS
      && sI.tile * sK.tile * DIM + sK.tile * sJ.tile * DIM <= SPAD_ROWS
    }
  }

  type GoodPlan = z: Plan | z.Ok() ghost witness PlanWitness()

  ghost function PlanWitness(): (z: Plan)
    ensures z.Ok()
  {
    SplitWitness();
    WitnessPlaced();
    var s: GoodSplit := Split(1, 1);
    Plan(Problem(map[1 := 0, 2 := 0, 3 := 0], WitnessArgs()), s, s, s, OUTPUT_STATIONARY)
  }

  function WitnessArgs(): Args {
    Args(false, false, 1, 1, 1, 1, 2, 0, 3, 1, 1, 1, 1, x => x, x => x, x => x, 0, x => x, 0, false, false, false)
  }

  lemma WitnessPlaced()
    ensures WellPlaced(map[1 := 0, 2 := 0, 3 := 0], WitnessArgs())
  {
    var p := WitnessArgs();
    forall i, k | 0 <= i < 1 && 0 <= k < 1 ensures AAddr(p, i, k) == 1 {}
    forall k, j | 0 <= k < 1 && 0 <= j < 1 ensures BAddr(p, k, j) == 2 {}
    forall i, j | 0 <= i < 1 && 0 <= j < 1 ensures CAddr(p, i, j) == 3 {}
    WitnessC(1);
    WitnessC(2);
    hide AAddr, BAddr, CAddr, InC;
  }

  lemma WitnessC(a: int)
    ensures InC(WitnessArgs(), a) ==> a == 3
  {}

  function MakeTile(p: Args, sI: GoodSplit, sJ: GoodSplit, sK: GoodSplit, i0: int, j0: int, k0: int): Tile {
    var noBias := p.D == NULL;
    var dOrDummy := if noBias then 1 else p.D;
    var biasRow := if p.repeatingBias then 0 else sI.Lo(i0);
    var pre := if k0 != 0 then NULL
               else dOrDummy + (biasRow * p.strideD + sJ.Lo(j0)) * SizeofD(p.lowD);
    var out := if k0 == sK.Count() - 1
               then p.C + (sI.Lo(i0) * p.strideC + sJ.Lo(j0)) * SizeofC(p.fullC) else NULL;
    var a := if p.transA then p.A + sK.Lo(k0) * p.strideA + sI.Lo(i0) else p.A + sI.Lo(i0) * p.strideA + sK.Lo(k0);
    var b := if p.transB then p.B + sJ.Lo(j0) * p.strideB + sK.Lo(k0) else p.B + sK.Lo(k0) * p.strideB + sJ.Lo(j0);
    Tile(a, b, pre, out, p.scaleA, p.scaleB, p.scaleD,
         sI.Blocks(i0), sJ.Blocks(j0), sK.Blocks(k0), sI.Pad(i0), sJ.Pad(j0), sK.Pad(k0),
         p.strideA, p.strideB, p.strideD, p.strideC, p.transA, p.transB, p.fullC, p.lowD, noBias, p.repeatingBias)
  }

  function TileOf(z: Plan, i0: int, j0: int, k0: int): Tile { MakeTile(z.q.p, z.sI, z.sJ, z.sK, i0, j0, k0) }

  /** The parts of a tile that are the same for all tiles of a multiply. */
  ghost predicate TileFor(p: Args, t: Tile) {
    && t.strideA == p.strideA && t.strideB == p.strideB && t.strideD == p.strideD && t.strideC == p.strideC
    && t.scaleA == p.scaleA && t.scaleB == p.scaleB && t.scaleD == p.scaleD
    && t.transA == p.transA && t.transB == p.transB && t.fullC == p.fullC && t.lowD == p.lowD
    && t.noBias == (p.D == NULL) && t.repeatingBias == p.repeatingBias
  }

  lemma TileIsFor(z: Plan, i0: int, j0: int, k0: int)
    ensures var t, p := TileOf(z, i0, j0, k0), z.q.p;
      TileFor(p, t) && t.scaleA == p.scaleA && t.scaleB == p.scaleB && t.transA == p.transA && t.transB == p.transB
  {}

  ghost predicate InGrid(z: Plan, i0: int, j0: int, k0: int) {
    0 <= i0 < z.sI.Count() && 0 <= j0 < z.sJ.Count() && 0 <= k0 < z.sK.Count()
  }

  lemma TileFits(I: int, J: int, K: int, tI: int, tJ: int, tK: int)
    requires 0 < I <= tI && 0 < J <= tJ && 0 < K <= tK
    ensures I * J * DIM <= tI * tJ * DIM
    ensures I * K * DIM + K * J * DIM <= tI * tK * DIM + tK * tJ * DIM
  {
    Mul2(I, J, tI, tJ);
    Mul2(I, K, tI, tK);
    Mul2(K, J, tK, tJ);
    MulLe(I * J, tI * tJ, DIM);
    MulLe(I * K, tI * tK, DIM);
    MulLe(K * J, tK * tJ, DIM);
  }

  lemma Offset(p: int, stride: int, size: int, r: int, c: int)
    requires p > 0 && stride >= 0 && size >= 0 && r >= 0 && c >= 0
    ensures p + (r * stride + c) * size > 0
  {}

  lemma TileIsGood(z: GoodPlan, i0: int, j0: int, k0: int)
    requires InGrid(z, i0, j0, k0)
    ensures TileOf(z, i0, j0, k0).Ok()
  {
    var p := z.q.p;
    SplitTile(z.sI, i0);
    SplitTile(z.sJ, j0);
    SplitTile(z.sK, k0);
    TileFits(z.sI.Blocks(i0), z.sJ.Blocks(j0), z.sK.Blocks(k0), z.sI.tile, z.sJ.tile, z.sK.tile);
    hide WellPlaced;
    Offset(p.A, p.strideA, 1, z.sI.Lo(i0), z.sK.Lo(k0));
    Offset(p.A, p.strideA, 1, z.sK.Lo(k0), z.sI.Lo(i0));
    Offset(p.B, p.strideB, 1, z.sK.Lo(k0), z.sJ.Lo(j0));
    Offset(p.B, p.strideB, 1, z.sJ.Lo(j0), z.sK.Lo(k0));
    Offset(p.C, p.strideC, SizeofC(p.fullC), z.sI.Lo(i0), z.sJ.Lo(j0));
    Offset(if p.D == NULL then 1 else p.D, p.strideD, SizeofD(p.lowD), if p.repeatingBias then 0 else z.sI.Lo(i0),
           z.sJ.Lo(j0));
  }

  lemma ShiftAddr(p: int, stride: int, size: int, r0: int, c0: int, r: int, c: int)
    ensures ElemAddr(p + (r0 * stride + c0) * size, stride * size, size, r, c)
         == ElemAddr(p, stride * size, size, r0 + r, c0 + c)
  {}

  lemma ShiftAddrRow0(p: int, size: int, c0: int, r0: int, r: int, c: int)
    ensures ElemAddr(p + (0 + c0) * size, 0, size, r, c) == ElemAddr(p, 0, size, r0 + r, c0 + c)
  {}

  /** Element (row, k) of the tile's A is element (Lo + row, Lo + k) of A, transposed or not; likewise
      B, C and D. */
  lemma TileAddrs(z: GoodPlan, i0: int, j0: int, k0: int, i: int, j: int, k: int)
    ensures var t, p := TileOf(z, i0, j0, k0), z.q.p;
      && ElemAddr(t.A, t.strideA * SIZEOF_ELEM, SIZEOF_ELEM, if p.transA then k else i, if p.transA then i else k)
         == AAddr(p, z.sI.Lo(i0) + i, z.sK.Lo(k0) + k)
      && ElemAddr(t.B, t.strideB * SIZEOF_ELEM, SIZEOF_ELEM, if p.transB then j else k, if p.transB then k else j)
         == BAddr(p, z.sK.Lo(k0) + k, z.sJ.Lo(j0) + j)
      && (p.D != NULL && k0 == 0 ==>
            ElemAddr(t.D, DStride(t), SizeofD(t.lowD), i, j) == DAddr(p, z.sI.Lo(i0) + i, z.sJ.Lo(j0) + j))
      && (k0 == z.sK.Count() - 1 ==>
            ElemAddr(t.C, t.strideC * SizeC(t), SizeC(t), i, j) == CAddr(p, z.sI.Lo(i0) + i, z.sJ.Lo(j0) + j))
  {
    var p := z.q.p;
    var li, lj, lk := z.sI.Lo(i0), z.sJ.Lo(j0), z.sK.Lo(k0);
    ShiftAddr(p.A, p.strideA, 1, li, lk, i, k);
    ShiftAddr(p.A, p.strideA, 1, lk, li, k, i);
    ShiftAddr(p.B, p.strideB, 1, lk, lj, k, j);
    ShiftAddr(p.B, p.strideB, 1, lj, lk, j, k);
    ShiftAddr(p.C, p.strideC, SizeofC(p.fullC), li, lj, i, j);
    ShiftAddr(p.D, p.strideD, SizeofD(p.lowD), li, lj, i, j);
    ShiftAddrRow0(p.D, SizeofD(p.lowD), lj, li, i, j);
    AddrsSwap(p, li + i, lj + j, lk + k);
    hide ElemAddr, AAddr, BAddr, Split.Lo, Split.Blocks, Split.Pad, Split.Count;
  }

  /** Transposing is swapping the two indices. */
  lemma AddrsSwap(p: Args, i: int, j: int, k: int)
    ensures AAddr(p, i, k) == if p.transA then ElemAddr(p.A, p.strideA, 1, k, i) else ElemAddr(p.A, p.strideA, 1, i, k)
    ensures BAddr(p, k, j) == if p.transB then ElemAddr(p.B, p.strideB, 1, j, k) else ElemAddr(p.B, p.strideB, 1, k, j)
  {}

  /** d is the initial DRAM except, possibly, on C. */
  ghost predicate OnlyC(z: Plan, d: Dram) { d.Keys == z.q.d.Keys && Unchanged(z.q.d, d, z.q.p) }

  lemma TileExtents(z: GoodPlan, i0: int, j0: int, k0: int)
    requires InGrid(z, i0, j0, k0)
    ensures var t := TileOf(z, i0, j0, k0);
      && t.Rows() == z.sI.Len(i0) && t.Cols() == z.sJ.Len(j0) && t.Depth() == z.sK.Len(k0)
      && 0 <= z.sI.Lo(i0) && z.sI.Lo(i0) + t.Rows() == z.sI.Reach(i0 + 1) <= z.q.p.dimI
      && 0 <= z.sJ.Lo(j0) && z.sJ.Lo(j0) + t.Cols() == z.sJ.Reach(j0 + 1) <= z.q.p.dimJ
      && 0 <= z.sK.Lo(k0) && z.sK.Lo(k0) + t.Depth() == z.sK.Reach(k0 + 1) <= z.q.p.dimK
      && z.sK.Lo(k0) == z.sK.Reach(k0) && 0 < t.Depth() && 0 < t.Cols() && 0 < t.Rows()
  {
    SplitTile(z.sI, i0);
    SplitTile(z.sJ, j0);
    SplitTile(z.sK, k0);
    hide WellPlaced;
  }

  lemma TileAIn(z: GoodPlan, d: Dram, i0: int, j0: int, k0: int)
    requires InGrid(z, i0, j0, k0) && OnlyC(z, d)
    ensures AInDram(d, TileOf(z, i0, j0, k0))
    ensures forall r, c :: 0 <= r < TileOf(z, i0, j0, k0).AHeight() && 0 <= c < TileOf(z, i0, j0, k0).AWidth() ==>
              !InC(z.q.p, ElemAddr(TileOf(z, i0, j0, k0).A, TileOf(z, i0, j0, k0).strideA * SIZEOF_ELEM, SIZEOF_ELEM,
                                   r, c))
  {
    var t := TileOf(z, i0, j0, k0);
    TileExtents(z, i0, j0, k0);
    assert t.transA == z.q.p.transA;
    forall r, c | 0 <= r < t.AHeight() && 0 <= c < t.AWidth()
      ensures ElemAddr(t.A, t.strideA * SIZEOF_ELEM, SIZEOF_ELEM, r, c) in d
      ensures !InC(z.q.p, ElemAddr(t.A, t.strideA * SIZEOF_ELEM, SIZEOF_ELEM, r, c))
    {
      hide ElemAddr, TileOf, AAddr, InC, Split.Lo, Split.Len;
      var row, k := if t.transA then c else r, if t.transA then r else c;
      TileAddrs(z, i0, j0, k0, row, 0, k);
      assert AAddr(z.q.p, z.sI.Lo(i0) + row, z.sK.Lo(k0) + k) in z.q.d;
    }
  }

  lemma TileBIn(z: GoodPlan, d: Dram, i0: int, j0: int, k0: int)
    requires InGrid(z, i0, j0, k0) && OnlyC(z, d)
    ensures BInDram(d, TileOf(z, i0, j0, k0))
    ensures forall r, c :: 0 <= r < TileOf(z, i0, j0, k0).BHeight() && 0 <= c < TileOf(z, i0, j0, k0).BWidth() ==>
              !InC(z.q.p, ElemAddr(TileOf(z, i0, j0, k0).B, TileOf(z, i0, j0, k0).strideB * SIZEOF_ELEM, SIZEOF_ELEM,
                                   r, c))
  {
    var t := TileOf(z, i0, j0, k0);
    TileExtents(z, i0, j0, k0);
    assert t.transB == z.q.p.transB;
    forall r, c | 0 <= r < t.BHeight() && 0 <= c < t.BWidth()
      ensures ElemAddr(t.B, t.strideB * SIZEOF_ELEM, SIZEOF_ELEM, r, c) in d
      ensures !InC(z.q.p, ElemAddr(t.B, t.strideB * SIZEOF_ELEM, SIZEOF_ELEM, r, c))
    {
      hide ElemAddr, TileOf, BAddr, InC, Split.Lo, Split.Len;
      var k, col := if t.transB then c else r, if t.transB then r else c;
      TileAddrs(z, i0, j0, k0, 0, col, k);
      assert BAddr(z.q.p, z.sK.Lo(k0) + k, z.sJ.Lo(j0) + col) in z.q.d;
    }
  }

  /** A tile that reads D does so inside D: never through the dummy pointer of an unbiased multiply. */
  lemma TileDIn(z: GoodPlan, d: Dram, i0: int, j0: int, k0: int)
    requires InGrid(z, i0, j0, k0) && OnlyC(z, d)
    requires TileOf(z, i0, j0, k0).D != NULL && !TileOf(z, i0, j0, k0).noBias
    ensures z.q.p.D != NULL && DInDram(d, TileOf(z, i0, j0, k0))
  {
    var t := TileOf(z, i0, j0, k0);
    TileExtents(z, i0, j0, k0);
    forall r, c | 0 <= r < t.Rows() && 0 <= c < t.Cols()
      ensures ElemAddr(t.D, DStride(t), SizeofD(t.lowD), r, c) in d
    {
      TileAddrs(z, i0, j0, k0, r, c, 0);
      assert k0 == 0;
      hide ElemAddr, TileOf, DAddr;
      assert DAddr(z.q.p, z.sI.Lo(i0) + r, z.sJ.Lo(j0) + c) in z.q.d;
    }
  }

  lemma TileCIn(z: GoodPlan, d: Dram, i0: int, j0: int, k0: int)
    requires InGrid(z, i0, j0, k0) && OnlyC(z, d) && TileOf(z, i0, j0, k0).C != NULL
    ensures var t := TileOf(z, i0, j0, k0);
      MatrixIn(d, t.C, t.strideC * SizeC(t), SizeC(t), t.Rows(), t.Cols())
  {
    var t := TileOf(z, i0, j0, k0);
    TileExtents(z, i0, j0, k0);
    forall r, c | 0 <= r < t.Rows() && 0 <= c < t.Cols()
      ensures ElemAddr(t.C, t.strideC * SizeC(t), SizeC(t), r, c) in d
    {
      TileAddrs(z, i0, j0, k0, r, c, 0);
      assert k0 == z.sK.Count() - 1;
      hide ElemAddr, TileOf, CAddr;
      assert CAddr(z.q.p, z.sI.Lo(i0) + r, z.sJ.Lo(j0) + c) in z.q.d;
    }
  }

  lemma OperandStable(z: GoodPlan, d: Dram, i: int, j: int, k: int)
    requires OnlyC(z, d)
    requires 0 <= i < z.q.p.dimI && 0 <= j < z.q.p.dimJ && 0 <= k < z.q.p.dimK
    ensures Get(d, AAddr(z.q.p, i, k)) == Get(z.q.d, AAddr(z.q.p, i, k))
    ensures Get(d, BAddr(z.q.p, k, j)) == Get(z.q.d, BAddr(z.q.p, k, j))
    ensures z.q.p.D != NULL ==> Get(d, DAddr(z.q.p, i, j)) == Get(z.q.d, DAddr(z.q.p, i, j))
  {
    hide ElemAddr, InC;
  }

  lemma TileAVals(z: GoodPlan, d: Dram, i0: int, j0: int, k0: int, row: int, k: int)
    ensures AVals(d, TileOf(z, i0, j0, k0))(row, k)
         == z.q.p.scaleA(Get(d, AAddr(z.q.p, z.sI.Lo(i0) + row, z.sK.Lo(k0) + k)))
  {
    hide *;
    OperandValues(d, TileOf(z, i0, j0, k0), row, 0, k);
    TileIsFor(z, i0, j0, k0);
    TileAddrs(z, i0, j0, k0, row, 0, k);
  }

  lemma TileBVals(z: GoodPlan, d: Dram, i0: int, j0: int, k0: int, k: int, col: int)
    ensures BVals(d, TileOf(z, i0, j0, k0))(k, col)
         == z.q.p.scaleB(Get(d, BAddr(z.q.p, z.sK.Lo(k0) + k, z.sJ.Lo(j0) + col)))
  {
    hide *;
    OperandValues(d, TileOf(z, i0, j0, k0), 0, col, k);
    TileIsFor(z, i0, j0, k0);
    TileAddrs(z, i0, j0, k0, 0, col, k);
  }

  lemma TileTermIs(z: GoodPlan, d: Dram, i0: int, j0: int, k0: int, row: int, col: int, k: int)
    requires InGrid(z, i0, j0, k0) && OnlyC(z, d)
    requires 0 <= row < z.sI.Len(i0) && 0 <= col < z.sJ.Len(j0) && 0 <= k < z.sK.Len(k0)
    ensures TileTerm(d, TileOf(z, i0, j0, k0), row, col)(k)
         == Term(z.q.d, z.q.p, z.sI.Lo(i0) + row, z.sJ.Lo(j0) + col)(k + z.sK.Lo(k0))
  {
    TileExtents(z, i0, j0, k0);
    TileAVals(z, d, i0, j0, k0, row, k);
    TileBVals(z, d, i0, j0, k0, k, col);
    OperandStable(z, d, z.sI.Lo(i0) + row, z.sJ.Lo(j0) + col, z.sK.Lo(k0) + k);
    hide ElemAddr, AAddr, BAddr, WellPlaced, OnlyC, TileOf, AVals, BVals, Get;
  }

  /** A tile's sum is the slice of the full sum that it covers. */
  lemma TileSumIs(z: GoodPlan, d: Dram, i0: int, j0: int, k0: int, row: int, col: int)
    requires InGrid(z, i0, j0, k0) && OnlyC(z, d)
    requires 0 <= row < z.sI.Len(i0) && 0 <= col < z.sJ.Len(j0)
    ensures var i, j := z.sI.Lo(i0) + row, z.sJ.Lo(j0) + col;
      Partial(z.q.d, z.q.p, i, j, z.sK.Lo(k0)) + TileSum(d, TileOf(z, i0, j0, k0))(row, col)
      == Partial(z.q.d, z.q.p, i, j, z.sK.Reach(k0 + 1))
  {
    hide Term, TileTerm, TileOf, Bias, WellPlaced, OnlyC, Sum, InGrid, Split.Lo, Split.Len, Split.Blocks, Split.Count,
         Split.Reach, Split.Pad;
    var t := TileOf(z, i0, j0, k0);
    TileExtents(z, i0, j0, k0);
    TileTermsAre(z, d, i0, j0, k0, row, col, t);
    SumSlice(TileTerm(d, t, row, col), Term(z.q.d, z.q.p, z.sI.Lo(i0) + row, z.sJ.Lo(j0) + col), z.sK.Lo(k0),
             t.Depth());
  }

  lemma TileTermsAre(z: GoodPlan, d: Dram, i0: int, j0: int, k0: int, row: int, col: int, t: Tile)
    requires InGrid(z, i0, j0, k0) && OnlyC(z, d) && t == TileOf(z, i0, j0, k0)
    requires 0 <= row < z.sI.Len(i0) && 0 <= col < z.sJ.Len(j0)
    ensures forall k :: 0 <= k < t.Depth() ==>
      TileTerm(d, t, row, col)(k) == Term(z.q.d, z.q.p, z.sI.Lo(i0) + row, z.sJ.Lo(j0) + col)(k + z.sK.Lo(k0))
  {
    TileExtents(z, i0, j0, k0);
    hide Term, TileTerm, TileOf, WellPlaced, OnlyC, Plan.Ok;
    forall k | 0 <= k < t.Depth()
      ensures TileTerm(d, t, row, col)(k) == Term(z.q.d, z.q.p, z.sI.Lo(i0) + row, z.sJ.Lo(j0) + col)(k + z.sK.Lo(k0))
    {
      TileTermIs(z, d, i0, j0, k0, row, col, k);
    }
  }

  lemma SumSlice(f: int -> int, h: int -> int, lo: int, n: int)
    requires lo >= 0 && n >= 0
    requires forall k :: 0 <= k < n ==> f(k) == h(k + lo)
    ensures Sum(0, lo, h) + Sum(0, n, f) == Sum(0, lo + n, h)
  {
    SumShift(0, n, lo, f, h);
    SumSplit(0, lo, lo + n, h);
  }

  lemma TileBeforeIs(z: GoodPlan, acc0: Mem, d: Dram, i0: int, j0: int, k0: int, row: int, col: int)
    requires InGrid(z, i0, j0, k0) && OnlyC(z, d)
    requires 0 <= row < z.sI.Len(i0) && 0 <= col < z.sJ.Len(j0)
    ensures var t := TileOf(z, i0, j0, k0);
      Before(acc0, d, t, row, col) ==
        if k0 == 0 then Partial(z.q.d, z.q.p, z.sI.Lo(i0) + row, z.sJ.Lo(j0) + col, 0)
        else Val(acc0, t.CView(), row, col)
  {
    TileExtents(z, i0, j0, k0);
    TileIsGood(z, i0, j0, k0);
    TileAddrs(z, i0, j0, k0, row, col, 0);
    OperandStable(z, d, z.sI.Lo(i0) + row, z.sJ.Lo(j0) + col, 0);
    PreIsNull(z, i0, j0, k0);
    hide ElemAddr, DAddr, Val, WellPlaced, OnlyC, TileOf;
  }

  lemma PreIsNull(z: GoodPlan, i0: int, j0: int, k0: int)
    requires InGrid(z, i0, j0, k0)
    ensures TileOf(z, i0, j0, k0).D == NULL <==> k0 != 0
    ensures TileOf(z, i0, j0, k0).noBias <==> z.q.p.D == NULL
  {
    var p := z.q.p;
    SplitTile(z.sI, i0);
    SplitTile(z.sJ, j0);
    Offset(if p.D == NULL then 1 else p.D, p.strideD, SizeofD(p.lowD), if p.repeatingBias then 0 else z.sI.Lo(i0),
           z.sJ.Lo(j0));
  }

  // ---------- one output tile ----------

  function AccView(z: Plan, i0: int, j0: int): View { View(0, z.sI.Blocks(i0), z.sJ.Blocks(j0)) }

  /** After k0 tiles of the shared dimension, each accumulator cell holds bias plus partial sum. */
  ghost predicate AccHolds(z: Plan, acc: Mem, i0: int, j0: int, k0: int) {
    forall row, col :: 0 <= row < z.sI.Len(i0) && 0 <= col < z.sJ.Len(j0) ==>
      Val(acc, AccView(z, i0, j0), row, col)
        == Partial(z.q.d, z.q.p, z.sI.Lo(i0) + row, z.sJ.Lo(j0) + col, z.sK.Reach(k0))
  }

  lemma AccStep(z: GoodPlan, acc0: Mem, acc: Mem, d: Dram, i0: int, j0: int, k0: int)
    requires InGrid(z, i0, j0, k0) && OnlyC(z, d)
    requires TileResult(acc0, acc, d, TileOf(z, i0, j0, k0))
    requires k0 > 0 ==> AccHolds(z, acc0, i0, j0, k0)
    ensures AccHolds(z, acc, i0, j0, k0 + 1)
  {
    var t := TileOf(z, i0, j0, k0);
    TileExtents(z, i0, j0, k0);
    assert t.CView() == AccView(z, i0, j0);
    forall row, col | 0 <= row < z.sI.Len(i0) && 0 <= col < z.sJ.Len(j0)
      ensures Val(acc, AccView(z, i0, j0), row, col)
           == Partial(z.q.d, z.q.p, z.sI.Lo(i0) + row, z.sJ.Lo(j0) + col, z.sK.Reach(k0 + 1))
    {
      AccStepCell(z, acc0, acc, d, i0, j0, k0, row, col);
    }
  }

  lemma TileViewIs(z: GoodPlan, i0: int, j0: int, k0: int)
    ensures TileOf(z, i0, j0, k0).CView() == AccView(z, i0, j0)
  {
    hide WellPlaced, Split.Lo, Split.Count, Split.Last, Split.Padding;
  }

  lemma AccStepCell(z: GoodPlan, acc0: Mem, acc: Mem, d: Dram, i0: int, j0: int, k0: int, row: int, col: int)
    requires InGrid(z, i0, j0, k0) && OnlyC(z, d)
    requires TileResult(acc0, acc, d, TileOf(z, i0, j0, k0))
    requires k0 > 0 ==> AccHolds(z, acc0, i0, j0, k0)
    requires 0 <= row < z.sI.Len(i0) && 0 <= col < z.sJ.Len(j0)
    ensures Val(acc, AccView(z, i0, j0), row, col)
         == Partial(z.q.d, z.q.p, z.sI.Lo(i0) + row, z.sJ.Lo(j0) + col, z.sK.Reach(k0 + 1))
  {
    assert k0 >= 0;
    hide *;
    TileExtents(z, i0, j0, k0);
    TileViewIs(z, i0, j0, k0);
    ResultAt(acc0, acc, d, TileOf(z, i0, j0, k0), row, col);
    TileBeforeIs(z, acc0, d, i0, j0, k0, row, col);
    TileSumIs(z, d, i0, j0, k0, row, col);
    if k0 > 0 { HeldAt(z, acc0, i0, j0, k0, row, col); }
    LoZero(z.sK);
  }

  lemma ResultAt(acc0: Mem, acc: Mem, d: Dram, t: Tile, row: int, col: int)
    requires TileResult(acc0, acc, d, t) && 0 <= row < t.Rows() && 0 <= col < t.Cols()
    ensures Val(acc, t.CView(), row, col) == Before(acc0, d, t, row, col) + TileSum(d, t)(row, col)
  {}

  lemma HeldAt(z: GoodPlan, acc: Mem, i0: int, j0: int, k0: int, row: int, col: int)
    requires AccHolds(z, acc, i0, j0, k0) && 0 <= row < z.sI.Len(i0) && 0 <= col < z.sJ.Len(j0)
    ensures Val(acc, AccView(z, i0, j0), row, col)
         == Partial(z.q.d, z.q.p, z.sI.Lo(i0) + row, z.sJ.Lo(j0) + col, z.sK.Reach(k0))
  {}

  lemma LoZero(s: Split)
    ensures s.Lo(0) == 0
  {}

  /** Cells of the output tiles before (i0, j0). */
  function TileMajor(z: Plan, i0: int, j0: int): (int, int) -> bool {
    (i, j) => i < z.sI.Reach(i0) || (i < z.sI.Reach(i0 + 1) && j < z.sJ.Reach(j0))
  }

  predicate InTile(z: Plan, i0: int, j0: int, i: int, j: int) {
    z.sI.Lo(i0) <= i < z.sI.Lo(i0) + z.sI.Len(i0) && z.sJ.Lo(j0) <= j < z.sJ.Lo(j0) + z.sJ.Len(j0)
  }

  lemma TileMajorStep(z: GoodPlan, i0: int, j0: int, i: int, j: int)
    requires 0 <= i0 < z.sI.Count() && 0 <= j0 < z.sJ.Count()
    ensures TileMajor(z, i0, j0 + 1)(i, j) <==> TileMajor(z, i0, j0)(i, j) || InTile(z, i0, j0, i, j)
  {
    SplitTile(z.sI, i0);
    SplitTile(z.sJ, j0);
    hide WellPlaced;
  }

  /** A C cell outside the tile is not in the sub-matrix the tile stores. */
  lemma OutsideTile(z: GoodPlan, i0: int, j0: int, k0: int, a: int)
    requires InGrid(z, i0, j0, k0) && k0 == z.sK.Count() - 1
    requires var t := TileOf(z, i0, j0, k0); InMatrix(a, t.C, t.strideC * SizeC(t), SizeC(t), t.Rows(), t.Cols())
    ensures exists i, j ::
              InTile(z, i0, j0, i, j) && 0 <= i < z.q.p.dimI && 0 <= j < z.q.p.dimJ && a == CAddr(z.q.p, i, j)
  {
    var t := TileOf(z, i0, j0, k0);
    var r, c :| 0 <= r < t.Rows() && 0 <= c < t.Cols() && a == ElemAddr(t.C, t.strideC * SizeC(t), SizeC(t), r, c);
    TileExtents(z, i0, j0, k0);
    TileAddrs(z, i0, j0, k0, r, c, 0);
    hide ElemAddr, CAddr, WellPlaced, TileOf;
    assert InTile(z, i0, j0, z.sI.Lo(i0) + r, z.sJ.Lo(j0) + c);
  }

  function ExFor(p: Args, dataflow: int): ExConfig {
    ExConfig(dataflow, p.act, 0, p.scale, p.relu6Shift, p.transA, p.transB)
  }

  /** The configuration of tiled_matmul_outer. The output-stationary function reuses load channel 0. */
  ghost predicate Configured(g: Gemmini, p: Args, dataflow: int)
    reads g
  {
    && g.Valid() && g.ex == ExFor(p, dataflow) && g.stStride == p.strideC * SizeofC(p.fullC)
    && (dataflow != OUTPUT_STATIONARY ==>
          && g.ld[0] == LoadConfig(p.strideA * SIZEOF_ELEM, p.scaleA, false, DIM)
          && g.ld[1] == LoadConfig(p.strideB * SIZEOF_ELEM, p.scaleB, false, DIM)
          && g.ld[2] == LoadConfig(if p.repeatingBias then 0 else p.strideD * SizeofD(p.lowD), p.scaleD, p.lowD, DIM))
  }

  ghost predicate TileStored(d: Dram, d': Dram, t: Tile, acc: Mem, ex: ExConfig) {
    Stored(d, d', t.C, t.strideC * SizeC(t), SizeC(t), t.Rows(), t.Cols(), OutVals(acc, ex, t), Everywhere())
  }

  lemma OutValsAre(z: GoodPlan, acc: Mem, i0: int, j0: int, k0: int, row: int, col: int)
    ensures OutVals(acc, ExFor(z.q.p, z.dataflow), TileOf(z, i0, j0, k0))(row, col)
              == Out(Val(acc, AccView(z, i0, j0), row, col), z.q.p)
  {
    assert TileOf(z, i0, j0, k0).CView() == AccView(z, i0, j0);
    hide Val, ScaleAndSat, WellPlaced;
  }

  lemma StoredTileCell(z: GoodPlan, d: Dram, d': Dram, acc: Mem, i0: int, j0: int, k0: int, row: int, col: int)
    requires InGrid(z, i0, j0, k0) && k0 == z.sK.Count() - 1
    requires TileStored(d, d', TileOf(z, i0, j0, k0), acc, ExFor(z.q.p, z.dataflow))
    requires AccHolds(z, acc, i0, j0, k0 + 1)
    requires 0 <= row < z.sI.Len(i0) && 0 <= col < z.sJ.Len(j0)
    ensures Get(d', CAddr(z.q.p, z.sI.Lo(i0) + row, z.sJ.Lo(j0) + col))
              == OutAt(z.q, z.sI.Lo(i0) + row, z.sJ.Lo(j0) + col)
  {
    hide WellPlaced, Partial, Val, TileStored, TileOf, OutVals, CAddr, AAddr, BAddr, DAddr, ElemAddr, Out, InGrid,
         AccView, Split.Lo, Split.Len, Split.Blocks, Split.Count;
    TileExtents(z, i0, j0, k0);
    TileAddrs(z, i0, j0, k0, row, col, 0);
    OutValsAre(z, acc, i0, j0, k0, row, col);
    StoredAt(d, d', TileOf(z, i0, j0, k0), acc, ExFor(z.q.p, z.dataflow), row, col);
    assert z.sK.Reach(k0 + 1) == z.q.p.dimK;
  }

  lemma StoredAt(d: Dram, d': Dram, t: Tile, acc: Mem, ex: ExConfig, row: int, col: int)
    requires TileStored(d, d', t, acc, ex) && 0 <= row < t.Rows() && 0 <= col < t.Cols()
    ensures Get(d', ElemAddr(t.C, t.strideC * SizeC(t), SizeC(t), row, col)) == OutVals(acc, ex, t)(row, col)
  {}

  lemma UnstoredCell(z: GoodPlan, d: Dram, d': Dram, acc: Mem, i0: int, j0: int, k0: int, i: int, j: int)
    requires InGrid(z, i0, j0, k0) && k0 == z.sK.Count() - 1
    requires d == After(z.q, TileMajor(z, i0, j0))
    requires TileStored(d, d', TileOf(z, i0, j0, k0), acc, ExFor(z.q.p, z.dataflow))
    requires 0 <= i < z.q.p.dimI && 0 <= j < z.q.p.dimJ && !InTile(z, i0, j0, i, j)
    ensures Get(d', CAddr(z.q.p, i, j)) == Get(d, CAddr(z.q.p, i, j))
  {
    var t, a := TileOf(z, i0, j0, k0), CAddr(z.q.p, i, j);
    if InMatrix(a, t.C, t.strideC * SizeC(t), SizeC(t), t.Rows(), t.Cols()) {
      OutsideTile(z, i0, j0, k0, a);
      var i', j' :| InTile(z, i0, j0, i', j') && 0 <= i' < z.q.p.dimI && 0 <= j' < z.q.p.dimJ
                    && a == CAddr(z.q.p, i', j');
      CAddrInjective(z.q.p, i, j, i', j');
    }
    AfterCell(z.q, TileMajor(z, i0, j0), i, j);
  }

  lemma TileInC(z: GoodPlan, i0: int, j0: int, k0: int, a: int)
    requires InGrid(z, i0, j0, k0) && k0 == z.sK.Count() - 1
    requires var t := TileOf(z, i0, j0, k0); InMatrix(a, t.C, t.strideC * SizeC(t), SizeC(t), t.Rows(), t.Cols())
    ensures InC(z.q.p, a)
  {
    var p := z.q.p;
    OutsideTile(z, i0, j0, k0, a);
    var i, j :| InTile(z, i0, j0, i, j) && 0 <= i < p.dimI && 0 <= j < p.dimJ && a == CAddr(p, i, j);
    assert a == ElemAddr(p.C, p.strideC * SizeofC(p.fullC), SizeofC(p.fullC), i, j);
  }

  lemma UnstoredElsewhere(z: GoodPlan, d: Dram, d': Dram, acc: Mem, i0: int, j0: int, k0: int, a: int)
    requires InGrid(z, i0, j0, k0) && k0 == z.sK.Count() - 1
    requires d == After(z.q, TileMajor(z, i0, j0))
    requires TileStored(d, d', TileOf(z, i0, j0, k0), acc, ExFor(z.q.p, z.dataflow))
    requires a in z.q.d && !InC(z.q.p, a)
    ensures Get(d', a) == Get(z.q.d, a)
  {
    var t, p := TileOf(z, i0, j0, k0), z.q.p;
    if InMatrix(a, t.C, t.strideC * SizeC(t), SizeC(t), t.Rows(), t.Cols()) {
      TileInC(z, i0, j0, k0, a);
    }
    AfterElsewhere(z.q, TileMajor(z, i0, j0), a);
  }

  lemma StoreTileCell(z: GoodPlan, d: Dram, d': Dram, acc: Mem, i0: int, j0: int, k0: int, i: int, j: int)
    requires InGrid(z, i0, j0, k0) && k0 == z.sK.Count() - 1
    requires d == After(z.q, TileMajor(z, i0, j0))
    requires TileStored(d, d', TileOf(z, i0, j0, k0), acc, ExFor(z.q.p, z.dataflow))
    requires AccHolds(z, acc, i0, j0, k0 + 1)
    requires 0 <= i < z.q.p.dimI && 0 <= j < z.q.p.dimJ
    ensures Get(d', CAddr(z.q.p, i, j)) ==
              if TileMajor(z, i0, j0 + 1)(i, j) then OutAt(z.q, i, j) else Get(z.q.d, CAddr(z.q.p, i, j))
  {
    hide *;
    TileIndices(z, i0, j0, k0);
    TileMajorStep(z, i0, j0, i, j);
    CellBefore(z, d, i0, j0, i, j);
    if InTile(z, i0, j0, i, j) {
      TileOffsets(z, i0, j0, i, j);
      StoredTileCell(z, d, d', acc, i0, j0, k0, i - z.sI.Lo(i0), j - z.sJ.Lo(j0));
    } else {
      UnstoredCell(z, d, d', acc, i0, j0, k0, i, j);
    }
  }

  lemma TileIndices(z: GoodPlan, i0: int, j0: int, k0: int)
    requires InGrid(z, i0, j0, k0)
    ensures 0 <= i0 < z.sI.Count() && 0 <= j0 < z.sJ.Count()
  {}

  lemma TileOffsets(z: GoodPlan, i0: int, j0: int, i: int, j: int)
    requires InTile(z, i0, j0, i, j)
    ensures 0 <= i - z.sI.Lo(i0) < z.sI.Len(i0) && 0 <= j - z.sJ.Lo(j0) < z.sJ.Len(j0)
  {
    hide Split.Lo, Split.Len;
  }

  lemma CellBefore(z: GoodPlan, d: Dram, i0: int, j0: int, i: int, j: int)
    requires d == After(z.q, TileMajor(z, i0, j0)) && 0 <= i < z.q.p.dimI && 0 <= j < z.q.p.dimJ
    ensures Get(d, CAddr(z.q.p, i, j)) ==
              if TileMajor(z, i0, j0)(i, j) then OutAt(z.q, i, j) else Get(z.q.d, CAddr(z.q.p, i, j))
  {
    AfterCell(z.q, TileMajor(z, i0, j0), i, j);
    AfterUnchanged(z.q, TileMajor(z, i0, j0));
    assert d.Keys == z.q.d.Keys;
    hide WellPlaced, After, TileMajor, OutAt, CAddr;
  }

  /** Storing a finished tile makes exactly its cells final. */
  lemma StoreTile(z: GoodPlan, d: Dram, d': Dram, acc: Mem, i0: int, j0: int, k0: int)
    requires InGrid(z, i0, j0, k0) && k0 == z.sK.Count() - 1
    requires d == After(z.q, TileMajor(z, i0, j0))
    requires TileStored(d, d', TileOf(z, i0, j0, k0), acc, ExFor(z.q.p, z.dataflow))
    requires AccHolds(z, acc, i0, j0, k0 + 1)
    ensures d' == After(z.q, TileMajor(z, i0, j0 + 1))
  {
    PlanPlaced(z);
    hide *;
    StoredCells(z, d, d', acc, i0, j0, k0);
    StoredOthers(z, d, d', acc, i0, j0, k0);
    IsAfter(z.q, TileMajor(z, i0, j0 + 1), d');
  }

  lemma PlanPlaced(z: GoodPlan)
    ensures WellPlaced(z.q.d, z.q.p)
  {
    hide WellPlaced;
  }

  lemma StoredCells(z: GoodPlan, d: Dram, d': Dram, acc: Mem, i0: int, j0: int, k0: int)
    requires InGrid(z, i0, j0, k0) && k0 == z.sK.Count() - 1
    requires d == After(z.q, TileMajor(z, i0, j0))
    requires TileStored(d, d', TileOf(z, i0, j0, k0), acc, ExFor(z.q.p, z.dataflow))
    requires AccHolds(z, acc, i0, j0, k0 + 1)
    ensures forall i, j :: 0 <= i < z.q.p.dimI && 0 <= j < z.q.p.dimJ ==>
      Get(d', CAddr(z.q.p, i, j))
        == if TileMajor(z, i0, j0 + 1)(i, j) then OutAt(z.q, i, j) else Get(z.q.d, CAddr(z.q.p, i, j))
  {
    hide *;
    forall i, j | 0 <= i < z.q.p.dimI && 0 <= j < z.q.p.dimJ
      ensures Get(d', CAddr(z.q.p, i, j))
           == if TileMajor(z, i0, j0 + 1)(i, j) then OutAt(z.q, i, j) else Get(z.q.d, CAddr(z.q.p, i, j))
    {
      StoreTileCell(z, d, d', acc, i0, j0, k0, i, j);
    }
  }

  lemma StoredOthers(z: GoodPlan, d: Dram, d': Dram, acc: Mem, i0: int, j0: int, k0: int)
    requires InGrid(z, i0, j0, k0) && k0 == z.sK.Count() - 1
    requires d == After(z.q, TileMajor(z, i0, j0))
    requires TileStored(d, d', TileOf(z, i0, j0, k0), acc, ExFor(z.q.p, z.dataflow))
    ensures d'.Keys == z.q.d.Keys && Unchanged(z.q.d, d', z.q.p)
  {
    hide InC, TileOf, TileMajor, OutVals, InMatrix, ElemAddr, InGrid, ValueAt, WellPlaced;
    forall a | a in z.q.d && !InC(z.q.p, a) ensures Get(d', a) == Get(z.q.d, a) {
      UnstoredElsewhere(z, d, d', acc, i0, j0, k0, a);
    }
  }

  // ---------- the loops ----------

  lemma OutIsNull(z: GoodPlan, i0: int, j0: int, k0: int)
    requires InGrid(z, i0, j0, k0)
    ensures TileOf(z, i0, j0, k0).C == NULL <==> k0 != z.sK.Count() - 1
  {
    SplitTile(z.sI, i0);
    SplitTile(z.sJ, j0);
    Offset(z.q.p.C, z.q.p.strideC, SizeofC(z.q.p.fullC), z.sI.Lo(i0), z.sJ.Lo(j0));
  }

  lemma TileApart(z: GoodPlan, d: Dram, i0: int, j0: int, k0: int)
    requires InGrid(z, i0, j0, k0) && k0 == z.sK.Count() - 1 && OnlyC(z, d)
    ensures OperandsApart(TileOf(z, i0, j0, k0))
  {
    var t := TileOf(z, i0, j0, k0);
    TileAIn(z, d, i0, j0, k0);
    TileBIn(z, d, i0, j0, k0);
    forall a | InMatrix(a, t.C, t.strideC * SizeC(t), SizeC(t), t.Rows(), t.Cols()) ensures InC(z.q.p, a) {
      TileInC(z, i0, j0, k0, a);
    }
    hide TileOf, InC, InMatrix, ElemAddr, AInDram, BInDram, OnlyC, WellPlaced;
  }

  /** Everything one call of the inner function asks for. */
  lemma TileReady(z: GoodPlan, g: Gemmini, i0: int, j0: int, k0: int)
    requires InGrid(z, i0, j0, k0) && g.dram == After(z.q, TileMajor(z, i0, j0))
    requires g.stStride == z.q.p.strideC * SizeofC(z.q.p.fullC)
    ensures var t := TileOf(z, i0, j0, k0);
      && OnlyC(z, g.dram) && t.Ok() && Sources(g.dram, t)
      && (t.D != NULL && !t.noBias ==> DInDram(g.dram, t))
      && (t.C != NULL ==> COk(g.stStride, g.dram, t))
  {
    var t := TileOf(z, i0, j0, k0);
    AfterUnchanged(z.q, TileMajor(z, i0, j0));
    TileIsGood(z, i0, j0, k0);
    TileExtents(z, i0, j0, k0);
    TileAIn(z, g.dram, i0, j0, k0);
    TileBIn(z, g.dram, i0, j0, k0);
    if t.D != NULL && !t.noBias { TileDIn(z, g.dram, i0, j0, k0); }
    if t.C != NULL {
      TileCIn(z, g.dram, i0, j0, k0);
      TileApart(z, g.dram, i0, j0, k0);
    }
    hide AInDram, BInDram, DInDram, MatrixIn, OnlyC, ElemAddr, AAddr, BAddr, CAddr, DAddr, InC;
  }

  method OutputTile(g: Gemmini, p: Args, sI: GoodSplit, sJ: GoodSplit, sK: GoodSplit, i0: int, j0: int,
                    ghost z: GoodPlan)
    requires z == Plan(z.q, sI, sJ, sK, z.dataflow) && z.q.p == p
    requires 0 <= i0 < sI.Count() && 0 <= j0 < sJ.Count()
    requires Configured(g, p, z.dataflow)
    requires g.dram == After(z.q, TileMajor(z, i0, j0))
    modifies g`ld, g`pre, g`spad, g`acc, g`pe, g`weights, g`dram
    ensures Configured(g, p, z.dataflow)
    ensures g.dram == After(z.q, TileMajor(z, i0, j0 + 1))
  {
    SplitShape(sK);
    hide z.Ok, TileMajor, After, AccHolds, CeilDiv, Split.Count, Split.Last, Split.Reach;
    var k0 := 0;
    while k0 < sK.Count()
      invariant 0 <= k0 <= sK.Count() && Configured(g, p, z.dataflow)
      invariant k0 > 0 ==> AccHolds(z, g.acc, i0, j0, k0)
      invariant g.dram == After(z.q, TileMajor(z, i0, if k0 < sK.Count() then j0 else j0 + 1))
    {
      InnerCall(g, p, sI, sJ, sK, i0, j0, k0, z);
      k0 := k0 + 1;
    }
  }

  /** The inner function of the chosen dataflow. */
  method SpTiledMatmul(g: Gemmini, p: Args, t: GoodTile, ghost z: GoodPlan)
    requires Configured(g, p, z.dataflow) && TileFor(p, t) && Supported(p, z.dataflow) && Sources(g.dram, t)
    requires t.D != NULL && !t.noBias ==> DInDram(g.dram, t)
    requires t.C != NULL ==> COk(g.stStride, g.dram, t)
    modifies g`ld, g`pre, g`spad, g`acc, g`pe, g`weights, g`dram
    ensures Configured(g, p, z.dataflow)
    ensures TileResult(old(g.acc), g.acc, old(g.dram), t)
    ensures if t.C == NULL then g.dram == old(g.dram)
            else TileStored(old(g.dram), g.dram, t, g.acc, ExFor(p, z.dataflow))
  {
    hide TileResult, OutVals, InMatrix, DInDram, COk, OperandsApart;
    if g.ex.dataflow == OUTPUT_STATIONARY {
      SpTiledMatmulOs(g, t);
    } else {
      SpTiledMatmulWs(g, t);
    }
  }

  method InnerCall(g: Gemmini, p: Args, sI: GoodSplit, sJ: GoodSplit, sK: GoodSplit, i0: int, j0: int, k0: int,
                   ghost z: GoodPlan)
    requires z == Plan(z.q, sI, sJ, sK, z.dataflow) && z.q.p == p
    requires InGrid(z, i0, j0, k0)
    requires Configured(g, p, z.dataflow)
    requires g.dram == After(z.q, TileMajor(z, i0, j0))
    requires k0 > 0 ==> AccHolds(z, g.acc, i0, j0, k0)
    modifies g`ld, g`pre, g`spad, g`acc, g`pe, g`weights, g`dram
    ensures Configured(g, p, z.dataflow)
    ensures AccHolds(z, g.acc, i0, j0, k0 + 1)
    ensures g.dram == After(z.q, TileMajor(z, i0, if k0 + 1 < sK.Count() then j0 else j0 + 1))
  {
    TileReady(z, g, i0, j0, k0);
    OutIsNull(z, i0, j0, k0);
    ghost var acc, d := g.acc, g.dram;
    var t: GoodTile := MakeTile(p, sI, sJ, sK, i0, j0, k0);
    hide MakeTile, WellPlaced, AccHolds, TileResult, After, TileMajor, OutVals, CeilDiv, InMatrix;
    SpTiledMatmul(g, p, t, z);
    AccStep(z, acc, g.acc, d, i0, j0, k0);
    if t.C != NULL {
      StoreTile(z, d, g.dram, g.acc, i0, j0, k0);
    }
  }

  lemma ReachZero(s: GoodSplit)
    ensures s.Reach(0) == 0
  {}

  lemma GridStart(z: GoodPlan)
    ensures After(z.q, TileMajor(z, 0, 0)) == z.q.d
  {
    ReachZero(z.sI);
    ReachZero(z.sJ);
    AfterNothing(z.q);
    hide WellPlaced, After, Split.Reach;
    AfterSame(z.q, TileMajor(z, 0, 0), Nothing());
  }

  lemma GridRow(z: GoodPlan, i0: int)
    requires 0 <= i0 < z.sI.Count()
    ensures After(z.q, TileMajor(z, i0, z.sJ.Count())) == After(z.q, TileMajor(z, i0 + 1, 0))
  {
    SplitTile(z.sI, i0);
    ReachZero(z.sJ);
    assert z.sJ.Reach(z.sJ.Count()) == z.q.p.dimJ;
    hide WellPlaced, After, Split.Reach;
    AfterSame(z.q, TileMajor(z, i0, z.sJ.Count()), TileMajor(z, i0 + 1, 0));
  }

  lemma GridEnd(z: GoodPlan)
    ensures After(z.q, TileMajor(z, z.sI.Count(), 0)) == Product(z.q.d, z.q.p)
  {
    assert z.sI.Reach(z.sI.Count()) == z.q.p.dimI;
    hide WellPlaced, Split.Reach;
    AfterSame(z.q, TileMajor(z, z.sI.Count(), 0), All());
  }

  method TileRow(g: Gemmini, p: Args, sI: GoodSplit, sJ: GoodSplit, sK: GoodSplit, i0: int, ghost z: GoodPlan)
    requires z == Plan(z.q, sI, sJ, sK, z.dataflow) && z.q.p == p
    requires 0 <= i0 < sI.Count()
    requires Configured(g, p, z.dataflow)
    requires g.dram == After(z.q, TileMajor(z, i0, 0))
    modifies g`ld, g`pre, g`spad, g`acc, g`pe, g`weights, g`dram
    ensures Configured(g, p, z.dataflow)
    ensures g.dram == After(z.q, TileMajor(z, i0 + 1, 0))
  {
    SplitShape(sJ);
    hide TileMajor, After, CeilDiv, Split.Count, WellPlaced;
    var j0 := 0;
    while j0 < sJ.Count()
      invariant 0 <= j0 <= sJ.Count() && Configured(g, p, z.dataflow)
      invariant g.dram == After(z.q, TileMajor(z, i0, j0))
    {
      OutputTile(g, p, sI, sJ, sK, i0, j0, z);
      j0 := j0 + 1;
    }
    GridRow(z, i0);
  }

  /** The tiling factors pass the checks of tiled_matmul for some dataflow. */
  ghost predicate Accepted(p: Args, tileI: int, tileJ: int, tileK: int) {
    && 0 < tileI && tileI * DIM <= CeilDiv(p.dimI, DIM) * DIM
    && 0 < tileJ && tileJ * DIM <= CeilDiv(p.dimJ, DIM) * DIM
    && 0 < tileK && tileK * DIM <= CeilDiv(p.dimK, DIM) * DIM
    && tileI * tileK * DIM + tileK * tileJ * DIM <= SPAD_ROWS
    && tileI * tileJ * DIM <= ACC_ROWS
  }

  lemma AcceptedSplit(dim: int, tile: int)
    requires 0 < tile && tile * DIM <= CeilDiv(dim, DIM) * DIM
    ensures Split(dim, tile).Ok()
  {}

  /** The whole command stream computes the product, for every accepted tiling, in both dataflows. */
  method TiledMatmulOuter(g: Gemmini, p: Args, tileI: int, tileJ: int, tileK: int, dataflow: int)
    requires g.Valid() && WellPlaced(g.dram, p) && Accepted(p, tileI, tileJ, tileK)
    requires dataflow in {OUTPUT_STATIONARY, WEIGHT_STATIONARY} && Supported(p, dataflow)
    modifies g
    ensures g.Valid()
    ensures g.dram == Product(old(g.dram), p)
  {
    AcceptedSplit(p.dimI, tileI);
    AcceptedSplit(p.dimJ, tileJ);
    AcceptedSplit(p.dimK, tileK);
    var sI: GoodSplit, sJ: GoodSplit, sK: GoodSplit := Split(p.dimI, tileI), Split(p.dimJ, tileJ), Split(p.dimK, tileK);
    ghost var z: GoodPlan := Plan(Problem(g.dram, p), sI, sJ, sK, dataflow);
    g.ConfigEx(dataflow, p.act, 0, p.scale, p.relu6Shift, p.transA, p.transB);
    g.ConfigSt(p.strideC * SizeofC(p.fullC));
    g.ConfigLd(p.strideA * SIZEOF_ELEM, p.scaleA, false, DIM, 0);
    g.ConfigLd(p.strideB * SIZEOF_ELEM, p.scaleB, false, DIM, 1);
    g.ConfigLd(if p.repeatingBias then 0 else p.strideD * SizeofD(p.lowD), p.scaleD, p.lowD, DIM, 2);
    AllTiles(g, p, sI, sJ, sK, z);
  }

  method AllTiles(g: Gemmini, p: Args, sI: GoodSplit, sJ: GoodSplit, sK: GoodSplit, ghost z: GoodPlan)
    requires z == Plan(Problem(g.dram, p), sI, sJ, sK, z.dataflow)
    requires Configured(g, p, z.dataflow)
    modifies g`ld, g`pre, g`spad, g`acc, g`pe, g`weights, g`dram
    ensures Configured(g, p, z.dataflow)
    ensures g.dram == Product(old(g.dram), p)
  {
    SplitShape(sI);
    GridStart(z);
    hide TileMajor, After, CeilDiv, Split.Count, WellPlaced;
    var i0 := 0;
    while i0 < sI.Count()
      invariant 0 <= i0 <= sI.Count() && Configured(g, p, z.dataflow)
      invariant g.dram == After(z.q, TileMajor(z, i0, 0))
    {
      TileRow(g, p, sI, sJ, sK, i0, z);
      i0 := i0 + 1;
    }
    GridEnd(z);
  }
}
