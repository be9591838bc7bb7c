/** Residual addition: resadd_cpu, and tiled_resadd_auto on the accelerator. */
module Resadd {
  import opened Accelerator
  import opened Arith
  import opened Config
  import opened LocalMemory
  import opened Quantize
  import opened Transfers

  datatype Add = Add(I: int, J: int, scaleA: Scale, scaleB: Scale, scaleC: Scale, A: int, B: int, C: int, relu: bool) {
    predicate Ok() { I >= 0 && J >= 0 && A > 0 && B > 0 && C > 0 }
    function Act(): int { if relu then RELU else NO_ACTIVATION }
  }

  type GoodAdd = x: Add | x.Ok() witness Add(0, 0, x => x, x => x, x => x, 1, 1, 1, false)

  /** Element (i, j) of an I x J matrix stored without gaps. */
  function Elem(x: Add, p: int, i: int, j: int): int { ElemAddr(p, x.J, SIZEOF_ELEM, i, j) }

  /** The matrices are in DRAM; an operand is the output matrix itself or does not meet it. */
  ghost predicate Placed(d: Dram, x: Add) {
    && MatrixIn(d, x.A, x.J, SIZEOF_ELEM, x.I, x.J) && MatrixIn(d, x.B, x.J, SIZEOF_ELEM, x.I, x.J)
    && MatrixIn(d, x.C, x.J, SIZEOF_ELEM, x.I, x.J)
    && SameOrApart(x, x.A) && SameOrApart(x, x.B)
  }

  ghost predicate SameOrApart(x: Add, p: int) {
    p == x.C || forall i, j :: 0 <= i < x.I && 0 <= j < x.J ==>
      !InMatrix(Elem(x, p, i, j), x.C, x.J, SIZEOF_ELEM, x.I, x.J)
  }

  /** The scaled sum of the operands found in d. */
  function SumAt(d: Dram, x: Add, i: int, j: int): int {
    x.scaleA(Get(d, Elem(x, x.A, i, j))) + x.scaleB(Get(d, Elem(x, x.B, i, j)))
  }

  function Result(d: Dram, x: Add): (int, int) -> int {
    (i, j) => ScaleAndSat(SumAt(d, x, i, j), x.Act(), x.scaleC, 0)
  }

  function Everything(): (int, int) -> bool { (i, j) => true }

  /** From d to d', C has become the saturated sum of A and B as they were in d. */
  ghost predicate Added(d: Dram, d': Dram, x: Add) {
    Stored(d, d', x.C, x.J, SIZEOF_ELEM, x.I, x.J, Result(d, x), Everything())
  }

  /** DRAM with all of a matrix replaced is determined. */
  lemma AddedUnique(d: Dram, d1: Dram, d2: Dram, x: Add)
    requires Added(d, d1, x) && Added(d, d2, x)
    ensures d1 == d2
  {
    forall a | a in d ensures d1[a] == d2[a] {
      assert Get(d1, a) == d1[a] && Get(d2, a) == d2[a];
      if InMatrix(a, x.C, x.J, SIZEOF_ELEM, x.I, x.J) {
        var i, j :| 0 <= i < x.I && 0 <= j < x.J && a == ElemAddr(x.C, x.J, SIZEOF_ELEM, i, j);
      }
    }
  }

  /** An operand element is still as it was while its output element is not written. */
  lemma OperandIntact(d: Dram, d': Dram, x: GoodAdd, p: int, done: (int, int) -> bool, i: int, j: int)
    requires MatrixIn(d, p, x.J, SIZEOF_ELEM, x.I, x.J) && SameOrApart(x, p)
    requires Stored(d, d', x.C, x.J, SIZEOF_ELEM, x.I, x.J, Result(d, x), done)
    requires 0 <= i < x.I && 0 <= j < x.J && !done(i, j)
    ensures Get(d', Elem(x, p, i, j)) == Get(d, Elem(x, p, i, j))
  {
    hide ElemAddr, InMatrix;
    if p != x.C {
      assert !InMatrix(Elem(x, p, i, j), x.C, x.J, SIZEOF_ELEM, x.I, x.J);
      assert Elem(x, p, i, j) in d;
    }
  }

  lemma SumIntact(d: Dram, d': Dram, x: GoodAdd, done: (int, int) -> bool, i: int, j: int)
    requires Placed(d, x) && Stored(d, d', x.C, x.J, SIZEOF_ELEM, x.I, x.J, Result(d, x), done)
    requires 0 <= i < x.I && 0 <= j < x.J && !done(i, j)
    ensures SumAt(d', x, i, j) == SumAt(d, x, i, j)
  {
    OperandIntact(d, d', x, x.A, done, i, j);
    OperandIntact(d, d', x, x.B, done, i, j);
  }

  // ---------- the CPU ----------

  function Before(i: int, j: int): (int, int) -> bool { (r, c) => r < i || (r == i && c < j) }

  lemma SaturatedSum(s: int, x: Add)
    ensures var y := x.scaleC(s);
      var minimum := if x.relu then 0 else ELEM_MIN;
      (if y > ELEM_MAX then ELEM_MAX else if y < minimum then minimum else y)
        == ScaleAndSat(s, x.Act(), x.scaleC, 0)
  {}

  /** One more element in place. */
  lemma StoreOne(d: Dram, d': Dram, x: GoodAdd, i: int, j: int, done: (int, int) -> bool, done': (int, int) -> bool)
    requires Placed(d, x) && 0 <= i < x.I && 0 <= j < x.J
    requires Stored(d, d', x.C, x.J, SIZEOF_ELEM, x.I, x.J, Result(d, x), done)
    requires forall r, c :: 0 <= r < x.I && 0 <= c < x.J ==> (done'(r, c) <==> done(r, c) || (r == i && c == j))
    ensures Stored(d, d'[Elem(x, x.C, i, j) := Result(d, x)(i, j)], x.C, x.J, SIZEOF_ELEM, x.I, x.J, Result(d, x),
                   done')
  {
    var a := Elem(x, x.C, i, j);
    assert a == ElemAddr(x.C, x.J, SIZEOF_ELEM, i, j);
    assert InMatrix(a, x.C, x.J, SIZEOF_ELEM, x.I, x.J);
    var d2 := d'[a := Result(d, x)(i, j)];
    assert d2.Keys == d.Keys;
    forall r, c | 0 <= r < x.I && 0 <= c < x.J
      ensures Get(d2, ElemAddr(x.C, x.J, SIZEOF_ELEM, r, c)) ==
        if done'(r, c) then Result(d, x)(r, c) else Get(d, ElemAddr(x.C, x.J, SIZEOF_ELEM, r, c))
    {
      if ElemAddr(x.C, x.J, SIZEOF_ELEM, r, c) == a { ElemAddrInjective(x.C, x.J, SIZEOF_ELEM, x.J, r, c, i, j); }
      hide ElemAddr, InMatrix, Result;
    }
    hide ElemAddr, InMatrix, Result;
  }

  /** resadd_cpu */
  method ResaddCpu(g: Gemmini, x: GoodAdd)
    requires g.Valid() && Placed(g.dram, x)
    modifies g`dram
    ensures g.Valid() && Added(old(g.dram), g.dram, x)
  {
    ghost var d := g.dram;
    for i := 0 to x.I
      invariant g.Valid() && Stored(d, g.dram, x.C, x.J, SIZEOF_ELEM, x.I, x.J, Result(d, x), Before(i, 0))
    {
      for j := 0 to x.J
        invariant g.Valid() && Stored(d, g.dram, x.C, x.J, SIZEOF_ELEM, x.I, x.J, Result(d, x), Before(i, j))
      {
        CpuElement(g, x, i, j, d);
      }
    }
  }

  lemma StoreElement(d: Dram, d1: Dram, x: GoodAdd, i: int, j: int)
    requires Placed(d, x) && 0 <= i < x.I && 0 <= j < x.J
    requires Stored(d, d1, x.C, x.J, SIZEOF_ELEM, x.I, x.J, Result(d, x), Before(i, j))
    ensures Stored(d, d1[Elem(x, x.C, i, j) := Result(d, x)(i, j)], x.C, x.J, SIZEOF_ELEM, x.I, x.J, Result(d, x),
                   Before(i, j + 1))
  {
    hide Placed, Stored, Elem, Result;
    StoreOne(d, d1, x, i, j, Before(i, j), Before(i, j + 1));
  }

  lemma ElementAddrs(d: Dram, d1: Dram, x: GoodAdd, i: int, j: int)
    requires Placed(d, x) && 0 <= i < x.I && 0 <= j < x.J
    requires Stored(d, d1, x.C, x.J, SIZEOF_ELEM, x.I, x.J, Result(d, x), Before(i, j))
    ensures x.A + i * x.J + j == Elem(x, x.A, i, j) && x.B + i * x.J + j == Elem(x, x.B, i, j)
    ensures x.C + i * x.J + j == Elem(x, x.C, i, j)
    ensures Elem(x, x.A, i, j) in d1 && Elem(x, x.B, i, j) in d1
  {}

  method CpuElement(g: Gemmini, x: GoodAdd, i: int, j: int, ghost d: Dram)
    requires g.Valid() && Placed(d, x) && 0 <= i < x.I && 0 <= j < x.J
    requires Stored(d, g.dram, x.C, x.J, SIZEOF_ELEM, x.I, x.J, Result(d, x), Before(i, j))
    modifies g`dram
    ensures g.Valid() && Stored(d, g.dram, x.C, x.J, SIZEOF_ELEM, x.I, x.J, Result(d, x), Before(i, j + 1))
  {
    hide Stored, Elem, Placed, Result, Before, ScaleAndSat, Add.Ok;
    ElementAddrs(d, g.dram, x, i, j);
    var a, b := g.dram[x.A + i * x.J + j], g.dram[x.B + i * x.J + j];
    CpuResult(d, g.dram, x, i, j, a, b);
    StoreElement(d, g.dram, x, i, j);
    var result := x.scaleA(a) + x.scaleB(b);
    var minimum := if x.relu then 0 else ELEM_MIN;
    result := x.scaleC(result);
    result := if result > ELEM_MAX then ELEM_MAX else if result < minimum then minimum else result;
    g.dram := g.dram[x.C + i * x.J + j := result];
  }

  lemma CpuResult(d: Dram, d1: Dram, x: GoodAdd, i: int, j: int, a: int, b: int)
    requires Placed(d, x) && 0 <= i < x.I && 0 <= j < x.J
    requires Stored(d, d1, x.C, x.J, SIZEOF_ELEM, x.I, x.J, Result(d, x), Before(i, j))
    requires Elem(x, x.A, i, j) in d1 && Elem(x, x.B, i, j) in d1
    requires a == d1[Elem(x, x.A, i, j)] && b == d1[Elem(x, x.B, i, j)]
    ensures var y, minimum := x.scaleC(x.scaleA(a) + x.scaleB(b)), if x.relu then 0 else ELEM_MIN;
      (if y > ELEM_MAX then ELEM_MAX else if y < minimum then minimum else y) == Result(d, x)(i, j)
  {
    hide Stored, Elem, Placed, ScaleAndSat;
    SumIntact(d, d1, x, Before(i, j), i, j);
    SaturatedSum(x.scaleA(a) + x.scaleB(b), x);
  }

  // ---------- the tile search ----------

  function TotalAccRows(I: int, J: int): int { CeilDiv(I, DIM) * DIM * CeilDiv(J, DIM) }

  lemma OneBlock(x: int)
    requires 0 <= x <= DIM
    ensures 0 <= CeilDiv(x, DIM) <= 1
  {
    MulLtCancel(CeilDiv(x, DIM) - 1, 1, DIM);
    MulLtCancel(-1, CeilDiv(x, DIM), DIM);
  }

  /** A tile of at most DIM by DIM always fits. */
  lemma SmallTileFits(I: int, J: int)
    requires 0 <= I <= DIM && 0 <= J <= DIM
    ensures TotalAccRows(I, J) <= ACC_ROWS
  {
    OneBlock(I);
    OneBlock(J);
    hide CeilDiv;
    Mul2(CeilDiv(I, DIM), CeilDiv(J, DIM), 1, 1);
    assert CeilDiv(I, DIM) * DIM * CeilDiv(J, DIM) == CeilDiv(I, DIM) * CeilDiv(J, DIM) * DIM;
    MulLe(CeilDiv(I, DIM) * CeilDiv(J, DIM), 1, DIM);
  }

  /** Sides of a tile after n steps, each taking one off the larger side, or off I where they are equal. */
  ghost function Steps(I: int, J: int, n: nat): (int, int)
    decreases n
  {
    if n == 0 then (I, J) else
      var x := Steps(I, J, n - 1);
      if x.0 >= x.1 then (x.0 - 1, x.1) else (x.0, x.1 - 1)
  }

  /** The accumulator holds a tile of I x J elements in whole blocks of DIM x DIM. */
  ghost predicate Holds(I: int, J: int) { CeilDiv(I, DIM) * CeilDiv(J, DIM) * DIM <= ACC_ROWS }

  lemma HoldsIs(I: int, J: int)
    ensures TotalAccRows(I, J) <= ACC_ROWS <==> Holds(I, J)
  {
    var h, w := CeilDiv(I, DIM), CeilDiv(J, DIM);
    MulAssoc(h, w, DIM);
    MulAssoc(h, DIM, w);
    Commute(w, DIM);
    hide CeilDiv;
  }

  /** Shrinks the larger side until the accumulator can hold the tile, and no further. */
  method SearchTile(I: int, J: int) returns (tileI: int, tileJ: int)
    requires I >= 0 && J >= 0
    ensures 0 <= tileI <= I && 0 <= tileJ <= J && (I > 0 ==> tileI > 0) && (J > 0 ==> tileJ > 0)
    ensures TotalAccRows(tileI, tileJ) <= ACC_ROWS
    ensures exists n: nat :: Steps(I, J, n) == (tileI, tileJ) && Holds(tileI, tileJ)
                             && forall m: nat :: m < n ==> !Holds(Steps(I, J, m).0, Steps(I, J, m).1)
  {
    tileI, tileJ := I, J;
    ghost var n: nat := 0;
    while TotalAccRows(tileI, tileJ) > ACC_ROWS
      invariant 0 <= tileI <= I && 0 <= tileJ <= J && (I > 0 ==> tileI > 0) && (J > 0 ==> tileJ > 0)
      invariant Steps(I, J, n) == (tileI, tileJ)
      invariant forall m: nat :: m < n ==> !Holds(Steps(I, J, m).0, Steps(I, J, m).1)
      decreases tileI + tileJ
    {
      if tileI <= DIM && tileJ <= DIM { SmallTileFits(tileI, tileJ); }
      HoldsIs(tileI, tileJ);
      hide TotalAccRows, Holds;
      if tileI >= tileJ {
        tileI := tileI - 1;
      } else {
        tileJ := tileJ - 1;
      }
      n := n + 1;
    }
    HoldsIs(tileI, tileJ);
  }

  // ---------- one tile on the accelerator ----------

  const ACC_OVERWRITE: int := 0x8000_0000
  const ACC_ADD: int := 0xC000_0000

  /** A tile of rows x cols elements with its operand pointers; rows of DRAM are `stride` apart. */
  datatype Tile = Tile(rows: int, cols: int, a: int, b: int, c: int, stride: int) {
    predicate Ok() {
      rows > 0 && cols > 0 && a > 0 && b > 0 && c > 0 && stride >= cols && TotalAccRows(rows, cols) <= ACC_ROWS
    }
    function W(): int { CeilDiv(cols, DIM) }
    function H(): int { CeilDiv(rows, DIM) }
    function V(): View { View(0, H(), W()) }
  }

  type GoodTile = t: Tile | t.Ok() ghost witness WitnessTile()

  ghost function WitnessTile(): Tile
    ensures WitnessTile().Ok()
  {
    SmallTileFits(1, 1);
    Tile(1, 1, 1, 1, 1, 1)
  }

  lemma BlocksTimes(h: int, w: int)
    ensures h * DIM * w == h * w * DIM
  {}

  lemma TileView(t: GoodTile)
    ensures Fits(t.V(), ACC_ROWS) && t.H() > 0 && t.W() > 0
    ensures t.rows <= t.H() * DIM && t.cols <= t.W() * DIM
  {
    hide CeilDiv;
    MulLtCancel(0, t.H(), DIM);
    MulLtCancel(0, t.W(), DIM);
    BlocksTimes(t.H(), t.W());
  }

  /** Blocks moved by one command. */
  function BlocksAtOnce(t: GoodTile): (n: int)
    ensures 0 < n <= MAX_BLOCK_LEN && n <= t.W()
  {
    TileView(t);
    if t.W() > MAX_BLOCK_LEN then MAX_BLOCK_LEN else t.W()
  }

  function RunCols(t: Tile, j: int, n: int): int { if j + n * DIM <= t.cols then n * DIM else t.cols - j }
  function RunRows(t: Tile, i: int): int { if i + DIM <= t.rows then DIM else t.rows - i }

  lemma RunBounds(J: int, n: int, jb: int, cols: int)
    requires 0 < n && 0 <= jb && jb * DIM < J && cols == if jb * DIM + n * DIM <= J then n * DIM else J - jb * DIM
    ensures var k := CeilDiv(cols, DIM);
      0 < k <= n && jb + k <= CeilDiv(J, DIM) && (k - 1) * DIM < cols <= k * DIM && jb * DIM + cols <= J
  {
    var k := CeilDiv(cols, DIM);
    MulLe(1, n, DIM);
    MulLtCancel(0, k, DIM);
    MulLtCancel(k - 1, n, DIM);
    assert (jb + k - 1) * DIM == jb * DIM + (k - 1) * DIM;
    MulLtCancel(jb + k - 1, CeilDiv(J, DIM), DIM);
  }

  /** The run of blocks that starts at block (ib, jb). */
  lemma RunFacts(t: GoodTile, ib: int, jb: int)
    requires 0 <= ib && 0 <= jb && ib * DIM < t.rows && jb * DIM < t.cols
    ensures var n := BlocksAtOnce(t); var cols, k := RunCols(t, jb * DIM, n), CeilDiv(RunCols(t, jb * DIM, n), DIM);
      && 0 < k <= n && jb + k <= t.W() && (k - 1) * DIM < cols <= k * DIM && ib < t.H()
      && jb * DIM + cols <= t.cols && 0 < RunRows(t, ib * DIM) <= DIM && ib * DIM + RunRows(t, ib * DIM) <= t.rows
  {
    RunBounds(t.cols, BlocksAtOnce(t), jb, RunCols(t, jb * DIM, BlocksAtOnce(t)));
    MulLtCancel(ib, t.H(), DIM);
    hide CeilDiv, BlocksAtOnce, TotalAccRows;
  }

  lemma RunCovers(t: GoodTile, ib: int, jb: int, n: int, row: int, col: int)
    requires 0 <= row < t.rows && 0 <= col < t.cols && n > 0
    ensures RowMajor(ib, jb + n)(row, col) <==>
              RowMajor(ib, jb)(row, col) || Inside(ib, jb, RunRows(t, ib * DIM), RunCols(t, jb * DIM, n), row, col)
  {}

  lemma BlockRow(ib: int, jb: int, w: int)
    ensures ib * DIM * w + jb * DIM == (ib * w + jb) * DIM
  {}

  lemma TileAddress(t: GoodTile, flags: int, ib: int, jb: int)
    requires flags == 4 || flags == 6
    requires 0 <= ib && 0 <= jb && ib < t.H() && jb < t.W()
    ensures var addr := flags * 0x2000_0000 + ib * DIM * t.W() + jb * DIM;
      && IsAcc(addr) && RowOf(addr) == t.V().base + (ib * t.V().W + jb) * DIM
      && (Accumulates(addr) <==> flags == 6) && !FullWidth(addr)
  {
    TileView(t);
    BlockRunFits(t.V(), ib, jb, 1);
    var row := (ib * t.W() + jb) * DIM;
    BlockRow(ib, jb, t.W());
    hide Fits, CeilDiv, Tile.H, Tile.W, Tile.Ok, IsAcc, RowOf, Accumulates, FullWidth;
    AccAddress(flags, row);
  }

  /** What a narrow load of the matrix at p brings in. */
  function Narrow(d: Dram, ld: LoadConfig, p: int): (int, int) -> int {
    (r, c) => ld.scale(Get(d, ElemAddr(p, ld.stride, SIZEOF_ELEM, r, c)))
  }

  /** The configuration of tiled_resadd. */
  ghost predicate Configured(g: Gemmini, t: Tile)
    reads g
  {
    && g.Valid() && g.stStride == t.stride
    && (forall id :: 0 <= id < 2 ==> g.ld[id].stride == t.stride && g.ld[id].shrunk && g.ld[id].blockStride == DIM)
  }

  lemma NarrowIs(d: Dram, ld: LoadConfig, p: int, addr: int)
    requires p != NULL && ld.shrunk && IsAcc(addr)
    ensures LoadSize(ld, addr) == SIZEOF_ELEM
    ensures forall r, c :: LoadFn(d, ld, p, addr)(r, c) == Narrow(d, ld, p)(r, c)
  {}

  lemma Pointer(p: int, stride: int, ib: int, jb: int)
    requires p > 0 && stride >= 0 && ib >= 0 && jb >= 0
    ensures p + ib * DIM * stride + jb * DIM == ElemAddr(p, stride, SIZEOF_ELEM, ib * DIM, jb * DIM) > 0
  {}

  /** One mvin of A, over whatever the accumulator held. */
  method MvinARun(g: Gemmini, t: GoodTile, i: int, j: int, ghost ib: int, ghost jb: int)
    requires Configured(g, t) && MatrixIn(g.dram, t.a, t.stride, SIZEOF_ELEM, t.rows, t.cols)
    requires 0 <= ib && 0 <= jb && i == ib * DIM && j == jb * DIM && i < t.rows && j < t.cols
    requires Filled(g.acc, t.V(), Narrow(g.dram, g.ld[0], t.a), t.rows, t.cols, RowMajor(ib, jb))
    modifies g`spad, g`acc
    ensures Configured(g, t)
    ensures Filled(g.acc, t.V(), Narrow(g.dram, g.ld[0], t.a), t.rows, t.cols, RowMajor(ib, jb + BlocksAtOnce(t)))
  {
    var n := BlocksAtOnce(t);
    var cols, rows := RunCols(t, j, n), RunRows(t, i);
    var addr := ACC_OVERWRITE + i * t.W() + j;
    ghost var k := CeilDiv(cols, DIM);
    TileView(t);
    RunFacts(t, ib, jb);
    TileAddress(t, 4, ib, jb);
    NarrowIs(g.dram, g.ld[0], t.a, addr);
    Pointer(t.a, t.stride, ib, jb);
    forall row, col | 0 <= row < t.rows && 0 <= col < t.cols && RowMajor(ib, jb + n)(row, col)
      ensures RowMajor(ib, jb)(row, col) || Inside(ib, jb, rows, cols, row, col)
    {
      RunCovers(t, ib, jb, n, row, col);
    }
    hide Tile.Ok, CeilDiv, BlocksAtOnce, RunCols, RunRows, RowMajor, Inside, LoadFn, Narrow, Fits, ElemAddr, RowOf,
         IsAcc, Accumulates, FullWidth;
    MvinFill(g, 0, t.a + i * t.stride + j, addr, cols, rows, t.a, t.V(), NOWHERE, ib, jb, k,
             Narrow(g.dram, g.ld[0], t.a), t.rows, t.cols, RowMajor(ib, jb), RowMajor(ib, jb + n));
  }

  /** A row of blocks done is the start of the next. */
  lemma RowDone(t: GoodTile, ib: int, jb: int)
    requires jb * DIM >= t.cols
    ensures forall row, col :: 0 <= row < t.rows && 0 <= col < t.cols ==>
      (RowMajor(ib, jb)(row, col) <==> RowMajor(ib + 1, 0)(row, col))
  {}

  lemma AllDone(t: GoodTile, ib: int)
    requires ib * DIM >= t.rows
    ensures forall row, col :: 0 <= row < t.rows && 0 <= col < t.cols ==> RowMajor(ib, 0)(row, col)
  {}

  /** Mvin A: the whole tile overwritten. */
  method MvinA(g: Gemmini, t: GoodTile)
    requires Configured(g, t) && MatrixIn(g.dram, t.a, t.stride, SIZEOF_ELEM, t.rows, t.cols)
    modifies g`spad, g`acc
    ensures Configured(g, t)
    ensures Filled(g.acc, t.V(), Narrow(g.dram, g.ld[0], t.a), t.rows, t.cols, Everything())
  {
    var i := 0;
    ghost var ib := 0;
    hide Tile.Ok, Narrow, MatrixIn, Val;
    while i < t.rows
      invariant 0 <= ib && i == ib * DIM && Configured(g, t)
      invariant Filled(g.acc, t.V(), Narrow(g.dram, g.ld[0], t.a), t.rows, t.cols, RowMajor(ib, 0))
    {
      var j := 0;
      ghost var jb := 0;
      while j < t.cols
        invariant 0 <= jb && j == jb * DIM && Configured(g, t)
        invariant Filled(g.acc, t.V(), Narrow(g.dram, g.ld[0], t.a), t.rows, t.cols, RowMajor(ib, jb))
      {
        hide Filled, RowMajor;
        MvinARun(g, t, i, j, ib, jb);
        j := j + BlocksAtOnce(t) * DIM;
        jb := jb + BlocksAtOnce(t);
      }
      RowDone(t, ib, jb);
      i := i + DIM;
      ib := ib + 1;
    }
    AllDone(t, ib);
  }

  /** The tile holds f, plus h where done. */
  ghost predicate Summed(m: Mem, t: Tile, f: (int, int) -> int, h: (int, int) -> int, done: (int, int) -> bool) {
    forall row, col :: 0 <= row < t.rows && 0 <= col < t.cols ==>
      Val(m, t.V(), row, col) == f(row, col) + (if done(row, col) then h(row, col) else 0)
  }

  lemma SumStep(m: Mem, m': Mem, t: GoodTile, f: (int, int) -> int, h: (int, int) -> int, load: (int, int) -> int,
                ib: int, jb: int, rows: int, cols: int, n: int)
    requires Summed(m, t, f, h, RowMajor(ib, jb)) && Moved(m, m', t.V(), ib, jb, rows, cols, true, load)
    requires rows == RunRows(t, ib * DIM) && cols == RunCols(t, jb * DIM, n) && n > 0 && ib >= 0 && jb >= 0
    requires forall r, c :: load(r, c) == h(r, c)
    ensures Summed(m', t, f, h, RowMajor(ib, jb + n))
  {}

  /** One mvin2 of B, added to what the accumulator holds. */
  method MvinBRun(g: Gemmini, t: GoodTile, i: int, j: int, ghost ib: int, ghost jb: int, ghost f: (int, int) -> int)
    requires Configured(g, t) && MatrixIn(g.dram, t.b, t.stride, SIZEOF_ELEM, t.rows, t.cols)
    requires 0 <= ib && 0 <= jb && i == ib * DIM && j == jb * DIM && i < t.rows && j < t.cols
    requires Summed(g.acc, t, f, Narrow(g.dram, g.ld[1], t.b), RowMajor(ib, jb))
    modifies g`spad, g`acc
    ensures Configured(g, t)
    ensures Summed(g.acc, t, f, Narrow(g.dram, g.ld[1], t.b), RowMajor(ib, jb + BlocksAtOnce(t)))
  {
    var n := BlocksAtOnce(t);
    var cols, rows := RunCols(t, j, n), RunRows(t, i);
    var addr := ACC_ADD + i * t.W() + j;
    ghost var k, m := CeilDiv(cols, DIM), g.acc;
    TileView(t);
    RunFacts(t, ib, jb);
    TileAddress(t, 6, ib, jb);
    NarrowIs(g.dram, g.ld[1], t.b, addr);
    Pointer(t.b, t.stride, ib, jb);
    InTile(g.dram, t, t.b, ib, jb, rows, cols);
    hide Tile.Ok, CeilDiv, BlocksAtOnce, RunCols, RunRows, RowMajor, LoadFn, Narrow, Fits, ElemAddr, RowOf, IsAcc,
         Accumulates, FullWidth, Summed, Moved, Same, MatrixIn, Inside;
    MvinBlocks(g, 1, t.b + i * t.stride + j, addr, cols, rows, t.b, t.V(), NOWHERE, ib, jb, k);
    SumStep(m, g.acc, t, f, Narrow(g.dram, g.ld[1], t.b), LoadFn(g.dram, g.ld[1], t.b, addr), ib, jb, rows, cols, n);
  }

  lemma InTile(d: Dram, t: GoodTile, p: int, ib: int, jb: int, rows: int, cols: int)
    requires MatrixIn(d, p, t.stride, SIZEOF_ELEM, t.rows, t.cols) && ib >= 0 && jb >= 0
    requires ib * DIM + rows <= t.rows && jb * DIM + cols <= t.cols
    ensures forall row, col :: Inside(ib, jb, rows, cols, row, col) ==>
              ElemAddr(p, t.stride, SIZEOF_ELEM, row, col) in d
  {
    MulLe(0, ib, DIM);
    MulLe(0, jb, DIM);
    hide ElemAddr, Tile.Ok;
  }

  /** Mvin B: the tile now holds the scaled sum. */
  method MvinB(g: Gemmini, t: GoodTile, ghost f: (int, int) -> int)
    requires Configured(g, t) && MatrixIn(g.dram, t.b, t.stride, SIZEOF_ELEM, t.rows, t.cols)
    requires Filled(g.acc, t.V(), f, t.rows, t.cols, Everything())
    modifies g`spad, g`acc
    ensures Configured(g, t)
    ensures Summed(g.acc, t, f, Narrow(g.dram, g.ld[1], t.b), Everything())
  {
    var i := 0;
    ghost var ib := 0;
    hide Tile.Ok, Narrow, MatrixIn, Val;
    while i < t.rows
      invariant 0 <= ib && i == ib * DIM && Configured(g, t)
      invariant Summed(g.acc, t, f, Narrow(g.dram, g.ld[1], t.b), RowMajor(ib, 0))
    {
      var j := 0;
      ghost var jb := 0;
      while j < t.cols
        invariant 0 <= jb && j == jb * DIM && Configured(g, t)
        invariant Summed(g.acc, t, f, Narrow(g.dram, g.ld[1], t.b), RowMajor(ib, jb))
      {
        hide Summed, RowMajor;
        MvinBRun(g, t, i, j, ib, jb, f);
        j := j + BlocksAtOnce(t) * DIM;
        jb := jb + BlocksAtOnce(t);
      }
      RowDone(t, ib, jb);
      i := i + DIM;
      ib := ib + 1;
    }
    AllDone(t, ib);
  }

  /** What leaves the accumulator for a sum of f and h. */
  function Leaves(ex: ExConfig, f: (int, int) -> int, h: (int, int) -> int): (int, int) -> int {
    (r, c) => ScaleAndSat(f(r, c) + h(r, c), ex.act, ex.accScale, ex.relu6Shift)
  }

  /** One mvout of C. */
  method MvoutRun(g: Gemmini, t: GoodTile, i: int, j: int, ghost ib: int, ghost jb: int,
                  ghost d: Dram, ghost f: (int, int) -> int, ghost h: (int, int) -> int)
    requires Configured(g, t) && MatrixIn(d, t.c, t.stride, SIZEOF_ELEM, t.rows, t.cols)
    requires 0 <= ib && 0 <= jb && i == ib * DIM && j == jb * DIM && i < t.rows && j < t.cols
    requires Summed(g.acc, t, f, h, Everything())
    requires Stored(d, g.dram, t.c, t.stride, SIZEOF_ELEM, t.rows, t.cols, Leaves(g.ex, f, h), RowMajor(ib, jb))
    modifies g`dram
    ensures Configured(g, t)
    ensures Stored(d, g.dram, t.c, t.stride, SIZEOF_ELEM, t.rows, t.cols, Leaves(g.ex, f, h),
                   RowMajor(ib, jb + BlocksAtOnce(t)))
  {
    var n := BlocksAtOnce(t);
    var cols, rows := RunCols(t, j, n), RunRows(t, i);
    var addr := ACC_OVERWRITE + i * t.W() + j;
    ghost var k := CeilDiv(cols, DIM);
    RunReady(t, 4, i, j, ib, jb, addr);
    assert t.c > 0 && t.stride >= 0 && t.cols <= t.stride;
    hide Tile.Ok, CeilDiv, BlocksAtOnce, RunCols, RunRows, RowMajor, Fits, ElemAddr, RowOf, IsAcc, Accumulates,
         FullWidth, Summed, Stored, MatrixIn, Inside, Leaves, Leaving, StoreSize, TotalAccRows, Val;
    Pointer(t.c, t.stride, ib, jb);
    LeavesIs(g.ex, addr, g.acc, t, f, h, ib, jb, rows, cols);
    MvoutBlocks(g, t.c + i * t.stride + j, addr, cols, rows, t.c, t.V(), ib, jb, k, d, Leaves(g.ex, f, h), t.rows,
                t.cols,
                RowMajor(ib, jb), RowMajor(ib, jb + n));
  }

  /** Everything a transfer of the run at block (ib, jb) needs to know. */
  lemma RunReady(t: GoodTile, flags: int, i: int, j: int, ib: int, jb: int, addr: int)
    requires 0 <= ib && 0 <= jb && i == ib * DIM && j == jb * DIM && i < t.rows && j < t.cols
    requires (flags == 4 || flags == 6) && addr == flags * 0x2000_0000 + i * t.W() + j
    ensures Fits(t.V(), ACC_ROWS) && t.rows <= t.H() * DIM && t.cols <= t.W() * DIM
    ensures IsAcc(addr) && RowOf(addr) == t.V().base + (ib * t.V().W + jb) * DIM
    ensures (Accumulates(addr) <==> flags == 6) && !FullWidth(addr) && StoreSize(addr) == SIZEOF_ELEM
    ensures var n := BlocksAtOnce(t); var cols, rows, k := RunCols(t, j, n), RunRows(t, i),
            CeilDiv(RunCols(t, j, n), DIM);
      && 0 < k <= n && jb + k <= t.W() && (k - 1) * DIM < cols <= k * DIM && ib < t.H()
      && jb * DIM + cols <= t.cols && 0 < rows <= DIM && ib * DIM + rows <= t.rows
      && (forall row, col :: 0 <= row < t.rows && 0 <= col < t.cols ==>
            (RowMajor(ib, jb + n)(row, col) <==> RowMajor(ib, jb)(row, col) || Inside(ib, jb, rows, cols, row, col)))
  {
    TileView(t);
    RunFacts(t, ib, jb);
    TileAddress(t, flags, ib, jb);
    hide Tile.Ok, CeilDiv, BlocksAtOnce, RunCols, RunRows, RowMajor, Fits, RowOf, IsAcc, Accumulates, FullWidth,
         Inside, TotalAccRows;
    var n := BlocksAtOnce(t);
    forall row, col | 0 <= row < t.rows && 0 <= col < t.cols
      ensures RowMajor(ib, jb + n)(row, col) <==>
                RowMajor(ib, jb)(row, col) || Inside(ib, jb, RunRows(t, i), RunCols(t, j, n), row, col)
    {
      RunCovers(t, ib, jb, n, row, col);
    }
  }

  lemma LeavesIs(ex: ExConfig, addr: int, m: Mem, t: GoodTile, f: (int, int) -> int, h: (int, int) -> int,
                 ib: int, jb: int, rows: int, cols: int)
    requires IsAcc(addr) && !FullWidth(addr) && Summed(m, t, f, h, Everything()) && ib >= 0 && jb >= 0
    requires ib * DIM + rows <= t.rows && jb * DIM + cols <= t.cols
    ensures forall row, col :: Inside(ib, jb, rows, cols, row, col) ==>
      Leaves(ex, f, h)(row, col) == Leaving(ex, addr, Val(m, t.V(), row, col))
  {}

  method MvoutC(g: Gemmini, t: GoodTile, ghost f: (int, int) -> int, ghost h: (int, int) -> int)
    requires Configured(g, t) && MatrixIn(g.dram, t.c, t.stride, SIZEOF_ELEM, t.rows, t.cols)
    requires Summed(g.acc, t, f, h, Everything())
    modifies g`dram
    ensures Configured(g, t)
    ensures Stored(old(g.dram), g.dram, t.c, t.stride, SIZEOF_ELEM, t.rows, t.cols, Leaves(g.ex, f, h), Everything())
  {
    ghost var d := g.dram;
    var i := 0;
    ghost var ib := 0;
    hide Tile.Ok, MatrixIn, Val, Leaves, ElemAddr, Summed;
    while i < t.rows
      invariant 0 <= ib && i == ib * DIM && Configured(g, t)
      invariant Stored(d, g.dram, t.c, t.stride, SIZEOF_ELEM, t.rows, t.cols, Leaves(g.ex, f, h), RowMajor(ib, 0))
    {
      var j := 0;
      ghost var jb := 0;
      while j < t.cols
        invariant 0 <= jb && j == jb * DIM && Configured(g, t)
        invariant Stored(d, g.dram, t.c, t.stride, SIZEOF_ELEM, t.rows, t.cols, Leaves(g.ex, f, h), RowMajor(ib, jb))
      {
        hide Stored, RowMajor;
        MvoutRun(g, t, i, j, ib, jb, d, f, h);
        j := j + BlocksAtOnce(t) * DIM;
        jb := jb + BlocksAtOnce(t);
      }
      RowDone(t, ib, jb);
      i := i + DIM;
      ib := ib + 1;
    }
    AllDone(t, ib);
  }

  /** sp_tiled_resadd: all operand reads of a tile come before its writes. */
  method SpTiledResadd(g: Gemmini, t: GoodTile)
    requires Configured(g, t) && MatrixIn(g.dram, t.a, t.stride, SIZEOF_ELEM, t.rows, t.cols)
    requires MatrixIn(g.dram, t.b, t.stride, SIZEOF_ELEM, t.rows, t.cols)
    requires MatrixIn(g.dram, t.c, t.stride, SIZEOF_ELEM, t.rows, t.cols)
    modifies g`spad, g`acc, g`dram
    ensures Configured(g, t)
    ensures Stored(old(g.dram), g.dram, t.c, t.stride, SIZEOF_ELEM, t.rows, t.cols,
                   Leaves(g.ex, Narrow(old(g.dram), g.ld[0], t.a), Narrow(old(g.dram), g.ld[1], t.b)), Everything())
  {
    hide Tile.Ok, MatrixIn, Val, Leaves, ElemAddr, Summed, Filled, Stored, Narrow;
    ghost var f, h := Narrow(g.dram, g.ld[0], t.a), Narrow(g.dram, g.ld[1], t.b);
    MvinA(g, t);
    MvinB(g, t, f);
    MvoutC(g, t, f, h);
  }

  // ---------- all tiles ----------

  function TileMajor(i: int, n: int, j: int): (int, int) -> bool { (r, c) => r < i || (r < i + n && c < j) }

  predicate InTileAt(i: int, j: int, n: int, m: int, r: int, c: int) { i <= r < i + n && j <= c < j + m }

  /** The tile whose first element is (i, j). */
  function TileAt(x: Add, i: int, j: int, rows: int, cols: int): Tile {
    Tile(rows, cols, x.A + i * x.J + j, x.B + i * x.J + j, x.C + i * x.J + j, x.J)
  }

  lemma TileElem(p: int, J: int, i: int, j: int, r: int, c: int)
    ensures ElemAddr(p + i * J + j, J, SIZEOF_ELEM, r, c) == ElemAddr(p, J, SIZEOF_ELEM, i + r, j + c)
  {}

  lemma TileInside(d: Dram, x: GoodAdd, p: int, i: int, j: int, rows: int, cols: int)
    requires MatrixIn(d, p, x.J, SIZEOF_ELEM, x.I, x.J) && 0 <= i && 0 <= j && i + rows <= x.I && j + cols <= x.J
    ensures MatrixIn(d, p + i * x.J + j, x.J, SIZEOF_ELEM, rows, cols)
  {
    var q := p + i * x.J + j;
    forall r, c | 0 <= r < rows && 0 <= c < cols ensures ElemAddr(q, x.J, SIZEOF_ELEM, r, c) in d {
      TileElem(p, x.J, i, j, r, c);
    }
  }

  lemma TileMember(x: GoodAdd, i: int, j: int, rows: int, cols: int, a: int)
    requires 0 <= i && 0 <= j && i + rows <= x.I && j + cols <= x.J
    requires InMatrix(a, x.C + i * x.J + j, x.J, SIZEOF_ELEM, rows, cols)
    ensures InMatrix(a, x.C, x.J, SIZEOF_ELEM, x.I, x.J)
    ensures exists r, c :: InTileAt(i, j, rows, cols, r, c) && a == ElemAddr(x.C, x.J, SIZEOF_ELEM, r, c)
  {
    var r, c :| 0 <= r < rows && 0 <= c < cols && a == ElemAddr(x.C + i * x.J + j, x.J, SIZEOF_ELEM, r, c);
    TileElem(x.C, x.J, i, j, r, c);
    assert InTileAt(i, j, rows, cols, i + r, j + c);
  }

  /** What a tile stores is the result computed from the initial DRAM, even where B is C. */
  lemma TileValue(d: Dram, d': Dram, x: GoodAdd, ex: ExConfig, la: LoadConfig, lb: LoadConfig, done: (int, int) -> bool,
                  i: int, j: int, r: int, c: int)
    requires Placed(d, x) && Stored(d, d', x.C, x.J, SIZEOF_ELEM, x.I, x.J, Result(d, x), done)
    requires 0 <= r < x.I && 0 <= c < x.J && !done(r, c)
    requires la.stride == x.J && lb.stride == x.J && la.scale == x.scaleA && lb.scale == x.scaleB
    requires ex.act == x.Act() && ex.accScale == x.scaleC && ex.relu6Shift == 0
    ensures Leaves(ex, Narrow(d', la, x.A + i * x.J + j), Narrow(d', lb, x.B + i * x.J + j))(r - i, c - j)
              == Result(d, x)(r, c)
  {
    hide Placed, Stored, ElemAddr, ScaleAndSat;
    TileElem(x.A, x.J, i, j, r - i, c - j);
    TileElem(x.B, x.J, i, j, r - i, c - j);
    SumIntact(d, d', x, done, r, c);
  }

  lemma TileCell(d: Dram, d1: Dram, d2: Dram, x: GoodAdd, f: (int, int) -> int, done: (int, int) -> bool,
                 i: int, j: int, rows: int, cols: int, r: int, c: int)
    requires Placed(d, x) && Stored(d, d1, x.C, x.J, SIZEOF_ELEM, x.I, x.J, Result(d, x), done)
    requires Stored(d1, d2, x.C + i * x.J + j, x.J, SIZEOF_ELEM, rows, cols, f, Everything())
    requires 0 <= i && 0 <= j && i + rows <= x.I && j + cols <= x.J && 0 <= r < x.I && 0 <= c < x.J
    ensures Get(d2, ElemAddr(x.C, x.J, SIZEOF_ELEM, r, c)) ==
      if InTileAt(i, j, rows, cols, r, c) then f(r - i, c - j) else Get(d1, ElemAddr(x.C, x.J, SIZEOF_ELEM, r, c))
  {
    hide ElemAddr, InMatrix, Result, SameOrApart;
    var a := ElemAddr(x.C, x.J, SIZEOF_ELEM, r, c);
    if InTileAt(i, j, rows, cols, r, c) {
      TileElem(x.C, x.J, i, j, r - i, c - j);
      assert Get(d2, ElemAddr(x.C + i * x.J + j, x.J, SIZEOF_ELEM, r - i, c - j)) == f(r - i, c - j);
    } else {
      if InMatrix(a, x.C + i * x.J + j, x.J, SIZEOF_ELEM, rows, cols) {
        TileMember(x, i, j, rows, cols, a);
        var r', c' :| InTileAt(i, j, rows, cols, r', c') && a == ElemAddr(x.C, x.J, SIZEOF_ELEM, r', c');
        ElemAddrInjective(x.C, x.J, SIZEOF_ELEM, x.J, r, c, r', c');
      }
    }
  }

  /** A finished tile extends the finished part of C. */
  lemma TileStored(d: Dram, d1: Dram, d2: Dram, x: GoodAdd, f: (int, int) -> int, done: (int, int) -> bool,
                   done': (int, int) -> bool, i: int, j: int, rows: int, cols: int)
    requires Placed(d, x) && Stored(d, d1, x.C, x.J, SIZEOF_ELEM, x.I, x.J, Result(d, x), done)
    requires Stored(d1, d2, x.C + i * x.J + j, x.J, SIZEOF_ELEM, rows, cols, f, Everything())
    requires 0 <= i && 0 <= j && i + rows <= x.I && j + cols <= x.J
    requires forall r, c :: InTileAt(i, j, rows, cols, r, c) ==> f(r - i, c - j) == Result(d, x)(r, c)
    requires forall r, c :: 0 <= r < x.I && 0 <= c < x.J ==>
               (done'(r, c) <==> done(r, c) || InTileAt(i, j, rows, cols, r, c))
    ensures Stored(d, d2, x.C, x.J, SIZEOF_ELEM, x.I, x.J, Result(d, x), done')
  {
    forall r, c | 0 <= r < x.I && 0 <= c < x.J
      ensures Get(d2, ElemAddr(x.C, x.J, SIZEOF_ELEM, r, c)) ==
        if done'(r, c) then Result(d, x)(r, c) else Get(d, ElemAddr(x.C, x.J, SIZEOF_ELEM, r, c))
    {
      TileCell(d, d1, d2, x, f, done, i, j, rows, cols, r, c);
      hide ElemAddr, Result, Placed, InMatrix;
    }
    forall a | a in d && !InMatrix(a, x.C, x.J, SIZEOF_ELEM, x.I, x.J) ensures Get(d2, a) == Get(d, a) {
      if InMatrix(a, x.C + i * x.J + j, x.J, SIZEOF_ELEM, rows, cols) {
        TileMember(x, i, j, rows, cols, a);
      }
      hide ElemAddr, InMatrix, Result;
    }
    hide ElemAddr, InMatrix, Result;
  }

  ghost predicate Set(g: Gemmini, x: Add)
    reads g
  {
    && g.Valid() && g.stStride == x.J && g.ex.act == x.Act() && g.ex.accScale == x.scaleC && g.ex.relu6Shift == 0
    && g.ld[0] == LoadConfig(x.J, x.scaleA, true, DIM) && g.ld[1] == LoadConfig(x.J, x.scaleB, true, DIM)
  }

  lemma RowsMono(I: int, J: int, I': int, J': int)
    requires 0 < I <= I' && 0 < J <= J'
    ensures TotalAccRows(I, J) <= TotalAccRows(I', J')
  {
    CeilDivMono(I, I', DIM);
    CeilDivMono(J, J', DIM);
    MulLtCancel(0, CeilDiv(I, DIM), DIM);
    MulLtCancel(0, CeilDiv(J, DIM), DIM);
    hide CeilDiv;
    Mul2(CeilDiv(I, DIM), DIM, CeilDiv(I', DIM), DIM);
    Mul2(CeilDiv(I, DIM) * DIM, CeilDiv(J, DIM), CeilDiv(I', DIM) * DIM, CeilDiv(J', DIM));
  }

  /** One tile of tiled_resadd. */
  method RunTile(g: Gemmini, x: GoodAdd, tileI: int, tileJ: int, i: int, j: int, ghost d: Dram)
    requires Set(g, x) && Placed(d, x) && tileI > 0 && tileJ > 0 && TotalAccRows(tileI, tileJ) <= ACC_ROWS
    requires 0 <= i < x.I && 0 <= j < x.J
    requires Stored(d, g.dram, x.C, x.J, SIZEOF_ELEM, x.I, x.J, Result(d, x), TileMajor(i, tileI, j))
    modifies g`spad, g`acc, g`dram
    ensures Set(g, x)
    ensures Stored(d, g.dram, x.C, x.J, SIZEOF_ELEM, x.I, x.J, Result(d, x), TileMajor(i, tileI, j + tileJ))
  {
    var rows := if i + tileI <= x.I then tileI else x.I - i;
    var cols := if j + tileJ <= x.J then tileJ else x.J - j;
    var t := TileAt(x, i, j, rows, cols);
    RowsMono(rows, cols, tileI, tileJ);
    MulLe(0, i, x.J);
    hide Stored, Placed, MatrixIn, Leaves, Narrow, Result, TotalAccRows, ElemAddr, TileMajor;
    ghost var d1 := g.dram;
    OperandsInside(d, d1, x, TileMajor(i, tileI, j), i, j, rows, cols);
    ghost var f := Leaves(g.ex, Narrow(d1, g.ld[0], t.a), Narrow(d1, g.ld[1], t.b));
    TileResults(d, d1, x, g.ex, g.ld, i, tileI, j, rows, cols);
    SpTiledResadd(g, t);
    TileMajorStep(x, i, tileI, j, tileJ, rows, cols);
    TileStored(d, d1, g.dram, x, f, TileMajor(i, tileI, j), TileMajor(i, tileI, j + tileJ), i, j, rows, cols);
  }

  /** What SpTiledResadd stores for the tile at (i, j). */
  lemma TileResults(d: Dram, d1: Dram, x: GoodAdd, ex: ExConfig, ld: seq<LoadConfig>, i: int, tileI: int, j: int,
                    rows: int, cols: int)
    requires Placed(d, x) && Stored(d, d1, x.C, x.J, SIZEOF_ELEM, x.I, x.J, Result(d, x), TileMajor(i, tileI, j))
    requires |ld| == 3 && ld[0] == LoadConfig(x.J, x.scaleA, true, DIM) && ld[1] == LoadConfig(x.J, x.scaleB, true, DIM)
    requires ex.act == x.Act() && ex.accScale == x.scaleC && ex.relu6Shift == 0
    requires 0 <= i && 0 <= j && i + rows <= x.I && j + cols <= x.J
    ensures var t := TileAt(x, i, j, rows, cols);
      var f := Leaves(ex, Narrow(d1, ld[0], t.a), Narrow(d1, ld[1], t.b));
      forall r, c :: InTileAt(i, j, rows, cols, r, c) ==> f(r - i, c - j) == Result(d, x)(r, c)
  {
    hide Placed, Stored, Leaves, Narrow, Result;
    forall r, c | InTileAt(i, j, rows, cols, r, c)
      ensures Leaves(ex, Narrow(d1, ld[0], x.A + i * x.J + j), Narrow(d1, ld[1], x.B + i * x.J + j))(r - i, c - j)
           == Result(d, x)(r, c)
    {
      TileValue(d, d1, x, ex, ld[0], ld[1], TileMajor(i, tileI, j), i, j, r, c);
    }
  }

  lemma OperandsInside(d: Dram, d1: Dram, x: GoodAdd, done: (int, int) -> bool, i: int, j: int, rows: int, cols: int)
    requires Placed(d, x) && Stored(d, d1, x.C, x.J, SIZEOF_ELEM, x.I, x.J, Result(d, x), done)
    requires 0 <= i && 0 <= j && i + rows <= x.I && j + cols <= x.J
    ensures MatrixIn(d1, x.A + i * x.J + j, x.J, SIZEOF_ELEM, rows, cols)
    ensures MatrixIn(d1, x.B + i * x.J + j, x.J, SIZEOF_ELEM, rows, cols)
    ensures MatrixIn(d1, x.C + i * x.J + j, x.J, SIZEOF_ELEM, rows, cols)
  {
    assert MatrixIn(d1, x.A, x.J, SIZEOF_ELEM, x.I, x.J) && MatrixIn(d1, x.B, x.J, SIZEOF_ELEM, x.I, x.J);
    assert MatrixIn(d1, x.C, x.J, SIZEOF_ELEM, x.I, x.J);
    hide MatrixIn, Placed, Stored;
    TileInside(d1, x, x.A, i, j, rows, cols);
    TileInside(d1, x, x.B, i, j, rows, cols);
    TileInside(d1, x, x.C, i, j, rows, cols);
  }

  lemma TileMajorStep(x: GoodAdd, i: int, n: int, j: int, m: int, rows: int, cols: int)
    requires rows == (if i + n <= x.I then n else x.I - i) && cols == (if j + m <= x.J then m else x.J - j) && j >= 0
             && m > 0
    ensures forall r, c :: 0 <= r < x.I && 0 <= c < x.J ==>
      (TileMajor(i, n, j + m)(r, c) <==> TileMajor(i, n, j)(r, c) || InTileAt(i, j, rows, cols, r, c))
  {}

  lemma TileMajorNext(x: GoodAdd, i: int, n: int, j: int)
    requires j >= x.J && n >= 0
    ensures forall r, c :: 0 <= r < x.I && 0 <= c < x.J ==> (TileMajor(i, n, j)(r, c) <==> TileMajor(i + n, n, 0)(r, c))
  {}

  /** Only the selection of finished elements within the matrix matters. */
  lemma Reselect(d: Dram, d': Dram, x: GoodAdd, done: (int, int) -> bool, done': (int, int) -> bool)
    requires Stored(d, d', x.C, x.J, SIZEOF_ELEM, x.I, x.J, Result(d, x), done)
    requires forall r, c :: 0 <= r < x.I && 0 <= c < x.J ==> (done(r, c) <==> done'(r, c))
    ensures Stored(d, d', x.C, x.J, SIZEOF_ELEM, x.I, x.J, Result(d, x), done')
  {}

  /** tiled_resadd */
  method TiledResadd(g: Gemmini, x: GoodAdd, tileI: int, tileJ: int)
    requires g.Valid() && Placed(g.dram, x)
    requires (x.I > 0 ==> tileI > 0) && (x.J > 0 ==> tileJ > 0) && TotalAccRows(tileI, tileJ) <= ACC_ROWS
    modifies g
    ensures g.Valid() && Added(old(g.dram), g.dram, x)
  {
    ghost var d := g.dram;
    g.ConfigSt(x.J * SIZEOF_ELEM);
    g.ConfigEx(WEIGHT_STATIONARY, x.Act(), 0, x.scaleC, 0, false, false);
    g.ConfigLd(x.J * SIZEOF_ELEM, x.scaleA, true, DIM, 0);
    g.ConfigLd(x.J * SIZEOF_ELEM, x.scaleB, true, DIM, 1);
    AllTiles(g, x, tileI, tileJ, d);
  }

  method AllTiles(g: Gemmini, x: GoodAdd, tileI: int, tileJ: int, ghost d: Dram)
    requires Set(g, x) && g.dram == d && Placed(d, x)
    requires (x.I > 0 ==> tileI > 0) && (x.J > 0 ==> tileJ > 0) && TotalAccRows(tileI, tileJ) <= ACC_ROWS
    modifies g`spad, g`acc, g`dram
    ensures Set(g, x) && Added(d, g.dram, x)
  {
    var i := 0;
    assert Stored(d, g.dram, x.C, x.J, SIZEOF_ELEM, x.I, x.J, Result(d, x), TileMajor(0, tileI, 0));
    hide Stored, Placed, TotalAccRows;
    while i < x.I
      invariant i >= 0 && Set(g, x)
      invariant Stored(d, g.dram, x.C, x.J, SIZEOF_ELEM, x.I, x.J, Result(d, x), TileMajor(i, tileI, 0))
    {
      var j := 0;
      while j < x.J
        invariant j >= 0 && Set(g, x)
        invariant Stored(d, g.dram, x.C, x.J, SIZEOF_ELEM, x.I, x.J, Result(d, x), TileMajor(i, tileI, j))
      {
        RunTile(g, x, tileI, tileJ, i, j, d);
        j := j + tileJ;
      }
      TileMajorNext(x, i, tileI, j);
      Reselect(d, g.dram, x, TileMajor(i, tileI, j), TileMajor(i + tileI, tileI, 0));
      i := i + tileI;
    }
    Reselect(d, g.dram, x, TileMajor(i, tileI, 0), Everything());
  }

  /** tiled_resadd_auto: on the accelerator or on the CPU, C becomes the same saturated sum; with
      OS the program stops. */
  method TiledResaddAuto(g: Gemmini, x: GoodAdd, kind: Kind) returns (ok: bool)
    requires g.Valid() && Placed(g.dram, x)
    modifies g
    ensures g.Valid() && ok == (kind != OS)
    ensures if ok then Added(old(g.dram), g.dram, x) else g.dram == old(g.dram)
  {
    ok := kind != OS;
    hide Placed, Added;
    if kind == CPU {
      ResaddCpu(g, x);
      return;
    }
    var tileI, tileJ := SearchTile(x.I, x.J);
    if kind == WS {
      TiledResadd(g, x, tileI, tileJ);
    }
  }
}
