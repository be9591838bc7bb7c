/** The accelerator: scratchpad, accumulator memory and systolic array, driven by the move,
    preload, compute and configuration commands. Host DRAM is part of the state. */
module Accelerator {
  import opened Arith
  import opened Config
  import opened LocalMemory
  import opened Quantize
  import opened Sums

  const NULL: int := 0
  const GARBAGE_ADDR: int := 0xFFFF_FFFF

  const OUTPUT_STATIONARY: int := 0
  const WEIGHT_STATIONARY: int := 1

  /** Each element, whatever its width, is stored whole under the address of its first byte. */
  type Dram = map<int, int>

  function Get(d: Dram, a: int): int { if a in d then d[a] else 0 }

  // ---------- local addresses: bits 31, 30 and 29 above a row number ----------

  predicate IsAcc(addr: int) { addr / 0x8000_0000 % 2 == 1 }
  predicate Accumulates(addr: int) { addr / 0x4000_0000 % 2 == 1 }
  predicate FullWidth(addr: int) { addr / 0x2000_0000 % 2 == 1 }
  function RowOf(addr: int): int { if IsAcc(addr) then addr % ADDR_ROWS else addr }

  /** `addr &= ~(1 << 30)` */
  function ClearAccumulate(addr: int): int {
    if Accumulates(addr) then addr - 0x4000_0000 else addr
  }

  lemma AccAddress(flags: int, row: int)
    requires 4 <= flags < 8 && 0 <= row < ADDR_ROWS
    ensures var addr := flags * 0x2000_0000 + row;
      && IsAcc(addr) && RowOf(addr) == row
      && (Accumulates(addr) <==> flags >= 6)
      && (FullWidth(addr) <==> flags % 2 == 1)
      && (row < ADDR_ROWS - 1 ==> addr != GARBAGE_ADDR)
  {}

  lemma SpadAddress(row: int)
    requires 0 <= row < ADDR_ROWS
    ensures !IsAcc(row) && !Accumulates(row) && RowOf(row) == row && row != GARBAGE_ADDR
  {}

  // ---------- effects on the memories ----------

  /** Memory m after a transfer of v to the footprint at addr. */
  function BlockWrite(m: Mem, memRows: nat, addr: int, bs: int, rows: int, cols: int,
                      accumulate: bool, v: (int, int) -> int): (m': Mem)
    requires bs > 0
    ensures Shape(m', memRows)
  {
    Build(memRows, (r, c) =>
      if Touched(addr, bs, rows, cols, r, c)
      then (if accumulate then Cell(m, r, c) else 0) + v((r - addr) % bs, BlockCol(addr, bs, r, c))
      else Cell(m, r, c))
  }

  /** A transfer to block (i, j) of a view changes exactly the sub-matrix that starts there. */
  lemma BlockWriteView(m: Mem, memRows: nat, base: int, H: int, W: int, i: int, j: int, n: int,
                       rows: int, cols: int, accumulate: bool, v: (int, int) -> int)
    requires 0 <= base && base + H * W * DIM <= memRows
    requires 0 <= i && 0 <= j && 0 < n && j + n <= W
    requires 0 <= rows <= DIM && cols <= n * DIM
    ensures var m' := BlockWrite(m, memRows, base + (i * W + j) * DIM, DIM, rows, cols, accumulate, v);
      forall row, col :: 0 <= row < H * DIM && 0 <= col < W * DIM ==>
        At(m', base, W, row, col) ==
          if i * DIM <= row < i * DIM + rows && j * DIM <= col < j * DIM + cols
          then (if accumulate then At(m, base, W, row, col) else 0) + v(row - i * DIM, col - j * DIM)
          else At(m, base, W, row, col)
  {
    var addr := base + (i * W + j) * DIM;
    forall row, col | 0 <= row < H * DIM && 0 <= col < W * DIM
      ensures At(BlockWrite(m, memRows, addr, DIM, rows, cols, accumulate, v), base, W, row, col) ==
          if i * DIM <= row < i * DIM + rows && j * DIM <= col < j * DIM + cols
          then (if accumulate then At(m, base, W, row, col) else 0) + v(row - i * DIM, col - j * DIM)
          else At(m, base, W, row, col)
    {
      ViewRowBounds(base, H, W, row, col);
      TouchedView(base, W, i, j, n, rows, cols, row, col, addr, ViewRow(base, W, row, col));
    }
  }

  lemma TouchedRows(addr: int, n: int, rows: int, cols: int, r: int, c: int)
    requires cols <= n * DIM && Touched(addr, DIM, rows, cols, r, c)
    ensures addr <= r < addr + n * DIM
  {
    MulLtCancel((r - addr) / DIM, n, DIM);
    MulLe((r - addr) / DIM + 1, n, DIM);
  }

  /** A transfer leaves every view whose rows it does not reach as it was. */
  lemma BlockWriteElsewhere(m: Mem, memRows: nat, base: int, H: int, W: int, addr: int, n: int,
                            rows: int, cols: int, accumulate: bool, v: (int, int) -> int)
    requires 0 <= base && base + H * W * DIM <= memRows
    requires cols <= n * DIM
    requires base + H * W * DIM <= addr || addr + n * DIM <= base
    ensures var m' := BlockWrite(m, memRows, addr, DIM, rows, cols, accumulate, v);
      forall row, col :: 0 <= row < H * DIM && 0 <= col < W * DIM ==>
        At(m', base, W, row, col) == At(m, base, W, row, col)
  {
    forall row, col | 0 <= row < H * DIM && 0 <= col < W * DIM
      ensures At(BlockWrite(m, memRows, addr, DIM, rows, cols, accumulate, v), base, W, row, col)
           == At(m, base, W, row, col)
    {
      ViewRowBounds(base, H, W, row, col);
      var r := ViewRow(base, W, row, col);
      if Touched(addr, DIM, rows, cols, r, col % DIM) {
        TouchedRows(addr, n, rows, cols, r, col % DIM);
      }
    }
  }

  // ---------- effects on DRAM ----------

  /** Address of element (r, c) of a matrix whose rows are `stride` bytes apart. */
  function ElemAddr(p: int, stride: int, size: int, r: int, c: int): int {
    p + r * stride + c * size
  }

  /** Address a belongs to a rows x cols matrix in DRAM. */
  ghost predicate InMatrix(a: int, p: int, stride: int, size: int, rows: int, cols: int) {
    exists r, c :: 0 <= r < rows && 0 <= c < cols && a == ElemAddr(p, stride, size, r, c)
  }

  lemma ElemAddrInjective(p: int, stride: int, size: int, cols: int, r: int, c: int, r': int, c': int)
    requires size > 0 && 0 <= c < cols && 0 <= c' < cols
    requires r == r' || cols * size <= stride
    requires ElemAddr(p, stride, size, r, c) == ElemAddr(p, stride, size, r', c')
    ensures r == r' && c == c'
  {
    if r < r' { ElemAddrLt(p, stride, size, cols, r, c, r', c'); }
    if r' < r { ElemAddrLt(p, stride, size, cols, r', c', r, c); }
    assert (c - c') * size == 0;
    SmallMultiple(c - c', size);
  }

  lemma ElemAddrLt(p: int, stride: int, size: int, cols: int, r: int, c: int, r': int, c': int)
    requires size > 0 && 0 <= c < cols && 0 <= c' < cols
    requires r < r' && cols * size <= stride
    ensures ElemAddr(p, stride, size, r, c) < ElemAddr(p, stride, size, r', c')
  {
    MulLe(c + 1, cols, size);
    MulLe(0, c', size);
    MulLe(r + 1, r', stride);
  }

  lemma RowsApart(p: int, stride: int, size: int, cols: int, last: int)
    requires size > 0 && (last <= 0 || cols * size <= stride)
    ensures forall r, c, c' :: 0 <= r < last && 0 <= c < cols && 0 <= c' < cols
              ==> ElemAddr(p, stride, size, r, c) != ElemAddr(p, stride, size, last, c')
  {
    forall r, c, c' | 0 <= r < last && 0 <= c < cols && 0 <= c' < cols
      ensures ElemAddr(p, stride, size, r, c) != ElemAddr(p, stride, size, last, c')
    {
      ElemAddrLt(p, stride, size, cols, r, c, last, c');
    }
  }

  function StoreRow(d: Dram, p: int, stride: int, size: int, r: int, cols: int, v: (int, int) -> int): Dram
    decreases cols
  {
    if cols <= 0 then d
    else StoreRow(d, p, stride, size, r, cols - 1, v)[ElemAddr(p, stride, size, r, cols - 1) := v(r, cols - 1)]
  }

  /** DRAM after the rows of v are stored one after the other. */
  function StoreInto(d: Dram, p: int, stride: int, size: int, rows: int, cols: int, v: (int, int) -> int): Dram
    decreases rows
  {
    if rows <= 0 then d
    else StoreRow(StoreInto(d, p, stride, size, rows - 1, cols, v), p, stride, size, rows - 1, cols, v)
  }

  lemma {:induction false} StoreRowCells(d: Dram, p: int, stride: int, size: int, r: int, cols: int,
                                         v: (int, int) -> int)
    requires size > 0
    requires forall c :: 0 <= c < cols ==> ElemAddr(p, stride, size, r, c) in d
    ensures var d' := StoreRow(d, p, stride, size, r, cols, v);
      && d'.Keys == d.Keys
      && (forall c :: 0 <= c < cols ==> Get(d', ElemAddr(p, stride, size, r, c)) == v(r, c))
      && (forall a :: a in d && (forall c :: 0 <= c < cols ==> a != ElemAddr(p, stride, size, r, c)) ==>
           Get(d', a) == Get(d, a))
    decreases cols
  {
    if cols > 0 {
      StoreRowCells(d, p, stride, size, r, cols - 1, v);
      var last := ElemAddr(p, stride, size, r, cols - 1);
      forall c | 0 <= c < cols - 1 ensures ElemAddr(p, stride, size, r, c) != last {
        if ElemAddr(p, stride, size, r, c) == last {
          ElemAddrInjective(p, stride, size, cols, r, c, r, cols - 1);
        }
      }
      assert StoreRow(d, p, stride, size, r, cols, v).Keys == d.Keys;
    }
  }

  /** d' is d with the rows x cols matrix at p replaced by v. */
  ghost predicate RegionStored(d: Dram, d': Dram, p: int, stride: int, size: int, rows: int, cols: int,
                               v: (int, int) -> int) {
    && d'.Keys == d.Keys
    && (forall r, c :: 0 <= r < rows && 0 <= c < cols ==> Get(d', ElemAddr(p, stride, size, r, c)) == v(r, c))
    && (forall a :: a in d && !InMatrix(a, p, stride, size, rows, cols) ==> Get(d', a) == Get(d, a))
  }

  lemma {:induction false} StoreCells(d: Dram, p: int, stride: int, size: int, rows: int, cols: int,
                                      v: (int, int) -> int)
    requires size > 0
    requires rows <= 1 || cols * size <= stride
    requires forall r, c :: 0 <= r < rows && 0 <= c < cols ==> ElemAddr(p, stride, size, r, c) in d
    ensures RegionStored(d, StoreInto(d, p, stride, size, rows, cols, v), p, stride, size, rows, cols, v)
    decreases rows
  {
    if rows > 0 {
      hide *;
      StoreCells(d, p, stride, size, rows - 1, cols, v);
      var before := StoreInto(d, p, stride, size, rows - 1, cols, v);
      LastRowStored(d, p, stride, size, rows, cols, v);
      RegionKeys(d, before, p, stride, size, rows - 1, cols, v);
      StoreRowCells(before, p, stride, size, rows - 1, cols, v);
      RegionGrows(d, before, StoreRow(before, p, stride, size, rows - 1, cols, v), p, stride, size, rows - 1, cols, v);
    } else {
      NothingStored(d, p, stride, size, rows, cols, v);
    }
  }

  lemma LastRowStored(d: Dram, p: int, stride: int, size: int, rows: int, cols: int, v: (int, int) -> int)
    requires rows > 0
    ensures StoreInto(d, p, stride, size, rows, cols, v)
         == StoreRow(StoreInto(d, p, stride, size, rows - 1, cols, v), p, stride, size, rows - 1, cols, v)
  {}

  lemma NothingStored(d: Dram, p: int, stride: int, size: int, rows: int, cols: int, v: (int, int) -> int)
    requires rows <= 0
    ensures RegionStored(d, StoreInto(d, p, stride, size, rows, cols, v), p, stride, size, rows, cols, v)
  {}

  lemma RegionKeys(d: Dram, d': Dram, p: int, stride: int, size: int, rows: int, cols: int, v: (int, int) -> int)
    requires RegionStored(d, d', p, stride, size, rows, cols, v)
    ensures d'.Keys == d.Keys
  {}

  /** One more row stored, which meets no other row. */
  lemma RegionGrows(d: Dram, d1: Dram, d2: Dram, p: int, stride: int, size: int, last: int, cols: int,
                    v: (int, int) -> int)
    requires size > 0 && 0 <= last && (last <= 0 || cols * size <= stride)
    requires forall r, c :: 0 <= r <= last && 0 <= c < cols ==> ElemAddr(p, stride, size, r, c) in d
    requires RegionStored(d, d1, p, stride, size, last, cols, v) && d2.Keys == d1.Keys
    requires forall c :: 0 <= c < cols ==> Get(d2, ElemAddr(p, stride, size, last, c)) == v(last, c)
    requires forall a :: a in d1 && (forall c :: 0 <= c < cols ==> a != ElemAddr(p, stride, size, last, c)) ==>
               Get(d2, a) == Get(d1, a)
    ensures RegionStored(d, d2, p, stride, size, last + 1, cols, v)
  {
    hide ElemAddr, Get;
    RowsApart(p, stride, size, cols, last);
    forall a | a in d && !InMatrix(a, p, stride, size, last + 1, cols)
      ensures !InMatrix(a, p, stride, size, last, cols)
      ensures forall c :: 0 <= c < cols ==> a != ElemAddr(p, stride, size, last, c)
    {}
  }

  // ---------- operands of the systolic array ----------

  function Operand(m: Mem, addr: int, rows: int, cols: int): (int, int) -> int {
    (r, c) => if 0 <= r < rows && 0 <= c < cols then Cell(m, addr + r, c) else 0
  }

  /** An operand read from the scratchpad; the garbage address stands for a zero matrix. */
  function Fetch(m: Mem, addr: int, rows: int, cols: int): (int, int) -> int {
    if addr == GARBAGE_ADDR then (r, c) => 0 else Operand(m, addr, rows, cols)
  }

  /** A rows x cols operand that lies transposed in the scratchpad. */
  function Turned(m: Mem, addr: int, rows: int, cols: int): (int, int) -> int {
    (r, c) => if 0 <= r < rows && 0 <= c < cols then Cell(m, addr + c, r) else 0
  }

  function FetchAs(m: Mem, addr: int, rows: int, cols: int, transposed: bool): (int, int) -> int {
    if transposed && addr != GARBAGE_ADDR then Turned(m, addr, rows, cols) else Fetch(m, addr, rows, cols)
  }

  /** The scratchpad rows of a rows x cols operand exist. */
  predicate InSpad(addr: int, rows: int, cols: int, transposed: bool) {
    0 <= addr && addr + (if transposed then cols else rows) <= SPAD_ROWS
  }

  function MacTerm(a: (int, int) -> int, b: (int, int) -> int, r: int, c: int): int -> int {
    k => a(r, k) * b(k, c)
  }

  function Mac(a: (int, int) -> int, b: (int, int) -> int, r: int, c: int): int {
    Sum(0, DIM, MacTerm(a, b, r, c))
  }

  /** init + a * b */
  function MacArray(init: (int, int) -> int, a: (int, int) -> int, b: (int, int) -> int): (m: Mem)
    ensures Shape(m, DIM)
    ensures forall r, c :: 0 <= r < DIM && 0 <= c < DIM ==> Cell(m, r, c) == init(r, c) + Mac(a, b, r, c)
  {
    Build(DIM, (r, c) => init(r, c) + Mac(a, b, r, c))
  }

  datatype LoadConfig = LoadConfig(stride: int, scale: Scale, shrunk: bool, blockStride: int)

  datatype ExConfig = ExConfig(dataflow: int, act: int, sysShift: nat, accScale: Scale, relu6Shift: nat,
                               transA: bool, transB: bool)
  {
    predicate Upright() { !transA && !transB }
  }

  datatype PreloadRegs = PreloadRegs(bd: int, bdCols: int, bdRows: int, c: int, cCols: int, cRows: int)

  // ---------- values in flight ----------

  /** Bytes per element of a move into local address addr. */
  function LoadSize(ld: LoadConfig, addr: int): int {
    if IsAcc(addr) && !ld.shrunk then SIZEOF_ACC else SIZEOF_ELEM
  }

  /** Elements are scaled on their way in; accumulator-width data are not, because
      HAS_MVIN_ACC_SCALE is not configured. A null pointer loads zeros. */
  function LoadFn(d: Dram, ld: LoadConfig, p: int, addr: int): (int, int) -> int {
    if p == NULL then (r, c) => 0
    else if IsAcc(addr) && !ld.shrunk then (r, c) => Get(d, ElemAddr(p, ld.stride, SIZEOF_ACC, r, c))
    else (r, c) => ld.scale(Get(d, ElemAddr(p, ld.stride, SIZEOF_ELEM, r, c)))
  }

  function StoreSize(addr: int): int {
    if IsAcc(addr) && FullWidth(addr) then SIZEOF_ACC else SIZEOF_ELEM
  }

  function StoreFn(m: Mem, ex: ExConfig, addr: int): (int, int) -> int {
    if IsAcc(addr) && !FullWidth(addr)
    then (r, c) => ScaleAndSat(Cell(m, RowOf(addr) + c / DIM * DIM + r, c % DIM), ex.act, ex.accScale, ex.relu6Shift)
    else (r, c) => Cell(m, RowOf(addr) + c / DIM * DIM + r, c % DIM)
  }

  /** What leaves the array: shifted, and narrowed and activated when bound for the scratchpad. */
  function OutFn(pe: Mem, ex: ExConfig, addr: int): (int, int) -> int {
    if IsAcc(addr) then (r, c) => RoundingRightShift(Cell(pe, r, c), ex.sysShift)
    else (r, c) => Activate(Clip(RoundingRightShift(Cell(pe, r, c), ex.sysShift)), ex.act, ex.relu6Shift)
  }

  function WriteOut(m: Mem, memRows: nat, out: Mem, ex: ExConfig, pre: PreloadRegs): (m': Mem)
    requires Shape(m, memRows)
    ensures Shape(m', memRows)
  {
    BlockWrite(m, memRows, RowOf(pre.c), DIM, pre.cRows, pre.cCols,
               IsAcc(pre.c) && Accumulates(pre.c), OutFn(out, ex, pre.c))
  }

  /** A compute command's operands. */
  datatype Operands = Operands(a: int, bd: int, aCols: int, aRows: int, bdCols: int, bdRows: int)

  /** Output-stationary: the array adds a * b to the preloaded matrix, or to what it holds. */
  function OsArray(spad: Mem, pe: Mem, ex: ExConfig, pre: PreloadRegs, preloaded: bool, o: Operands): (m: Mem)
    ensures Shape(m, DIM)
  {
    MacArray(if preloaded then Fetch(spad, pre.bd, pre.bdRows, pre.bdCols) else Operand(pe, 0, DIM, DIM),
             FetchAs(spad, o.a, o.aRows, o.aCols, ex.transA), FetchAs(spad, o.bd, o.bdRows, o.bdCols, ex.transB))
  }

  /** Weight-stationary: the preloaded matrix replaces the weights, which then multiply a; d is added. */
  function WsWeights(spad: Mem, weights: Mem, ex: ExConfig, pre: PreloadRegs, preloaded: bool): (m: Mem)
    requires Shape(weights, DIM)
    ensures Shape(m, DIM)
  {
    if preloaded then Build(DIM, FetchAs(spad, pre.bd, pre.bdRows, pre.bdCols, ex.transB)) else weights
  }

  function WsArray(spad: Mem, weights: Mem, ex: ExConfig, o: Operands): (m: Mem)
    ensures Shape(m, DIM)
  {
    MacArray(Fetch(spad, o.bd, o.bdRows, o.bdCols),
             FetchAs(spad, o.a, o.aRows, o.aCols, ex.transA), Operand(weights, 0, DIM, DIM))
  }

  class Gemmini {
    var dram: Dram
    var spad: Mem
    var acc: Mem
    var pe: Mem                  // partial sums, when output-stationary
    var weights: Mem             // stationary operand, when weight-stationary
    var pre: PreloadRegs
    var ld: seq<LoadConfig>      // for mvin, mvin2 and mvin3
    var ex: ExConfig
    var stStride: int

    ghost predicate Valid()
      reads this
    {
      && Shape(spad, SPAD_ROWS) && Shape(acc, ACC_ROWS)
      && Shape(pe, DIM) && Shape(weights, DIM)
      && |ld| == 3
    }

    constructor (d: Dram)
      ensures Valid() && dram == d
    {
      dram := d;
      spad := Build(SPAD_ROWS, (r, c) => 0);
      acc := Build(ACC_ROWS, (r, c) => 0);
      pe := Build(DIM, (r, c) => 0);
      weights := Build(DIM, (r, c) => 0);
      pre := PreloadRegs(GARBAGE_ADDR, DIM, DIM, GARBAGE_ADDR, DIM, DIM);
      ld := seq(3, i => LoadConfig(0, x => x, false, DIM));
      ex := ExConfig(OUTPUT_STATIONARY, NO_ACTIVATION, 0, x => x, 0, false, false);
      stStride := 0;
    }

    method ConfigLd(stride: int, scale: Scale, shrunk: bool, blockStride: int, id: nat)
      requires Valid() && id < 3
      modifies `ld
      ensures Valid()
      ensures ld == old(ld)[id := LoadConfig(stride, scale, shrunk, blockStride)]
    {
      ld := ld[id := LoadConfig(stride, scale, shrunk, blockStride)];
    }

    method ConfigEx(dataflow: int, act: int, sysShift: nat, accScale: Scale, relu6Shift: nat,
                    transA: bool, transB: bool)
      requires Valid()
      modifies `ex
      ensures Valid()
      ensures ex == ExConfig(dataflow, act, sysShift, accScale, relu6Shift, transA, transB)
    {
      ex := ExConfig(dataflow, act, sysShift, accScale, relu6Shift, transA, transB);
    }

    method ConfigSt(stride: int)
      requires Valid()
      modifies `stStride
      ensures Valid() && stStride == stride
    {
      stStride := stride;
    }

    /** mvin, mvin2 and mvin3 (id 0, 1 and 2). Every address read must hold an element. */
    method Mvin(id: nat, p: int, addr: int, cols: int, rows: int)
      requires Valid() && id < 3
      requires 0 <= rows <= DIM && rows <= ld[id].blockStride && 0 < ld[id].blockStride
      requires 0 < cols <= (if IsAcc(addr) && !ld[id].shrunk then MAX_BLOCK_LEN_ACC else MAX_BLOCK_LEN) * DIM
      requires 0 <= RowOf(addr)
      requires RowOf(addr) + (CeilDiv(cols, DIM) - 1) * ld[id].blockStride + rows
            <= (if IsAcc(addr) then ACC_ROWS else SPAD_ROWS)
      requires p != NULL ==> forall r, c :: 0 <= r < rows && 0 <= c < cols ==>
                 ElemAddr(p, ld[id].stride, LoadSize(ld[id], addr), r, c) in dram
      modifies `spad, `acc
      ensures Valid()
      ensures spad == if IsAcc(addr) then old(spad)
                      else BlockWrite(old(spad), SPAD_ROWS, RowOf(addr), ld[id].blockStride, rows, cols,
                                      false, LoadFn(dram, ld[id], p, addr))
      ensures acc == if !IsAcc(addr) then old(acc)
                     else BlockWrite(old(acc), ACC_ROWS, RowOf(addr), ld[id].blockStride, rows, cols,
                                     Accumulates(addr), LoadFn(dram, ld[id], p, addr))
    {
      if IsAcc(addr) {
        acc := BlockWrite(acc, ACC_ROWS, RowOf(addr), ld[id].blockStride, rows, cols,
                          Accumulates(addr), LoadFn(dram, ld[id], p, addr));
      } else {
        spad := BlockWrite(spad, SPAD_ROWS, RowOf(addr), ld[id].blockStride, rows, cols,
                           false, LoadFn(dram, ld[id], p, addr));
      }
    }

    method Mvout(p: int, addr: int, cols: int, rows: int)
      requires Valid()
      requires 0 <= rows <= DIM && 0 < cols
      requires 0 <= RowOf(addr)
      requires RowOf(addr) + (CeilDiv(cols, DIM) - 1) * DIM + rows <= (if IsAcc(addr) then ACC_ROWS else SPAD_ROWS)
      requires forall r, c :: 0 <= r < rows && 0 <= c < cols ==> ElemAddr(p, stStride, StoreSize(addr), r, c) in dram
      modifies `dram
      ensures Valid()
      ensures dram == StoreInto(old(dram), p, stStride, StoreSize(addr), rows, cols,
                                StoreFn(if IsAcc(addr) then acc else spad, ex, addr))
    {
      dram := StoreInto(dram, p, stStride, StoreSize(addr), rows, cols,
                        StoreFn(if IsAcc(addr) then acc else spad, ex, addr));
    }

    method Preload(bd: int, c: int, bdCols: int, bdRows: int, cCols: int, cRows: int)
      requires Valid()
      modifies `pre
      ensures Valid() && pre == PreloadRegs(bd, bdCols, bdRows, c, cCols, cRows)
    {
      pre := PreloadRegs(bd, bdCols, bdRows, c, cCols, cRows);
    }

    /** The preloaded destination is inside the memory its address names. */
    ghost predicate DestinationFits()
      reads this
    {
      pre.c == GARBAGE_ADDR
      || (&& 0 <= RowOf(pre.c) && 0 <= pre.cCols <= DIM && 0 <= pre.cRows <= DIM
          && RowOf(pre.c) + pre.cRows <= (if IsAcc(pre.c) then ACC_ROWS else SPAD_ROWS))
    }

    /** The operands of a compute command are in the scratchpad. */
    ghost predicate OperandsFit(preloaded: bool, o: Operands)
      reads this
    {
      && 0 <= o.aCols <= DIM && 0 <= o.aRows <= DIM && 0 <= o.bdCols <= DIM && 0 <= o.bdRows <= DIM
      && InSpad(o.a, o.aRows, o.aCols, ex.transA)
      && (o.bd == GARBAGE_ADDR
          || InSpad(o.bd, o.bdRows, o.bdCols, ex.transB && ex.dataflow == OUTPUT_STATIONARY))
      && (!preloaded || pre.bd == GARBAGE_ADDR
          || InSpad(pre.bd, pre.bdRows, pre.bdCols, ex.transB && ex.dataflow != OUTPUT_STATIONARY))
    }

    /** The array's part of a compute command. */
    method Multiply(preloaded: bool, o: Operands)
      requires Valid() && OperandsFit(preloaded, o)
      modifies `pe, `weights
      ensures Valid()
      ensures weights == if ex.dataflow == OUTPUT_STATIONARY then old(weights)
                         else WsWeights(spad, old(weights), ex, pre, preloaded)
      ensures pe == if ex.dataflow == OUTPUT_STATIONARY then OsArray(spad, old(pe), ex, pre, preloaded, o)
                    else WsArray(spad, weights, ex, o)
    {
      hide Shape, Fetch, FetchAs, InSpad;
      if ex.dataflow == OUTPUT_STATIONARY {
        pe := OsArray(spad, pe, ex, pre, preloaded, o);
      } else {
        weights := WsWeights(spad, weights, ex, pre, preloaded);
        pe := WsArray(spad, weights, ex, o);
      }
    }

    /** The results leave the array for the preloaded destination. */
    method WriteBack()
      requires Valid() && DestinationFits()
      modifies `spad, `acc
      ensures Valid()
      ensures spad == if pre.c == GARBAGE_ADDR || IsAcc(pre.c) then old(spad)
                      else WriteOut(old(spad), SPAD_ROWS, pe, ex, pre)
      ensures acc == if pre.c == GARBAGE_ADDR || !IsAcc(pre.c) then old(acc)
                     else WriteOut(old(acc), ACC_ROWS, pe, ex, pre)
    {
      hide Shape, RowOf, IsAcc, WriteOut;
      if pre.c != GARBAGE_ADDR {
        if IsAcc(pre.c) {
          acc := WriteOut(acc, ACC_ROWS, pe, ex, pre);
        } else {
          spad := WriteOut(spad, SPAD_ROWS, pe, ex, pre);
        }
      }
    }

    /** compute.preloaded (preloaded) and compute.accumulated (!preloaded). */
    method Compute(preloaded: bool, o: Operands)
      requires Valid() && DestinationFits() && OperandsFit(preloaded, o)
      modifies `spad, `acc, `pe, `weights
      ensures Valid()
      ensures weights == if ex.dataflow == OUTPUT_STATIONARY then old(weights)
                         else WsWeights(old(spad), old(weights), ex, pre, preloaded)
      ensures pe == if ex.dataflow == OUTPUT_STATIONARY then OsArray(old(spad), old(pe), ex, pre, preloaded, o)
                    else WsArray(old(spad), weights, ex, o)
      ensures spad == if pre.c == GARBAGE_ADDR || IsAcc(pre.c) then old(spad)
                      else WriteOut(old(spad), SPAD_ROWS, pe, ex, pre)
      ensures acc == if pre.c == GARBAGE_ADDR || !IsAcc(pre.c) then old(acc)
                     else WriteOut(old(acc), ACC_ROWS, pe, ex, pre)
    {
      hide Shape, RowOf, IsAcc, WriteOut, OsArray, WsArray, WsWeights, InSpad;
      Multiply(preloaded, o);
      WriteBack();
    }
  }
}
