/** One block transfer at a time, seen through the matrix views of the memories it joins. */
module Transfers {
  import opened Accelerator
  import opened Arith
  import opened Config
  import opened LocalMemory
  import opened Quantize

  /** An H x W arrangement of blocks laid over a local memory from row `base`. */
  datatype View = View(base: int, H: int, W: int)

  const NOWHERE: View := View(0, 0, 0)

  ghost predicate Fits(v: View, memRows: int) {
    0 <= v.base && 0 <= v.H && 0 <= v.W && v.base + v.H * v.W * DIM <= memRows
  }

  ghost predicate Apart(v: View, w: View) {
    w.base + w.H * w.W * DIM <= v.base || v.base + v.H * v.W * DIM <= w.base
  }

  function RowsIn(addr: int): int { if IsAcc(addr) then ACC_ROWS else SPAD_ROWS }

  function MemOf(spad: Mem, acc: Mem, addr: int): Mem { if IsAcc(addr) then acc else spad }

  predicate Inside(i: int, j: int, rows: int, cols: int, row: int, col: int) {
    i * DIM <= row < i * DIM + rows && j * DIM <= col < j * DIM + cols
  }

  /** Element (row, col) of the matrix laid over m by v. */
  function Val(m: Mem, v: View, row: int, col: int): int { At(m, v.base, v.W, row, col) }

  ghost predicate Same(m: Mem, m': Mem, v: View) {
    forall row, col :: 0 <= row < v.H * DIM && 0 <= col < v.W * DIM ==> Val(m', v, row, col) == Val(m, v, row, col)
  }

  /** m' is m with f stored in, or added to, the sub-matrix at block (i, j). */
  ghost predicate Moved(m: Mem, m': Mem, v: View, i: int, j: int, rows: int, cols: int,
                        accumulate: bool, f: (int, int) -> int) {
    forall row, col :: 0 <= row < v.H * DIM && 0 <= col < v.W * DIM ==>
      Val(m', v, row, col) ==
        if Inside(i, j, rows, cols, row, col)
        then (if accumulate then Val(m, v, row, col) else 0) + f(row, col)
        else Val(m, v, row, col)
  }

  /** The effect of a block transfer, read through a view. */
  lemma MovedAs(m: Mem, m': Mem, v: View, i: int, j: int, rows: int, cols: int, accumulate: bool,
                f: (int, int) -> int, f': (int, int) -> int)
    requires forall row, col :: 0 <= row < v.H * DIM && 0 <= col < v.W * DIM ==>
               At(m', v.base, v.W, row, col) ==
                 if i * DIM <= row < i * DIM + rows && j * DIM <= col < j * DIM + cols
                 then (if accumulate then At(m, v.base, v.W, row, col) else 0) + f(row - i * DIM, col - j * DIM)
                 else At(m, v.base, v.W, row, col)
    requires forall row, col :: Inside(i, j, rows, cols, row, col) ==> f(row - i * DIM, col - j * DIM) == f'(row, col)
    ensures Moved(m, m', v, i, j, rows, cols, accumulate, f')
  {}

  /** A transfer to block (i, j) of a view, of values that are those of f there. */
  lemma BlockMoved(m: Mem, memRows: nat, v: View, i: int, j: int, n: int, rows: int, cols: int, accumulate: bool,
                   fn: (int, int) -> int, f: (int, int) -> int)
    requires Fits(v, memRows) && 0 <= i && 0 <= j && 0 < n && j + n <= v.W && 0 <= rows <= DIM && cols <= n * DIM
    requires forall row, col :: Inside(i, j, rows, cols, row, col) ==> fn(row - i * DIM, col - j * DIM) == f(row, col)
    ensures Moved(m, BlockWrite(m, memRows, v.base + (i * v.W + j) * DIM, DIM, rows, cols, accumulate, fn),
                  v, i, j, rows, cols, accumulate, f)
  {
    hide BlockWrite, At, Inside, Moved;
    BlockWriteView(m, memRows, v.base, v.H, v.W, i, j, n, rows, cols, accumulate, fn);
    MovedAs(m, BlockWrite(m, memRows, v.base + (i * v.W + j) * DIM, DIM, rows, cols, accumulate, fn), v, i, j, rows,
            cols, accumulate, fn, f);
  }

  lemma BlockRunFits(v: View, i: int, j: int, n: int)
    requires 0 <= i < v.H && 0 <= j && 0 < n && j + n <= v.W
    ensures 0 <= (i * v.W + j) * DIM
    ensures (i * v.W + j) * DIM + n * DIM <= v.H * v.W * DIM
  {
    MulLe(i + 1, v.H, v.W);
    assert (i + 1) * v.W == i * v.W + v.W;
    MulLe(i * v.W + j + n, v.H * v.W, DIM);
    assert (i * v.W + j + n) * DIM == (i * v.W + j) * DIM + n * DIM;
    MulLe(0, i, v.W);
    MulLe(0, i * v.W + j, DIM);
  }

  lemma SubMatrixAddr(p: int, stride: int, size: int, i: int, j: int, r: int, c: int)
    ensures ElemAddr(ElemAddr(p, stride, size, i * DIM, j * DIM), stride, size, r, c)
         == ElemAddr(p, stride, size, i * DIM + r, j * DIM + c)
  {}

  lemma LoadSubMatrix(d: Dram, ld: LoadConfig, p: int, q: int, addr: int, i: int, j: int, r: int, c: int)
    requires p != NULL && q != NULL && q == ElemAddr(p, ld.stride, LoadSize(ld, addr), i * DIM, j * DIM)
    ensures LoadFn(d, ld, q, addr)(r, c) == LoadFn(d, ld, p, addr)(i * DIM + r, j * DIM + c)
  {
    SubMatrixAddr(p, ld.stride, LoadSize(ld, addr), i, j, r, c);
  }

  /** The view after a move-in of part of the matrix at p to blocks (i, j) onwards. */
  lemma MvinView(m: Mem, d: Dram, ld: LoadConfig, p: int, q: int, addr: int, rows: int, cols: int,
                 v: View, i: int, j: int, n: int)
    requires p != NULL && q != NULL && q == ElemAddr(p, ld.stride, LoadSize(ld, addr), i * DIM, j * DIM)
    requires Fits(v, RowsIn(addr)) && 0 <= i && 0 <= j && 0 < n && j + n <= v.W
    requires RowOf(addr) == v.base + (i * v.W + j) * DIM
    requires 0 <= rows <= DIM && cols <= n * DIM
    ensures var m' := BlockWrite(m, RowsIn(addr), RowOf(addr), DIM, rows, cols, Accumulates(addr),
                                 LoadFn(d, ld, q, addr));
      Moved(m, m', v, i, j, rows, cols, Accumulates(addr), LoadFn(d, ld, p, addr))
  {
    LoadValues(d, ld, p, q, addr, i, j, rows, cols);
    hide *;
    BlockMoved(m, RowsIn(addr), v, i, j, n, rows, cols, Accumulates(addr), LoadFn(d, ld, q, addr),
               LoadFn(d, ld, p, addr));
  }

  lemma LoadValues(d: Dram, ld: LoadConfig, p: int, q: int, addr: int, i: int, j: int, rows: int, cols: int)
    requires p != NULL && q != NULL && q == ElemAddr(p, ld.stride, LoadSize(ld, addr), i * DIM, j * DIM)
    ensures forall row, col :: Inside(i, j, rows, cols, row, col) ==>
              LoadFn(d, ld, q, addr)(row - i * DIM, col - j * DIM) == LoadFn(d, ld, p, addr)(row, col)
  {
    forall row, col | Inside(i, j, rows, cols, row, col)
      ensures LoadFn(d, ld, q, addr)(row - i * DIM, col - j * DIM) == LoadFn(d, ld, p, addr)(row, col)
    {
      LoadSubMatrix(d, ld, p, q, addr, i, j, row - i * DIM, col - j * DIM);
    }
  }

  method MvinBlocks(g: Gemmini, id: nat, q: int, addr: int, cols: int, rows: int,
                    ghost p: int, ghost v: View, ghost w: View, ghost i: int, ghost j: int, ghost n: int)
    requires g.Valid() && id < 3 && g.ld[id].blockStride == DIM
    requires IsAcc(addr) || !Accumulates(addr)
    requires p != NULL && q != NULL && q == ElemAddr(p, g.ld[id].stride, LoadSize(g.ld[id], addr), i * DIM, j * DIM)
    requires Fits(v, RowsIn(addr)) && Fits(w, RowsIn(addr)) && Apart(v, w)
    requires 0 <= i < v.H && 0 <= j && 0 < n && j + n <= v.W
    requires n <= (if IsAcc(addr) && !g.ld[id].shrunk then MAX_BLOCK_LEN_ACC else MAX_BLOCK_LEN)
    requires RowOf(addr) == v.base + (i * v.W + j) * DIM
    requires 0 <= rows <= DIM && (n - 1) * DIM < cols <= n * DIM
    requires forall row, col :: Inside(i, j, rows, cols, row, col) ==>
               ElemAddr(p, g.ld[id].stride, LoadSize(g.ld[id], addr), row, col) in g.dram
    modifies g`spad, g`acc
    ensures g.Valid()
    ensures if IsAcc(addr) then g.spad == old(g.spad) else g.acc == old(g.acc)
    ensures Moved(MemOf(old(g.spad), old(g.acc), addr), MemOf(g.spad, g.acc, addr), v, i, j, rows, cols,
                  Accumulates(addr), LoadFn(g.dram, g.ld[id], p, addr))
    ensures Same(MemOf(old(g.spad), old(g.acc), addr), MemOf(g.spad, g.acc, addr), w)
  {
    BlockRunFits(v, i, j, n);
    CeilDivUnique(cols, DIM, n);
    MulLe(n, if IsAcc(addr) && !g.ld[id].shrunk then MAX_BLOCK_LEN_ACC else MAX_BLOCK_LEN, DIM);
    MulLe(0, n - 1, DIM);
    InDram(g, id, p, q, addr, rows, cols, i, j);
    ghost var m := MemOf(g.spad, g.acc, addr);
    MvinView(m, g.dram, g.ld[id], p, q, addr, rows, cols, v, i, j, n);
    BlockWriteElsewhere(m, RowsIn(addr), w.base, w.H, w.W, RowOf(addr), n, rows, cols,
                        Accumulates(addr), LoadFn(g.dram, g.ld[id], q, addr));
    hide BlockWrite, At, LoadFn, CeilDiv;
    g.Mvin(id, q, addr, cols, rows);
  }

  lemma InDram(g: Gemmini, id: nat, p: int, q: int, addr: int, rows: int, cols: int, i: int, j: int)
    requires id < |g.ld| && q == ElemAddr(p, g.ld[id].stride, LoadSize(g.ld[id], addr), i * DIM, j * DIM)
    requires forall row, col :: Inside(i, j, rows, cols, row, col) ==>
               ElemAddr(p, g.ld[id].stride, LoadSize(g.ld[id], addr), row, col) in g.dram
    ensures forall r, c :: 0 <= r < rows && 0 <= c < cols ==>
              ElemAddr(q, g.ld[id].stride, LoadSize(g.ld[id], addr), r, c) in g.dram
  {
    forall r, c | 0 <= r < rows && 0 <= c < cols
      ensures ElemAddr(q, g.ld[id].stride, LoadSize(g.ld[id], addr), r, c) in g.dram
    {
      SubMatrixAddr(p, g.ld[id].stride, LoadSize(g.ld[id], addr), i, j, r, c);
      assert Inside(i, j, rows, cols, i * DIM + r, j * DIM + c);
    }
  }

  // ---------- filling a view block by block ----------

  /** The selected part of an R x C matrix f is in place. */
  ghost predicate Filled(m: Mem, v: View, f: (int, int) -> int, R: int, C: int, done: (int, int) -> bool) {
    forall row, col :: 0 <= row < R && 0 <= col < C && done(row, col) ==> Val(m, v, row, col) == f(row, col)
  }

  /** Blocks done when row i of blocks is done up to column j. */
  function RowMajor(i: int, j: int): (int, int) -> bool {
    (row, col) => row < i * DIM || (row < (i + 1) * DIM && col < j * DIM)
  }

  /** Blocks done when the n block columns from j on are done down to row i. */
  function ColMajor(j: int, n: int, i: int): (int, int) -> bool {
    (row, col) => col < j * DIM || (col < (j + n) * DIM && row < i * DIM)
  }

  /** End of the run of n blocks from block j on, of which the last of W is `pad` short. */
  lemma RunEnd(W: int, pad: int, j: int, n: int)
    requires 0 <= pad < DIM && 0 <= j && 0 < n && j + n <= W
    ensures var cols := n * DIM - (if j + n >= W then pad else 0);
      && j * DIM + cols == (if j + n >= W then W * DIM - pad else (j + n) * DIM)
      && j * DIM + cols <= W * DIM - pad
      && (n - 1) * DIM < cols <= n * DIM
  {
    if j + n < W { MulLe(j + n + 1, W, DIM); }
  }

  method MvinFill(g: Gemmini, id: nat, q: int, addr: int, cols: int, rows: int,
                  ghost p: int, ghost v: View, ghost w: View, ghost i: int, ghost j: int, ghost n: int,
                  ghost f: (int, int) -> int, ghost R: int, ghost C: int,
                  ghost done: (int, int) -> bool, ghost done': (int, int) -> bool)
    requires g.Valid() && id < 3 && g.ld[id].blockStride == DIM
    requires !Accumulates(addr)
    requires p != NULL && q != NULL && q == ElemAddr(p, g.ld[id].stride, LoadSize(g.ld[id], addr), i * DIM, j * DIM)
    requires Fits(v, RowsIn(addr)) && Fits(w, RowsIn(addr)) && Apart(v, w)
    requires 0 <= i < v.H && 0 <= j && 0 < n && j + n <= v.W
    requires n <= (if IsAcc(addr) && !g.ld[id].shrunk then MAX_BLOCK_LEN_ACC else MAX_BLOCK_LEN)
    requires RowOf(addr) == v.base + (i * v.W + j) * DIM
    requires 0 <= rows <= DIM && (n - 1) * DIM < cols <= n * DIM
    requires i * DIM + rows <= R && j * DIM + cols <= C && R <= v.H * DIM && C <= v.W * DIM
    requires forall row, col :: 0 <= row < R && 0 <= col < C ==>
               ElemAddr(p, g.ld[id].stride, LoadSize(g.ld[id], addr), row, col) in g.dram
    requires forall row, col :: 0 <= row < R && 0 <= col < C ==>
               LoadFn(g.dram, g.ld[id], p, addr)(row, col) == f(row, col)
    requires Filled(MemOf(g.spad, g.acc, addr), v, f, R, C, done)
    requires forall row, col :: 0 <= row < R && 0 <= col < C && done'(row, col) ==>
               done(row, col) || Inside(i, j, rows, cols, row, col)
    modifies g`spad, g`acc
    ensures g.Valid()
    ensures if IsAcc(addr) then g.spad == old(g.spad) else g.acc == old(g.acc)
    ensures Filled(MemOf(g.spad, g.acc, addr), v, f, R, C, done')
    ensures Same(MemOf(old(g.spad), old(g.acc), addr), MemOf(g.spad, g.acc, addr), w)
  {
    MulLe(0, i, DIM);
    MulLe(0, j, DIM);
    MvinBlocks(g, id, q, addr, cols, rows, p, v, w, i, j, n);
  }

  // ---------- storing a view block by block ----------

  /** What a stored value looks like in DRAM. */
  function Leaving(ex: ExConfig, addr: int, x: int): int {
    if IsAcc(addr) && !FullWidth(addr) then ScaleAndSat(x, ex.act, ex.accScale, ex.relu6Shift) else x
  }

  lemma ViewRowRun(base: int, W: int, i: int, j: int, r: int, c: int)
    requires 0 <= r < DIM
    ensures ViewRow(base, W, i * DIM + r, j * DIM + c) == base + (i * W + j) * DIM + c / DIM * DIM + r
    ensures (j * DIM + c) % DIM == c % DIM
  {
    DivUnique(i * DIM + r, DIM, i);
    DivUnique(j * DIM + c, DIM, j + c / DIM);
  }

  lemma StoreValue(m: Mem, ex: ExConfig, addr: int, v: View, i: int, j: int, r: int, c: int)
    requires RowOf(addr) == v.base + (i * v.W + j) * DIM && 0 <= r < DIM
    ensures StoreFn(m, ex, addr)(r, c) == Leaving(ex, addr, Val(m, v, i * DIM + r, j * DIM + c))
  {
    ViewRowRun(v.base, v.W, i, j, r, c);
  }

  /** d is d0 with the selected elements of the R x C matrix at p replaced by those of f. */
  ghost predicate Stored(d0: Dram, d: Dram, p: int, stride: int, size: int, R: int, C: int,
                         f: (int, int) -> int, done: (int, int) -> bool) {
    && d.Keys == d0.Keys
    && (forall row, col :: 0 <= row < R && 0 <= col < C ==>
          Get(d, ElemAddr(p, stride, size, row, col)) ==
            if done(row, col) then f(row, col) else Get(d0, ElemAddr(p, stride, size, row, col)))
    && (forall a :: a in d0 && !InMatrix(a, p, stride, size, R, C) ==> Get(d, a) == Get(d0, a))
  }

  ghost predicate MatrixIn(d: Dram, p: int, stride: int, size: int, R: int, C: int) {
    forall row, col :: 0 <= row < R && 0 <= col < C ==> ElemAddr(p, stride, size, row, col) in d
  }

  lemma SubMatrixMember(a: int, p: int, stride: int, size: int, i: int, j: int, rows: int, cols: int)
    requires 0 <= i && 0 <= j
    requires InMatrix(a, ElemAddr(p, stride, size, i * DIM, j * DIM), stride, size, rows, cols)
    ensures exists row, col :: Inside(i, j, rows, cols, row, col) && a == ElemAddr(p, stride, size, row, col)
  {
    var q := ElemAddr(p, stride, size, i * DIM, j * DIM);
    var r, c :| 0 <= r < rows && 0 <= c < cols && a == ElemAddr(q, stride, size, r, c);
    SubMatrixAddr(p, stride, size, i, j, r, c);
    assert Inside(i, j, rows, cols, i * DIM + r, j * DIM + c);
  }

  /** Storing a sub-matrix of f extends the stored part by exactly that sub-matrix. */
  lemma StoreStep(d0: Dram, d: Dram, d': Dram, p: int, stride: int, size: int, R: int, C: int,
                  f: (int, int) -> int, done: (int, int) -> bool, done': (int, int) -> bool,
                  i: int, j: int, rows: int, cols: int, g: (int, int) -> int)
    requires size > 0 && (R <= 1 || C * size <= stride) && 0 <= i && 0 <= j
    requires i * DIM + rows <= R && j * DIM + cols <= C && 0 <= rows && 0 <= cols
    requires Stored(d0, d, p, stride, size, R, C, f, done)
    requires MatrixIn(d0, p, stride, size, R, C)
    requires RegionStored(d, d', ElemAddr(p, stride, size, i * DIM, j * DIM), stride, size, rows, cols, g)
    requires forall r, c :: 0 <= r < rows && 0 <= c < cols ==> g(r, c) == f(i * DIM + r, j * DIM + c)
    requires forall row, col :: 0 <= row < R && 0 <= col < C ==>
               (done'(row, col) <==> done(row, col) || Inside(i, j, rows, cols, row, col))
    ensures Stored(d0, d', p, stride, size, R, C, f, done')
  {
    hide ElemAddr, RegionStored, InMatrix, Inside, MatrixIn;
    StoreStepCells(d0, d, d', p, stride, size, R, C, f, done, done', i, j, rows, cols, g);
    StoreStepOthers(d0, d, d', p, stride, size, R, C, f, done, i, j, rows, cols, g);
  }

  lemma StoreStepCells(d0: Dram, d: Dram, d': Dram, p: int, stride: int, size: int, R: int, C: int,
                       f: (int, int) -> int, done: (int, int) -> bool, done': (int, int) -> bool,
                       i: int, j: int, rows: int, cols: int, g: (int, int) -> int)
    requires size > 0 && (R <= 1 || C * size <= stride) && 0 <= i && 0 <= j
    requires i * DIM + rows <= R && j * DIM + cols <= C && 0 <= rows && 0 <= cols
    requires Stored(d0, d, p, stride, size, R, C, f, done) && MatrixIn(d0, p, stride, size, R, C)
    requires RegionStored(d, d', ElemAddr(p, stride, size, i * DIM, j * DIM), stride, size, rows, cols, g)
    requires forall r, c :: 0 <= r < rows && 0 <= c < cols ==> g(r, c) == f(i * DIM + r, j * DIM + c)
    requires forall row, col :: 0 <= row < R && 0 <= col < C ==>
               (done'(row, col) <==> done(row, col) || Inside(i, j, rows, cols, row, col))
    ensures forall row, col :: 0 <= row < R && 0 <= col < C ==>
      Get(d', ElemAddr(p, stride, size, row, col)) ==
        if done'(row, col) then f(row, col) else Get(d0, ElemAddr(p, stride, size, row, col))
  {
    hide *;
    BlockOffsets(i, j);
    forall row, col | 0 <= row < R && 0 <= col < C
      ensures Get(d', ElemAddr(p, stride, size, row, col)) ==
                if done'(row, col) then f(row, col) else Get(d0, ElemAddr(p, stride, size, row, col))
    {
      StoredAt(d0, d, p, stride, size, R, C, f, done, row, col);
      StoreStepCell(d, d', p, stride, size, R, C, f, i, j, rows, cols, g, row, col);
    }
  }

  lemma BlockOffsets(i: int, j: int)
    requires 0 <= i && 0 <= j
    ensures 0 <= i * DIM && 0 <= j * DIM
  {}

  lemma StoredAt(d0: Dram, d: Dram, p: int, stride: int, size: int, R: int, C: int, f: (int, int) -> int,
                 done: (int, int) -> bool, row: int, col: int)
    requires Stored(d0, d, p, stride, size, R, C, f, done) && MatrixIn(d0, p, stride, size, R, C)
    requires 0 <= row < R && 0 <= col < C
    ensures ElemAddr(p, stride, size, row, col) in d
    ensures Get(d, ElemAddr(p, stride, size, row, col)) ==
              if done(row, col) then f(row, col) else Get(d0, ElemAddr(p, stride, size, row, col))
  {
    hide ElemAddr, InMatrix;
  }

  lemma StoreStepOthers(d0: Dram, d: Dram, d': Dram, p: int, stride: int, size: int, R: int, C: int,
                        f: (int, int) -> int, done: (int, int) -> bool, i: int, j: int, rows: int, cols: int,
                        g: (int, int) -> int)
    requires 0 <= i && 0 <= j && i * DIM + rows <= R && j * DIM + cols <= C
    requires Stored(d0, d, p, stride, size, R, C, f, done)
    requires RegionStored(d, d', ElemAddr(p, stride, size, i * DIM, j * DIM), stride, size, rows, cols, g)
    ensures d'.Keys == d0.Keys
    ensures forall a :: a in d0 && !InMatrix(a, p, stride, size, R, C) ==> Get(d', a) == Get(d0, a)
  {
    hide ElemAddr, InMatrix;
    forall a | a in d0 && !InMatrix(a, p, stride, size, R, C)
      ensures !InMatrix(a, ElemAddr(p, stride, size, i * DIM, j * DIM), stride, size, rows, cols)
    {
      SubMatrixInside(a, p, stride, size, i, j, rows, cols, R, C);
    }
  }

  /** A sub-matrix lies in its matrix. */
  lemma SubMatrixInside(a: int, p: int, stride: int, size: int, i: int, j: int, rows: int, cols: int, R: int, C: int)
    requires 0 <= i && 0 <= j && i * DIM + rows <= R && j * DIM + cols <= C
    requires !InMatrix(a, p, stride, size, R, C)
    ensures !InMatrix(a, ElemAddr(p, stride, size, i * DIM, j * DIM), stride, size, rows, cols)
  {
    MulLe(0, i, DIM);
    MulLe(0, j, DIM);
    hide ElemAddr;
    if InMatrix(a, ElemAddr(p, stride, size, i * DIM, j * DIM), stride, size, rows, cols) {
      SubMatrixMember(a, p, stride, size, i, j, rows, cols);
    }
  }

  lemma StoreStepCell(d: Dram, d': Dram, p: int, stride: int, size: int, R: int, C: int,
                      f: (int, int) -> int, i: int, j: int, rows: int, cols: int, g: (int, int) -> int, row: int,
                      col: int)
    requires size > 0 && (R <= 1 || C * size <= stride) && 0 <= i * DIM && 0 <= j * DIM && 0 <= i && 0 <= j
    requires i * DIM + rows <= R && j * DIM + cols <= C && 0 <= rows && 0 <= cols
    requires ElemAddr(p, stride, size, row, col) in d
    requires RegionStored(d, d', ElemAddr(p, stride, size, i * DIM, j * DIM), stride, size, rows, cols, g)
    requires forall r, c :: 0 <= r < rows && 0 <= c < cols ==> g(r, c) == f(i * DIM + r, j * DIM + c)
    requires 0 <= row < R && 0 <= col < C
    ensures Get(d', ElemAddr(p, stride, size, row, col)) ==
              if Inside(i, j, rows, cols, row, col) then f(row, col) else Get(d, ElemAddr(p, stride, size, row, col))
  {
    var q, a := ElemAddr(p, stride, size, i * DIM, j * DIM), ElemAddr(p, stride, size, row, col);
    if Inside(i, j, rows, cols, row, col) {
      SubMatrixAddr(p, stride, size, i, j, row - i * DIM, col - j * DIM);
      assert g(row - i * DIM, col - j * DIM) == f(row, col);
    } else if InMatrix(a, q, stride, size, rows, cols) {
      SubMatrixMember(a, p, stride, size, i, j, rows, cols);
      var row', col' :| Inside(i, j, rows, cols, row', col') && a == ElemAddr(p, stride, size, row', col');
      ElemAddrInjective(p, stride, size, C, row, col, row', col');
    }
  }

  method MvoutBlocks(g: Gemmini, q: int, addr: int, cols: int, rows: int,
                     ghost p: int, ghost v: View, ghost i: int, ghost j: int, ghost n: int,
                     ghost d0: Dram, ghost f: (int, int) -> int, ghost R: int, ghost C: int,
                     ghost done: (int, int) -> bool, ghost done': (int, int) -> bool)
    requires g.Valid() && q == ElemAddr(p, g.stStride, StoreSize(addr), i * DIM, j * DIM)
    requires Fits(v, RowsIn(addr)) && 0 <= i < v.H && 0 <= j && 0 < n && j + n <= v.W
    requires RowOf(addr) == v.base + (i * v.W + j) * DIM
    requires 0 <= rows <= DIM && (n - 1) * DIM < cols <= n * DIM
    requires i * DIM + rows <= R && j * DIM + cols <= C
    requires R <= 1 || C * StoreSize(addr) <= g.stStride
    requires MatrixIn(d0, p, g.stStride, StoreSize(addr), R, C)
    requires Stored(d0, g.dram, p, g.stStride, StoreSize(addr), R, C, f, done)
    requires forall row, col :: Inside(i, j, rows, cols, row, col) ==>
               f(row, col) == Leaving(g.ex, addr, Val(MemOf(g.spad, g.acc, addr), v, row, col))
    requires forall row, col :: 0 <= row < R && 0 <= col < C ==>
               (done'(row, col) <==> done(row, col) || Inside(i, j, rows, cols, row, col))
    modifies g`dram
    ensures g.Valid()
    ensures Stored(d0, g.dram, p, g.stStride, StoreSize(addr), R, C, f, done')
  {
    hide *;
    ghost var d := g.dram;
    ghost var m := MemOf(g.spad, g.acc, addr);
    MemIs(g.spad, g.acc, addr);
    MvoutRows(v, addr, i, j, n, rows, cols);
    StoredKeys(d0, d, p, g.stStride, StoreSize(addr), R, C, f, done);
    OutInDram(d0, d, p, q, g.stStride, StoreSize(addr), i, j, rows, cols, R, C);
    SizePositive(addr);
    StrideCovers(R, C, rows, cols, i, j, g.stStride, StoreSize(addr));
    StoreCells(d, q, g.stStride, StoreSize(addr), rows, cols, StoreFn(m, g.ex, addr));
    StoreValues(m, g.ex, addr, v, i, j, rows, cols, f);
    g.Mvout(q, addr, cols, rows);
    StoreStep(d0, d, g.dram, p, g.stStride, StoreSize(addr), R, C, f, done, done', i, j, rows, cols,
              StoreFn(m, g.ex, addr));
  }

  lemma MemIs(spad: Mem, acc: Mem, addr: int)
    ensures MemOf(spad, acc, addr) == if IsAcc(addr) then acc else spad
  {}

  lemma MvoutRows(v: View, addr: int, i: int, j: int, n: int, rows: int, cols: int)
    requires Fits(v, RowsIn(addr)) && 0 <= i < v.H && 0 <= j && 0 < n && j + n <= v.W
    requires RowOf(addr) == v.base + (i * v.W + j) * DIM && 0 <= rows <= DIM && (n - 1) * DIM < cols <= n * DIM
    ensures 0 <= RowOf(addr) && 0 < cols
    ensures RowOf(addr) + (CeilDiv(cols, DIM) - 1) * DIM + rows <= (if IsAcc(addr) then ACC_ROWS else SPAD_ROWS)
  {
    BlockRunFits(v, i, j, n);
    CeilDivUnique(cols, DIM, n);
    MulLe(0, n - 1, DIM);
    Distribute(n, -1, DIM);
    hide CeilDiv, RowOf, IsAcc;
  }

  lemma SizePositive(addr: int)
    ensures StoreSize(addr) > 0
  {}

  lemma StoredKeys(d0: Dram, d: Dram, p: int, stride: int, size: int, R: int, C: int, f: (int, int) -> int,
                   done: (int, int) -> bool)
    requires Stored(d0, d, p, stride, size, R, C, f, done)
    ensures d.Keys == d0.Keys
  {}

  lemma StrideCovers(R: int, C: int, rows: int, cols: int, i: int, j: int, stride: int, size: int)
    requires 0 <= i && 0 <= j && size > 0 && i * DIM + rows <= R && j * DIM + cols <= C
    requires R <= 1 || C * size <= stride
    ensures rows <= 1 || cols * size <= stride
  {
    MulLe(0, i, DIM);
    MulLe(0, j, DIM);
    MulLe(cols, C, size);
  }

  lemma OutInDram(d0: Dram, d: Dram, p: int, q: int, stride: int, size: int, i: int, j: int, rows: int, cols: int,
                  R: int, C: int)
    requires q == ElemAddr(p, stride, size, i * DIM, j * DIM) && 0 <= i && 0 <= j && d.Keys == d0.Keys
    requires i * DIM + rows <= R && j * DIM + cols <= C && MatrixIn(d0, p, stride, size, R, C)
    ensures forall r, c :: 0 <= r < rows && 0 <= c < cols ==> ElemAddr(q, stride, size, r, c) in d
  {
    MulLe(0, i, DIM);
    MulLe(0, j, DIM);
    forall r, c | 0 <= r < rows && 0 <= c < cols ensures ElemAddr(q, stride, size, r, c) in d {
      SubMatrixAddr(p, stride, size, i, j, r, c);
      assert ElemAddr(p, stride, size, i * DIM + r, j * DIM + c) in d0;
    }
  }

  lemma StoreValues(m: Mem, ex: ExConfig, addr: int, v: View, i: int, j: int, rows: int, cols: int,
                    f: (int, int) -> int)
    requires RowOf(addr) == v.base + (i * v.W + j) * DIM && rows <= DIM
    requires forall row, col :: Inside(i, j, rows, cols, row, col) ==>
               f(row, col) == Leaving(ex, addr, Val(m, v, row, col))
    ensures forall r, c :: 0 <= r < rows && 0 <= c < cols ==> StoreFn(m, ex, addr)(r, c) == f(i * DIM + r, j * DIM + c)
  {
    forall r, c | 0 <= r < rows && 0 <= c < cols ensures StoreFn(m, ex, addr)(r, c) == f(i * DIM + r, j * DIM + c) {
      StoreValue(m, ex, addr, v, i, j, r, c);
      assert Inside(i, j, rows, cols, i * DIM + r, j * DIM + c);
    }
  }
}
