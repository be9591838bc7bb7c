/** The row-addressed memories of the accelerator, the footprint of a block transfer, and the
    view of a region as the matrix that is tiled over it. */
module LocalMemory {
  import opened Arith
  import opened Config

  type Mem = seq<seq<int>>

  predicate Shape(m: Mem, rows: nat) {
    |m| == rows && forall r :: 0 <= r < rows ==> |m[r]| == DIM
  }

  function Cell(m: Mem, r: int, c: int): int {
    if 0 <= r < |m| && 0 <= c < |m[r]| then m[r][c] else 0
  }

  function Build(rows: nat, f: (int, int) -> int): (m: Mem)
    ensures Shape(m, rows)
    ensures forall r, c :: 0 <= r < rows && 0 <= c < DIM ==> Cell(m, r, c) == f(r, c)
  {
    seq(rows, r => seq(DIM, c => f(r, c)))
  }

  /** Column, within the transferred matrix, of local cell (r, c). */
  function BlockCol(addr: int, bs: int, r: int, c: int): int
    requires bs > 0
  {
    (r - addr) / bs * DIM + c
  }

  /** A transfer of `rows` x `cols` elements at row `addr` lays out consecutive DIM-wide
      blocks `bs` rows apart; this is its footprint. */
  predicate Touched(addr: int, bs: int, rows: int, cols: int, r: int, c: int)
    requires bs > 0
  {
    addr <= r && (r - addr) % bs < rows && 0 <= c < DIM && BlockCol(addr, bs, r, c) < cols
  }

  /** Row of a local memory that holds row `row`, column `col` of a matrix laid over it from
      row `base` in blocks, W blocks to a block row. */
  function ViewRow(base: int, W: int, row: int, col: int): int {
    base + (row / DIM * W + col / DIM) * DIM + row % DIM
  }

  function At(m: Mem, base: int, W: int, row: int, col: int): int {
    Cell(m, ViewRow(base, W, row, col), col % DIM)
  }

  lemma ViewRowBlock(base: int, W: int, i: int, j: int, rr: int, cc: int)
    requires 0 <= rr < DIM && 0 <= cc < DIM
    ensures ViewRow(base, W, i * DIM + rr, j * DIM + cc) == base + (i * W + j) * DIM + rr
    ensures (j * DIM + cc) % DIM == cc
  {
    DivUnique(i * DIM + rr, DIM, i);
    DivUnique(j * DIM + cc, DIM, j);
  }

  /** The block row and block column of a matrix position. */
  lemma BlockOf(x: int, n: int)
    requires 0 <= x < n * DIM
    ensures 0 <= x / DIM < n
    ensures x == x / DIM * DIM + x % DIM
  {}

  lemma ViewRowBounds(base: int, H: int, W: int, row: int, col: int)
    requires 0 <= row < H * DIM && 0 <= col < W * DIM
    ensures base <= ViewRow(base, W, row, col) < base + H * W * DIM
  {
    BlockOf(row, H);
    BlockOf(col, W);
    var a, b := row / DIM, col / DIM;
    MulLe(a + 1, H, W);
    assert (a + 1) * W == a * W + W;
    MulLe(0, a, W);
    MulLe(a * W + b + 1, H * W, DIM);
    MulLe(0, a * W + b, DIM);
    assert (a * W + b + 1) * DIM == (a * W + b) * DIM + DIM;
  }

  lemma TouchedOffset(addr: int, rows: int, cols: int, q: int, rr: int, c: int)
    requires 0 <= rr < DIM && 0 <= c < DIM
    ensures Touched(addr, DIM, rows, cols, addr + q * DIM + rr, c)
        <==> 0 <= q && rr < rows && q * DIM + c < cols
    ensures (q * DIM + rr) % DIM == rr
    ensures BlockCol(addr, DIM, addr + q * DIM + rr, c) == q * DIM + c
  {
    DivUnique(q * DIM + rr, DIM, q);
    if 0 <= q {
      MulLe(0, q, DIM);
    } else {
      MulLe(q, -1, DIM);
    }
  }

  /** Block a*W + b lies in the run of n blocks from i*W + j on exactly when it is in the same
      block row, n being too small to wrap around. */
  lemma BlockRun(W: int, i: int, j: int, n: int, a: int, b: int)
    requires 0 <= b < W && 0 <= j && j + n <= W
    ensures 0 <= (a - i) * W + (b - j) < n <==> a == i && j <= b < j + n
  {
    if 0 <= (a - i) * W + (b - j) < n {
      MixedRadix(a - i, b, 0, (a - i) * W + b, W);
    }
  }

  lemma SameBlock(x: int, i: int, rows: int)
    requires 0 <= rows <= DIM
    ensures x / DIM == i && x % DIM < rows <==> i * DIM <= x < i * DIM + rows
    ensures x / DIM == i ==> x % DIM == x - i * DIM
  {
    assert x == x / DIM * DIM + x % DIM;
    if i * DIM <= x < i * DIM + rows {
      DivUnique(x, DIM, i);
    }
  }

  lemma RunColumns(q: int, n: int, cols: int, c: int)
    requires 0 <= c && cols <= n * DIM
    ensures q * DIM + c < cols ==> q < n
  {}

  /** In block row i, the run of blocks starts at column j * DIM. */
  lemma RunStart(q: int, j: int, col: int)
    requires q == col / DIM - j
    ensures 0 <= q <==> j * DIM <= col
    ensures q * DIM + col % DIM == col - j * DIM
  {
    assert col == col / DIM * DIM + col % DIM;
    if 0 <= q {
      MulLe(j, col / DIM, DIM);
    } else {
      MulLe(col / DIM + 1, j, DIM);
    }
  }

  lemma ViewRowOffset(base: int, W: int, i: int, j: int, row: int, col: int) returns (q: int)
    ensures q == (row / DIM - i) * W + (col / DIM - j)
    ensures ViewRow(base, W, row, col) == base + (i * W + j) * DIM + q * DIM + row % DIM
  {
    q := (row / DIM - i) * W + (col / DIM - j);
  }

  /** Within a view, the footprint of a transfer placed at block (i, j) is the sub-matrix that
      starts there. */
  lemma TouchedView(base: int, W: int, i: int, j: int, n: int, rows: int, cols: int,
                    row: int, col: int, addr: int, R: int)
    requires 0 <= row && 0 <= col < W * DIM
    requires 0 <= i && 0 <= j && 0 < n && j + n <= W
    requires 0 <= rows <= DIM && cols <= n * DIM
    requires addr == base + (i * W + j) * DIM && R == ViewRow(base, W, row, col)
    ensures Touched(addr, DIM, rows, cols, R, col % DIM)
        <==> i * DIM <= row < i * DIM + rows && j * DIM <= col < j * DIM + cols
    ensures Touched(addr, DIM, rows, cols, R, col % DIM) ==>
            (R - addr) % DIM == row - i * DIM && BlockCol(addr, DIM, R, col % DIM) == col - j * DIM
  {
    var q := ViewRowOffset(base, W, i, j, row, col);
    BlockOf(col, W);
    BlockRun(W, i, j, n, row / DIM, col / DIM);
    TouchedCore(addr, i, j, n, rows, cols, row, col, q);
  }

  lemma TouchedCore(addr: int, i: int, j: int, n: int, rows: int, cols: int, row: int, col: int, q: int)
    requires 0 <= rows <= DIM && cols <= n * DIM
    requires 0 <= q < n <==> row / DIM == i && j <= col / DIM < j + n
    requires row / DIM == i ==> q == col / DIM - j
    ensures var R := addr + q * DIM + row % DIM;
      && (Touched(addr, DIM, rows, cols, R, col % DIM)
          <==> i * DIM <= row < i * DIM + rows && j * DIM <= col < j * DIM + cols)
      && (Touched(addr, DIM, rows, cols, R, col % DIM) ==>
          (R - addr) % DIM == row - i * DIM && BlockCol(addr, DIM, R, col % DIM) == col - j * DIM)
  {
    TouchedOffset(addr, rows, cols, q, row % DIM, col % DIM);
    SameBlock(row, i, rows);
    RunColumns(q, n, cols, col % DIM);
    if row / DIM == i {
      RunStart(q, j, col);
    }
  }
}
