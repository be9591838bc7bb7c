/** What the two raw test programs share: operand selection, DIM x DIM blocks in the local memories,
    and the matrices of gemmini_testutils.h. */
module TestBench {
  import opened Accelerator
  import opened Arith
  import opened Config
  import opened LocalMemory
  import opened Quantize
  import opened Sums

  type Matrix = (int, int) -> int

  /** operands(): which A, B and D computation c uses. */
  function OperandD(N: int, c: int): int requires N > 0 { c % N }
  function OperandB(N: int, c: int): int requires N > 0 { c / N % N }
  function OperandA(N: int, c: int): int requires N > 0 { c / N / N }

  lemma OperandRange(N: int, c: int)
    requires N > 0 && 0 <= c < N * N * N
    ensures 0 <= OperandA(N, c) < N && 0 <= OperandB(N, c) < N && 0 <= OperandD(N, c) < N
  {
    DivBounds(c, N);
    DivBounds(c / N, N);
    DivMul(c, N);
    DivMul(c / N, N);
    MulLtCancel(c / N, N * N, N);
    MulLtCancel(c / N / N, N, N);
  }

  /** The computation number read in base N: A is its first digit, B its second, D its last. */
  lemma OperandDigits(N: int, c: int)
    requires N > 0 && 0 <= c < N * N * N
    ensures c == (OperandA(N, c) * N + OperandB(N, c)) * N + OperandD(N, c)
    ensures 0 <= OperandA(N, c) < N && 0 <= OperandB(N, c) < N && 0 <= OperandD(N, c) < N
  {
    DivMul(c, N);
    DivMul(c / N, N);
    OperandRange(N, c);
  }

  /** Every triple of operands is used, and by one computation only: the one with these digits. */
  lemma EveryTriple(N: int, a: int, b: int, d: int, c: int)
    requires N > 0 && 0 <= a < N && 0 <= b < N && 0 <= d < N
    ensures 0 <= (a * N + b) * N + d < N * N * N
    ensures 0 <= c < N * N * N ==>
      (OperandA(N, c) == a && OperandB(N, c) == b && OperandD(N, c) == d <==> c == (a * N + b) * N + d)
  {
    var n := a * N + b;
    Mul2(0, 0, a, N);
    Mul2(a + 1, N, N, N);
    Distribute(a, 1, N);
    Mul2(0, 0, n, N);
    MulLe(n + 1, N * N, N);
    Distribute(n, 1, N);
    if 0 <= c < N * N * N {
      OperandDigits(N, c);
      if c == n * N + d {
        MixedRadix(OperandA(N, c) * N + OperandB(N, c), OperandD(N, c), n, d, N);
        MixedRadix(OperandA(N, c), OperandB(N, c), a, b, N);
      }
    }
  }

  /** The last c' <= c with s[c'] == want. */
  function Last(s: seq<bool>, want: bool, c: int): (k: int)
    requires 0 <= c < |s| && s[0] == want
    ensures 0 <= k <= c && s[k] == want && forall j :: k < j <= c ==> s[j] != want
  {
    if s[c] == want then c else Last(s, want, c - 1)
  }

  /** Matrix n of an array of DIM x DIM matrices at p. */
  function MatrixAt(p: int, n: int): int { p + n * DIM * DIM }
  function InDram(d: Dram, p: int, n: int): Matrix {
    (r, c) => Get(d, ElemAddr(MatrixAt(p, n), DIM, SIZEOF_ELEM, r, c))
  }

  /** The arrays are row-major without gaps: element [n][r][c]. */
  lemma ElementAt(p: int, n: int, r: int, c: int)
    ensures ElemAddr(MatrixAt(p, n), DIM, SIZEOF_ELEM, r, c) == p + SIZEOF_ELEM * ((n * DIM + r) * DIM + c)
  {
    Distribute(n * DIM, r, DIM);
  }

  ghost predicate ArrayIn(d: Dram, p: int, count: int) {
    forall n, r, c :: 0 <= n < count && 0 <= r < DIM && 0 <= c < DIM ==>
      ElemAddr(MatrixAt(p, n), DIM, SIZEOF_ELEM, r, c) in d
  }

  // ---------- DIM-row blocks of a local memory ----------

  function BlockVal(m: Mem, k: int, r: int, c: int): int { Cell(m, k * DIM + r, c) }

  /** Block k of m is f. */
  ghost predicate BlockIs(m: Mem, k: int, f: Matrix) {
    forall r, c :: 0 <= r < DIM && 0 <= c < DIM ==> BlockVal(m, k, r, c) == f(r, c)
  }

  /** Block k lies within a memory of that many rows. */
  predicate Fits(k: int, memRows: int) { 0 <= k && (k + 1) * DIM <= memRows }

  /** No block but k has changed. */
  ghost predicate OnlyBlock(m: Mem, m': Mem, memRows: int, k: int) {
    forall j, r, c :: Fits(j, memRows) && j != k && 0 <= r < DIM && 0 <= c < DIM ==>
      BlockVal(m', j, r, c) == BlockVal(m, j, r, c)
  }

  lemma BlockCell(m: Mem, memRows: nat, k: int, accumulate: bool, v: Matrix, j: int, r: int, c: int)
    requires Fits(j, memRows) && 0 <= r < DIM && 0 <= c < DIM
    ensures BlockVal(BlockWrite(m, memRows, k * DIM, DIM, DIM, DIM, accumulate, v), j, r, c) ==
      if j == k then (if accumulate then BlockVal(m, j, r, c) else 0) + v(r, c) else BlockVal(m, j, r, c)
  {
    var q := j - k;
    Distribute(j, 1, DIM);
    Distribute(k, q, DIM);
    MulLe(0, j, DIM);
    TouchedOffset(k * DIM, DIM, DIM, q, r, c);
    if q > 0 { MulLe(1, q, DIM); }
    hide Touched;
  }

  /** Writing a block replaces it, or adds to it, and changes no other. */
  lemma BlockWritten(m: Mem, memRows: nat, k: int, accumulate: bool, v: Matrix, old_: Matrix, f: Matrix)
    requires Fits(k, memRows) && (accumulate ==> BlockIs(m, k, old_))
    requires forall r, c :: 0 <= r < DIM && 0 <= c < DIM ==> f(r, c) == (if accumulate then old_(r, c) else 0) + v(r, c)
    ensures var m' := BlockWrite(m, memRows, k * DIM, DIM, DIM, DIM, accumulate, v);
      BlockIs(m', k, f) && OnlyBlock(m, m', memRows, k)
  {
    hide BlockWrite, BlockVal, Fits;
    var m' := BlockWrite(m, memRows, k * DIM, DIM, DIM, DIM, accumulate, v);
    forall r, c | 0 <= r < DIM && 0 <= c < DIM ensures BlockVal(m', k, r, c) == f(r, c) {
      BlockCell(m, memRows, k, accumulate, v, k, r, c);
    }
    forall j, r, c | Fits(j, memRows) && j != k && 0 <= r < DIM && 0 <= c < DIM
      ensures BlockVal(m', j, r, c) == BlockVal(m, j, r, c)
    {
      BlockCell(m, memRows, k, accumulate, v, j, r, c);
    }
  }

  lemma BlockKept(m: Mem, m': Mem, memRows: int, k: int, j: int, f: Matrix)
    requires OnlyBlock(m, m', memRows, k) && Fits(j, memRows) && j != k && BlockIs(m, j, f)
    ensures BlockIs(m', j, f)
  {}

  /** A fetched block is the matrix it holds. */
  lemma FetchedBlock(m: Mem, k: int, f: Matrix)
    requires BlockIs(m, k, f) && Fits(k, SPAD_ROWS)
    ensures 0 <= k * DIM && k * DIM + DIM <= SPAD_ROWS && k * DIM < ADDR_ROWS
    ensures forall r, c :: 0 <= r < DIM && 0 <= c < DIM ==> Fetch(m, k * DIM, DIM, DIM)(r, c) == f(r, c)
  {}

  lemma MacEq(a: Matrix, b: Matrix, a': Matrix, b': Matrix, r: int, c: int)
    requires 0 <= r < DIM && 0 <= c < DIM
    requires forall i, j :: 0 <= i < DIM && 0 <= j < DIM ==> a(i, j) == a'(i, j) && b(i, j) == b'(i, j)
    ensures Mac(a, b, r, c) == Mac(a', b', r, c)
  {
    SumEq(0, DIM, MacTerm(a, b, r, c), MacTerm(a', b', r, c));
  }

  // ---------- the matrix vocabulary of the tests ----------

  /** matmul and matmul_full: d + a * b. */
  method Matmul(a: Matrix, b: Matrix, d: Matrix) returns (full: Mem)
    ensures Shape(full, DIM)
    ensures forall r, c :: 0 <= r < DIM && 0 <= c < DIM ==> Cell(full, r, c) == d(r, c) + Mac(a, b, r, c)
  {
    full := [];
    for r := 0 to DIM
      invariant |full| == r && forall i :: 0 <= i < r ==> |full[i]| == DIM
      invariant forall i, c :: 0 <= i < r && 0 <= c < DIM ==> full[i][c] == d(i, c) + Mac(a, b, i, c)
    {
      var row: seq<int> := [];
      for c := 0 to DIM
        invariant |row| == c && forall j :: 0 <= j < c ==> row[j] == d(r, j) + Mac(a, b, r, j)
      {
        var x := d(r, c);
        for k := 0 to DIM
          invariant x == d(r, c) + Sum(0, k, MacTerm(a, b, r, c))
        {
          x := x + a(r, k) * b(k, c);
        }
        row := row + [x];
      }
      full := full + [row];
    }
  }

  /** An elementwise pass over a matrix: matadd, matscale, matshift, matrelu and matrelu6. */
  method Elementwise(f: Matrix) returns (out: Mem)
    ensures Shape(out, DIM)
    ensures forall r, c :: 0 <= r < DIM && 0 <= c < DIM ==> Cell(out, r, c) == f(r, c)
  {
    out := [];
    for r := 0 to DIM
      invariant |out| == r && forall i :: 0 <= i < r ==> |out[i]| == DIM
      invariant forall i, c :: 0 <= i < r && 0 <= c < DIM ==> out[i][c] == f(i, c)
    {
      var row: seq<int> := [];
      for c := 0 to DIM
        invariant |row| == c && forall j :: 0 <= j < c ==> row[j] == f(r, j)
      {
        row := row + [f(r, c)];
      }
      out := out + [row];
    }
  }

  function MatRelu(x: int): int { if x > 0 then x else 0 }

  function MatRelu6(x: int, scale: int): int {
    var max := 6 * scale;
    var positive := if x > 0 then x else 0;
    if positive > max then max else positive
  }

  /** The activation of the tests' gold result. */
  function GoldActivate(x: int, act: int, relu6Shift: nat): int {
    if act == RELU then MatRelu(x) else if act == RELU6 then MatRelu6(x, Pow2(relu6Shift)) else x
  }

  /** It is the accelerator's. */
  lemma GoldActivateIs(x: int, act: int, relu6Shift: nat)
    ensures GoldActivate(x, act, relu6Shift) == Activate(x, act, relu6Shift)
  {}

  /** matscale or matshift, then the pass of the activation, if any. */
  method Finish(full: Mem, narrow: Scale, act: int, relu6Shift: nat) returns (gold: Mem)
    ensures Shape(gold, DIM)
    ensures forall r, k :: 0 <= r < DIM && 0 <= k < DIM ==>
              Cell(gold, r, k) == GoldActivate(Clip(narrow(Cell(full, r, k))), act, relu6Shift)
  {
    gold := Elementwise((r, k) => Clip(narrow(Cell(full, r, k))));
    var scaled := gold;
    hide Cell, Shape;
    if act == RELU {
      gold := Elementwise((r, k) => MatRelu(Cell(scaled, r, k)));
    } else if act == RELU6 {
      gold := Elementwise((r, k) => MatRelu6(Cell(scaled, r, k), Pow2(relu6Shift)));
    }
  }

  // ---------- moving the operands in ----------

  datatype Bench = Bench(N: int, A: int, B: int, D: int, C: int, act: int, relu6Shift: nat) {
    predicate Ok() { N > 0 && A > 0 && B > 0 && D > 0 && C > 0 }
    predicate FitsSpad() { Fits(3 * N - 1, SPAD_ROWS) }
  }

  ghost predicate OperandsIn(d: Dram, x: Bench) { ArrayIn(d, x.A, x.N) && ArrayIn(d, x.B, x.N) && ArrayIn(d, x.D, x.N) }

  /** The operand held by scratchpad block j: the A matrices, then the B matrices, then the D matrices. */
  function OperandOf(d: Dram, x: Bench, j: int): Matrix {
    if j < x.N then InDram(d, x.A, j) else if j < 2 * x.N then InDram(d, x.B, j - x.N) else InDram(d, x.D, j - 2 * x.N)
  }

  /** The first n blocks of the scratchpad hold their operands. */
  ghost predicate LoadedTo(m: Mem, d: Dram, x: Bench, n: int) {
    forall j :: 0 <= j < n ==> BlockIs(m, j, OperandOf(d, x, j))
  }

  lemma LoadedStep(m: Mem, m': Mem, d: Dram, x: Bench, n: int)
    requires LoadedTo(m, d, x, n) && OnlyBlock(m, m', SPAD_ROWS, n) && BlockIs(m', n, OperandOf(d, x, n))
             && Fits(n, SPAD_ROWS)
    ensures LoadedTo(m', d, x, n + 1)
  {
    forall j | 0 <= j < n + 1 ensures BlockIs(m', j, OperandOf(d, x, j)) {
      SmallerFits(j, n, SPAD_ROWS);
      hide BlockIs, OnlyBlock, Fits, OperandOf;
      if j < n { BlockKept(m, m', SPAD_ROWS, n, j, OperandOf(d, x, j)); }
    }
  }

  ghost predicate Loading(g: Gemmini)
    reads g
  {
    g.Valid() && g.ld[0] == LoadConfig(DIM * SIZEOF_ELEM, Identity(), false, DIM)
  }

  lemma SmallerFits(j: int, k: int, memRows: int)
    requires Fits(k, memRows) && 0 <= j <= k
    ensures Fits(j, memRows)
  {}

  /** gemmini_mvin of matrix i of the array at p to block k. */
  method MvinMatrix(g: Gemmini, p: int, i: int, k: int)
    requires Loading(g) && p > 0 && 0 <= i && Fits(k, SPAD_ROWS)
    requires forall r, c :: 0 <= r < DIM && 0 <= c < DIM ==> ElemAddr(MatrixAt(p, i), DIM, SIZEOF_ELEM, r, c) in g.dram
    modifies g`spad, g`acc
    ensures Loading(g) && g.acc == old(g.acc)
    ensures BlockIs(g.spad, k, InDram(g.dram, p, i)) && OnlyBlock(old(g.spad), g.spad, SPAD_ROWS, k)
  {
    MulLe(0, k, DIM);
    Distribute(k, 1, DIM);
    MulLe(0, i, DIM);
    MulLe(0, i * DIM, DIM);
    CeilDivUnique(DIM, DIM, 1);
    MulLe(1, MAX_BLOCK_LEN, DIM);
    SpadAddress(k * DIM);
    MatrixLoaded(g.dram, g.ld[0], p, i, k * DIM);
    BlockWritten(g.spad, SPAD_ROWS, k, false, LoadFn(g.dram, g.ld[0], MatrixAt(p, i), k * DIM), InDram(g.dram, p, i),
                 InDram(g.dram, p, i));
    hide CeilDiv, BlockWrite, LoadFn, IsAcc, RowOf, Accumulates, BlockIs, OnlyBlock, Fits, ElemAddr;
    g.Mvin(0, MatrixAt(p, i), k * DIM, DIM, DIM);
  }

  lemma MatrixLoaded(d: Dram, ld: LoadConfig, p: int, i: int, addr: int)
    requires !IsAcc(addr) && ld.stride == DIM && ld.scale == Identity() && MatrixAt(p, i) != NULL
    ensures LoadSize(ld, addr) == SIZEOF_ELEM
    ensures forall r, c :: 0 <= r < DIM && 0 <= c < DIM ==>
              LoadFn(d, ld, MatrixAt(p, i), addr)(r, c) == InDram(d, p, i)(r, c)
  {}

  lemma OperandFetched(spad: Mem, x: Bench, d: Dram, j: int)
    requires LoadedTo(spad, d, x, 3 * x.N) && 0 <= j < 3 * x.N && x.FitsSpad()
    ensures 0 <= j * DIM && j * DIM + DIM <= SPAD_ROWS && j * DIM < ADDR_ROWS
    ensures forall r, c :: 0 <= r < DIM && 0 <= c < DIM ==>
              Fetch(spad, j * DIM, DIM, DIM)(r, c) == OperandOf(d, x, j)(r, c)
  {
    SmallerFits(j, 3 * x.N - 1, SPAD_ROWS);
    assert BlockIs(spad, j, OperandOf(d, x, j));
    hide Fits, LoadedTo, OperandOf, Fetch, BlockIs;
    FetchedBlock(spad, j, OperandOf(d, x, j));
  }

  /** One mvin of the operands, in the order of the blocks. */
  method MvinOperand(g: Gemmini, x: Bench, p: int, i: int, n: int)
    requires Loading(g) && x.Ok() && x.FitsSpad() && OperandsIn(g.dram, x) && 0 <= n < 3 * x.N
    requires p == (if n < x.N then x.A else if n < 2 * x.N then x.B else x.D)
    requires i == (if n < x.N then n else if n < 2 * x.N then n - x.N else n - 2 * x.N)
    requires LoadedTo(g.spad, g.dram, x, n)
    modifies g`spad, g`acc
    ensures Loading(g) && g.acc == old(g.acc) && LoadedTo(g.spad, g.dram, x, n + 1)
  {
    ghost var m := g.spad;
    SmallerFits(n, 3 * x.N - 1, SPAD_ROWS);
    assert OperandOf(g.dram, x, n) == InDram(g.dram, p, i);
    MatrixHere(g.dram, x, p, i);
    hide LoadedTo, Fits, BlockIs, OnlyBlock, OperandOf, InDram, OperandsIn, ElemAddr, MatrixAt;
    MvinMatrix(g, p, i, n);
    LoadedStep(m, g.spad, g.dram, x, n);
  }

  lemma MatrixHere(d: Dram, x: Bench, p: int, i: int)
    requires OperandsIn(d, x) && p in {x.A, x.B, x.D} && 0 <= i < x.N
    ensures forall r, c :: 0 <= r < DIM && 0 <= c < DIM ==> ElemAddr(MatrixAt(p, i), DIM, SIZEOF_ELEM, r, c) in d
  {}

  /** The three mvin loops. */
  method MvinOperands(g: Gemmini, x: Bench)
    requires Loading(g) && x.Ok() && x.FitsSpad() && OperandsIn(g.dram, x)
    modifies g`spad, g`acc
    ensures Loading(g) && g.acc == old(g.acc) && LoadedTo(g.spad, g.dram, x, 3 * x.N)
  {
    hide LoadedTo, OperandsIn;
    NothingLoaded(g.spad, g.dram, x);
    for n := 0 to x.N
      invariant Loading(g) && g.acc == old(g.acc) && LoadedTo(g.spad, g.dram, x, n)
    {
      MvinOperand(g, x, x.A, n, n);
    }
    for n := 0 to x.N
      invariant Loading(g) && g.acc == old(g.acc) && LoadedTo(g.spad, g.dram, x, x.N + n)
    {
      MvinOperand(g, x, x.B, n, x.N + n);
    }
    for n := 0 to x.N
      invariant Loading(g) && g.acc == old(g.acc) && LoadedTo(g.spad, g.dram, x, 2 * x.N + n)
    {
      MvinOperand(g, x, x.D, n, 2 * x.N + n);
    }
  }

  lemma NothingLoaded(m: Mem, d: Dram, x: Bench)
    ensures LoadedTo(m, d, x, 0)
  {}

  // ---------- moving results out ----------

  /** The results array shares no element with itself: matrices do not overlap. */
  lemma MatrixInjective(p: int, n: int, r: int, c: int, n': int, r': int, c': int)
    requires 0 <= r < DIM && 0 <= c < DIM && 0 <= r' < DIM && 0 <= c' < DIM
    requires ElemAddr(MatrixAt(p, n), DIM, SIZEOF_ELEM, r, c) == ElemAddr(MatrixAt(p, n'), DIM, SIZEOF_ELEM, r', c')
    ensures n == n' && r == r' && c == c'
  {
    Distribute(n * DIM, r, DIM);
    Distribute(n' * DIM, r', DIM);
    MixedRadix(n * DIM + r, c, n' * DIM + r', c', DIM);
    MixedRadix(n, r, n', r', DIM);
  }

  /** The matrices selected by `out` have been stored; nothing else has changed. */
  ghost predicate StoredTo(d: Dram, d': Dram, p: int, gold: int -> Matrix, out: int -> bool, n: int, total: int) {
    && d'.Keys == d.Keys
    && (forall i, r, c :: 0 <= i < n && out(i) && 0 <= r < DIM && 0 <= c < DIM ==>
          Get(d', ElemAddr(MatrixAt(p, i), DIM, SIZEOF_ELEM, r, c)) == gold(i)(r, c))
    && (forall a :: a in d && !InResults(a, p, total) ==> Get(d', a) == Get(d, a))
  }

  ghost predicate InResults(a: int, p: int, total: int) {
    exists i, r, c ::
      0 <= i < total && 0 <= r < DIM && 0 <= c < DIM && a == ElemAddr(MatrixAt(p, i), DIM, SIZEOF_ELEM, r, c)
  }

  lemma StoredStep(d: Dram, d1: Dram, d2: Dram, p: int, gold: int -> Matrix, out: int -> bool, n: int, total: int,
                   v: Matrix)
    requires StoredTo(d, d1, p, gold, out, n, total) && 0 <= n < total
    requires RegionStored(d1, d2, MatrixAt(p, n), DIM, SIZEOF_ELEM, DIM, DIM, v)
    requires forall r, c :: 0 <= r < DIM && 0 <= c < DIM ==> v(r, c) == gold(n)(r, c)
    ensures StoredTo(d, d2, p, gold, out, n + 1, total)
  {
    forall i, r, c | 0 <= i < n + 1 && out(i) && 0 <= r < DIM && 0 <= c < DIM
      ensures Get(d2, ElemAddr(MatrixAt(p, i), DIM, SIZEOF_ELEM, r, c)) == gold(i)(r, c)
    {
      if i < n { OtherMatrix(d1, d2, p, n, v, i, r, c); }
      hide ElemAddr, MatrixAt, InMatrix, InResults;
    }
    forall a | a in d && !InResults(a, p, total) ensures Get(d2, a) == Get(d, a) {
      hide ElemAddr, MatrixAt, InMatrix, InResults;
      MatrixInResults(a, p, n, total);
    }
    hide ElemAddr, MatrixAt, InMatrix, InResults;
  }

  lemma MatrixInResults(a: int, p: int, n: int, total: int)
    requires 0 <= n < total
    ensures InMatrix(a, MatrixAt(p, n), DIM, SIZEOF_ELEM, DIM, DIM) ==> InResults(a, p, total)
  {}

  lemma OtherMatrix(d1: Dram, d2: Dram, p: int, n: int, v: Matrix, i: int, r: int, c: int)
    requires RegionStored(d1, d2, MatrixAt(p, n), DIM, SIZEOF_ELEM, DIM, DIM, v)
    requires i != n && 0 <= r < DIM && 0 <= c < DIM
    ensures var a := ElemAddr(MatrixAt(p, i), DIM, SIZEOF_ELEM, r, c); Get(d2, a) == Get(d1, a)
  {
    var a := ElemAddr(MatrixAt(p, i), DIM, SIZEOF_ELEM, r, c);
    if InMatrix(a, MatrixAt(p, n), DIM, SIZEOF_ELEM, DIM, DIM) {
      var r', c' :| 0 <= r' < DIM && 0 <= c' < DIM && a == ElemAddr(MatrixAt(p, n), DIM, SIZEOF_ELEM, r', c');
      MatrixInjective(p, i, r, c, n, r', c');
    }
    hide ElemAddr, MatrixAt, InMatrix;
  }

  /** A matrix that is not stored leaves the results as they are. */
  lemma StoredSkip(d: Dram, d1: Dram, p: int, gold: int -> Matrix, out: int -> bool, n: int, total: int)
    requires StoredTo(d, d1, p, gold, out, n, total) && !out(n)
    ensures StoredTo(d, d1, p, gold, out, n + 1, total)
  {}

  /** gemmini_mvout of a DIM x DIM block to matrix n of the results. */
  method MvoutMatrix(g: Gemmini, x: Bench, addr: int, n: int, ghost d: Dram, ghost gold: int -> Matrix,
                     ghost out: int -> bool, ghost total: int)
    requires g.Valid() && g.stStride == DIM && 0 <= n < total && ArrayIn(d, x.C, total)
    requires 0 <= RowOf(addr) && RowOf(addr) + DIM <= (if IsAcc(addr) then ACC_ROWS else SPAD_ROWS)
             && StoreSize(addr) == SIZEOF_ELEM
    requires StoredTo(d, g.dram, x.C, gold, out, n, total)
    requires forall r, c :: 0 <= r < DIM && 0 <= c < DIM ==>
      StoreFn(if IsAcc(addr) then g.acc else g.spad, g.ex, addr)(r, c) == gold(n)(r, c)
    modifies g`dram
    ensures g.Valid() && StoredTo(d, g.dram, x.C, gold, out, n + 1, total)
  {
    CeilDivUnique(DIM, DIM, 1);
    ResultHere(d, g.dram, x.C, n, total);
    StoredMatrix(d, g.dram, x.C, gold, out, n, total, StoreFn(if IsAcc(addr) then g.acc else g.spad, g.ex, addr));
    hide CeilDiv, StoreFn, StoredTo, IsAcc, RowOf, StoreSize, ElemAddr, StoreInto, ArrayIn, MatrixAt;
    g.Mvout(MatrixAt(x.C, n), addr, DIM, DIM);
  }

  lemma StoredMatrix(d: Dram, d1: Dram, p: int, gold: int -> Matrix, out: int -> bool, n: int, total: int, v: Matrix)
    requires StoredTo(d, d1, p, gold, out, n, total) && 0 <= n < total && ArrayIn(d, p, total)
    requires forall r, c :: 0 <= r < DIM && 0 <= c < DIM ==> v(r, c) == gold(n)(r, c)
    ensures StoredTo(d, StoreInto(d1, MatrixAt(p, n), DIM, SIZEOF_ELEM, DIM, DIM, v), p, gold, out, n + 1, total)
  {
    assert d1.Keys == d.Keys;
    hide StoredTo, ElemAddr, StoreInto, ArrayIn, MatrixAt;
    ResultHere(d, d1, p, n, total);
    StoreCells(d1, MatrixAt(p, n), DIM, SIZEOF_ELEM, DIM, DIM, v);
    StoredStep(d, d1, StoreInto(d1, MatrixAt(p, n), DIM, SIZEOF_ELEM, DIM, DIM, v), p, gold, out, n, total, v);
  }

  /** What an accumulator row stores, one block wide. */
  lemma StoredElement(m: Mem, ex: ExConfig, addr: int, r: int, k: int)
    requires IsAcc(addr) && !FullWidth(addr) && 0 <= k < DIM
    ensures StoreFn(m, ex, addr)(r, k) == Activate(Clip(ex.accScale(Cell(m, RowOf(addr) + r, k))), ex.act,
                                                   ex.relu6Shift)
  {
    assert k / DIM * DIM == 0 && k % DIM == k by { DivUnique(k, DIM, 0); }
    var row := RowOf(addr) + k / DIM * DIM + r;
    assert row == RowOf(addr) + r;
    assert StoreFn(m, ex, addr)(r, k) == ScaleAndSat(Cell(m, row, k % DIM), ex.act, ex.accScale, ex.relu6Shift);
  }

  lemma ResultHere(d: Dram, d1: Dram, p: int, n: int, total: int)
    requires ArrayIn(d, p, total) && 0 <= n < total && d1.Keys == d.Keys
    ensures forall r, c :: 0 <= r < DIM && 0 <= c < DIM ==> ElemAddr(MatrixAt(p, n), DIM, SIZEOF_ELEM, r, c) in d1
  {}

  // ---------- the comparison ----------

  lemma ResultsKept(d: Dram, d': Dram, p: int, total: int)
    requires ArrayIn(d, p, total) && d'.Keys == d.Keys
    ensures ArrayIn(d', p, total)
  {}

  /** is_equal of result matrix n and a gold matrix. */
  method IsEqual(d: Dram, p: int, n: int, total: int, gold: Mem) returns (same: bool)
    requires ArrayIn(d, p, total) && 0 <= n < total && Shape(gold, DIM)
    ensures same <==> forall r, c :: 0 <= r < DIM && 0 <= c < DIM ==>
              Get(d, ElemAddr(MatrixAt(p, n), DIM, SIZEOF_ELEM, r, c)) == Cell(gold, r, c)
  {
    hide ElemAddr, MatrixAt;
    for r := 0 to DIM
      invariant forall i, c :: 0 <= i < r && 0 <= c < DIM ==>
                  Get(d, ElemAddr(MatrixAt(p, n), DIM, SIZEOF_ELEM, i, c)) == Cell(gold, i, c)
    {
      for c := 0 to DIM
        invariant forall j :: 0 <= j < c ==>
                    Get(d, ElemAddr(MatrixAt(p, n), DIM, SIZEOF_ELEM, r, j)) == Cell(gold, r, j)
      {
        if d[ElemAddr(MatrixAt(p, n), DIM, SIZEOF_ELEM, r, c)] != gold[r][c] {
          return false;
        }
      }
    }
    return true;
  }

  /** The checking loop: whether some result that was to be stored differs from its gold. */
  method AnyWrong(d: Dram, p: int, golds: seq<Mem>, out: int -> bool) returns (failed: bool)
    requires ArrayIn(d, p, |golds|) && forall n :: 0 <= n < |golds| ==> Shape(golds[n], DIM)
    ensures !failed <==> forall n, r, c :: 0 <= n < |golds| && out(n) && 0 <= r < DIM && 0 <= c < DIM ==>
              Get(d, ElemAddr(MatrixAt(p, n), DIM, SIZEOF_ELEM, r, c)) == Cell(golds[n], r, c)
  {
    hide ElemAddr, MatrixAt, ArrayIn, Cell, Shape;
    for n := 0 to |golds|
      invariant forall m, r, c :: 0 <= m < n && out(m) && 0 <= r < DIM && 0 <= c < DIM ==>
                  Get(d, ElemAddr(MatrixAt(p, m), DIM, SIZEOF_ELEM, r, c)) == Cell(golds[m], r, c)
    {
      if out(n) {
        var same := IsEqual(d, p, n, |golds|, golds[n]);
        if !same {
          return true;
        }
      }
    }
    return false;
  }
}
