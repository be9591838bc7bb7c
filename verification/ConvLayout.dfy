/** Where a convolution slice lies in the scratchpad: its padded input from the bottom up, its weights up to
    the end of their half. The row counts of tiled_conv_total_spad_rows_A_stride are the sizes of these regions. */
module ConvLayout {
  import opened Arith
  import opened Config
  import opened ConvRows
  import opened Tensor

  /** Padded input of a slice; a row holds DIM channels of a pixel, or DIM images of it when transposed. */
  datatype Slab = Slab(batches: int, rows: int, cols: int, chs: int, transposed: bool) {
    predicate Ok() { batches >= 1 && rows >= 1 && cols >= 1 && chs >= 1 }

    predicate In(b: int, r: int, c: int, ch: int) {
      0 <= b < batches && 0 <= r < rows && 0 <= c < cols && 0 <= ch < chs
    }

    /** A_sp_addr, counted from the start of the region. */
    function RowAt(b: int, r: int, c: int, ch: int): int {
      if transposed then b / DIM * chs * rows * cols + ch * rows * cols + r * cols + c
      else ch / DIM * batches * rows * cols + b * rows * cols + r * cols + c
    }

    function LaneAt(b: int, ch: int): int { (if transposed then b else ch) % DIM }

    function Rows(): int {
      if transposed then PerBank(batches) * chs * rows * cols else PerBank(chs) * batches * rows * cols
    }
  }

  /** Weights of a slice; a row holds DIM output channels, or DIM input channels when transposed. */
  datatype Kernel = Kernel(ochs: int, krows: int, kcols: int, kchs: int, transposed: bool) {
    predicate Ok() { ochs >= 1 && krows >= 1 && kcols >= 1 && kchs >= 1 }

    predicate In(o: int, kr: int, kc: int, ch: int) {
      0 <= o < ochs && 0 <= kr < krows && 0 <= kc < kcols && 0 <= ch < kchs
    }

    /** B_sp_addr, counted from the start of the region. */
    function RowAt(o: int, kr: int, kc: int, ch: int): int {
      if transposed then ch / DIM * krows * kcols * ochs + kr * kcols * ochs + kc * ochs + o
      else o / DIM * krows * kcols * kchs + kr * kcols * kchs + kc * kchs + ch
    }

    function LaneAt(o: int, ch: int): int { (if transposed then ch else o) % DIM }

    function Rows(): int {
      if transposed then PerBank(kchs) * krows * kcols * ochs else PerBank(ochs) * krows * kcols * kchs
    }
  }

  type GoodSlab = x: Slab | x.Ok() witness Slab(1, 1, 1, 1, false)
  type GoodKernel = k: Kernel | k.Ok() witness Kernel(1, 1, 1, 1, false)

  // ---------- one region ----------

  lemma Ix4Terms(n1: int, n2: int, n3: int, a: int, b: int, c: int, d: int)
    ensures Ix4(n1, n2, n3, a, b, c, d) == a * n1 * n2 * n3 + b * n2 * n3 + c * n3 + d
  {
    Distribute(a * n1, b, n2);
    Distribute(a * n1 * n2 + b * n2, c, n3);
    Distribute(a * n1 * n2, b * n2, n3);
  }

  lemma BlockBound(x: int, n: int)
    requires 0 <= x < n
    ensures 0 <= x / DIM < PerBank(n)
  {
    DivMul(x, DIM);
    MulLtCancel(-1, x / DIM, DIM);
    MulLtCancel(x / DIM, PerBank(n), DIM);
  }

  /** Every block has a first element. */
  lemma BlockFirst(k: int, n: int)
    requires 0 <= k < PerBank(n)
    ensures 0 <= k * DIM < n && k * DIM / DIM == k
  {
    MulLe(0, k, DIM);
    MulLe(k, PerBank(n) - 1, DIM);
    DivUnique(k * DIM, DIM, k);
  }

  lemma SameBlock(x: int, y: int)
    requires x / DIM == y / DIM && x % DIM == y % DIM
    ensures x == y
  {
    assert x == x / DIM * DIM + x % DIM && y == y / DIM * DIM + y % DIM;
  }

  lemma SlabIx(x: Slab, b: int, r: int, c: int, ch: int)
    ensures x.RowAt(b, r, c, ch) == if x.transposed then Ix4(x.chs, x.rows, x.cols, b / DIM, ch, r, c)
                                    else Ix4(x.batches, x.rows, x.cols, ch / DIM, b, r, c)
  {
    Ix4Terms(x.chs, x.rows, x.cols, b / DIM, ch, r, c);
    Ix4Terms(x.batches, x.rows, x.cols, ch / DIM, b, r, c);
  }

  lemma KernelIx(k: Kernel, o: int, kr: int, kc: int, ch: int)
    ensures k.RowAt(o, kr, kc, ch) == if k.transposed then Ix4(k.krows, k.kcols, k.ochs, ch / DIM, kr, kc, o)
                                      else Ix4(k.krows, k.kcols, k.kchs, o / DIM, kr, kc, ch)
  {
    Ix4Terms(k.krows, k.kcols, k.ochs, ch / DIM, kr, kc, o);
    Ix4Terms(k.krows, k.kcols, k.kchs, o / DIM, kr, kc, ch);
  }

  /** Every input element lies in the region. */
  lemma SlabBound(x: GoodSlab, b: int, r: int, c: int, ch: int)
    requires x.In(b, r, c, ch)
    ensures 0 <= x.RowAt(b, r, c, ch) < x.Rows()
  {
    SlabIx(x, b, r, c, ch);
    BlockBound(b, x.batches);
    BlockBound(ch, x.chs);
    hide PerBank, Ix4, Slab.RowAt;
    if x.transposed {
      Ix4Bound(PerBank(x.batches), x.chs, x.rows, x.cols, b / DIM, ch, r, c);
    } else {
      Ix4Bound(PerBank(x.chs), x.batches, x.rows, x.cols, ch / DIM, b, r, c);
    }
  }

  /** No two of them share a cell. */
  lemma SlabInjective(x: GoodSlab, b: int, r: int, c: int, ch: int, b': int, r': int, c': int, ch': int)
    requires x.In(b, r, c, ch) && x.In(b', r', c', ch')
    requires x.RowAt(b, r, c, ch) == x.RowAt(b', r', c', ch') && x.LaneAt(b, ch) == x.LaneAt(b', ch')
    ensures b == b' && r == r' && c == c' && ch == ch'
  {
    SlabIx(x, b, r, c, ch);
    SlabIx(x, b', r', c', ch');
    hide Ix4, Slab.RowAt;
    if x.transposed {
      Ix4Injective(x.chs, x.rows, x.cols, b / DIM, ch, r, c, b' / DIM, ch', r', c');
      SameBlock(b, b');
    } else {
      Ix4Injective(x.batches, x.rows, x.cols, ch / DIM, b, r, c, ch' / DIM, b', r', c');
      SameBlock(ch, ch');
    }
  }

  /** Every row of the region is used. */
  lemma SlabOnto(x: GoodSlab, n: int) returns (b: int, r: int, c: int, ch: int)
    requires 0 <= n < x.Rows()
    ensures x.In(b, r, c, ch) && x.RowAt(b, r, c, ch) == n
  {
    var k;
    if x.transposed {
      CeilNatural(x.batches);
      hide PerBank, Ix4, Slab.RowAt;
      k, ch, r, c := Ix4Onto(PerBank(x.batches), x.chs, x.rows, x.cols, n);
      b := k * DIM;
      BlockFirst(k, x.batches);
    } else {
      CeilNatural(x.chs);
      hide PerBank, Ix4, Slab.RowAt;
      k, b, r, c := Ix4Onto(PerBank(x.chs), x.batches, x.rows, x.cols, n);
      ch := k * DIM;
      BlockFirst(k, x.chs);
    }
    SlabIx(x, b, r, c, ch);
  }

  lemma CeilNatural(x: int)
    requires x >= 1
    ensures PerBank(x) >= 1
  {
    MulLtCancel(0, PerBank(x), DIM);
  }

  /** Every weight lies in the region. */
  lemma KernelBound(k: GoodKernel, o: int, kr: int, kc: int, ch: int)
    requires k.In(o, kr, kc, ch)
    ensures 0 <= k.RowAt(o, kr, kc, ch) < k.Rows()
  {
    KernelIx(k, o, kr, kc, ch);
    BlockBound(o, k.ochs);
    BlockBound(ch, k.kchs);
    hide PerBank, Ix4, Kernel.RowAt;
    if k.transposed {
      Ix4Bound(PerBank(k.kchs), k.krows, k.kcols, k.ochs, ch / DIM, kr, kc, o);
    } else {
      Ix4Bound(PerBank(k.ochs), k.krows, k.kcols, k.kchs, o / DIM, kr, kc, ch);
    }
  }

  /** No two of them share a cell. */
  lemma KernelInjective(k: GoodKernel, o: int, kr: int, kc: int, ch: int, o': int, kr': int, kc': int, ch': int)
    requires k.In(o, kr, kc, ch) && k.In(o', kr', kc', ch')
    requires k.RowAt(o, kr, kc, ch) == k.RowAt(o', kr', kc', ch') && k.LaneAt(o, ch) == k.LaneAt(o', ch')
    ensures o == o' && kr == kr' && kc == kc' && ch == ch'
  {
    KernelIx(k, o, kr, kc, ch);
    KernelIx(k, o', kr', kc', ch');
    hide Ix4, Kernel.RowAt;
    if k.transposed {
      Ix4Injective(k.krows, k.kcols, k.ochs, ch / DIM, kr, kc, o, ch' / DIM, kr', kc', o');
      SameBlock(ch, ch');
    } else {
      Ix4Injective(k.krows, k.kcols, k.kchs, o / DIM, kr, kc, ch, o' / DIM, kr', kc', ch');
      SameBlock(o, o');
    }
  }

  /** Every row of the region is used. */
  lemma KernelOnto(k: GoodKernel, n: int) returns (o: int, kr: int, kc: int, ch: int)
    requires 0 <= n < k.Rows()
    ensures k.In(o, kr, kc, ch) && k.RowAt(o, kr, kc, ch) == n
  {
    var a;
    if k.transposed {
      CeilNatural(k.kchs);
      hide PerBank, Ix4, Kernel.RowAt;
      a, kr, kc, o := Ix4Onto(PerBank(k.kchs), k.krows, k.kcols, k.ochs, n);
      ch := a * DIM;
      BlockFirst(a, k.kchs);
    } else {
      CeilNatural(k.ochs);
      hide PerBank, Ix4, Kernel.RowAt;
      a, kr, kc, ch := Ix4Onto(PerBank(k.ochs), k.krows, k.kcols, k.kchs, n);
      o := a * DIM;
      BlockFirst(a, k.ochs);
    }
    KernelIx(k, o, kr, kc, ch);
  }

  // ---------- the two regions ----------

  /** Some row s divides the first `end` rows so that all input lies below it and all weights, placed from
      s on, below the end. */
  ghost predicate Apart(x: Slab, k: Kernel, end: int) {
    exists s :: InputBelow(x, s) && WeightsWithin(k, s, end)
  }

  ghost predicate InputBelow(x: Slab, s: int) {
    forall b, r, c, ch :: x.In(b, r, c, ch) ==> 0 <= x.RowAt(b, r, c, ch) < s
  }

  ghost predicate WeightsWithin(k: Kernel, s: int, end: int) {
    forall o, kr, kc, ch :: k.In(o, kr, kc, ch) ==> s <= s + k.RowAt(o, kr, kc, ch) < end
  }

  lemma InputBelowIff(x: GoodSlab, s: int)
    ensures InputBelow(x, s) <==> x.Rows() <= s
  {
    SlabNatural(x);
    hide Slab.RowAt, Slab.Rows;
    if InputBelow(x, s) {
      var b, r, c, ch := SlabOnto(x, x.Rows() - 1);
    } else {
      var b, r, c, ch :| x.In(b, r, c, ch) && !(0 <= x.RowAt(b, r, c, ch) < s);
      SlabBound(x, b, r, c, ch);
    }
  }

  lemma WeightsWithinIff(k: GoodKernel, s: int, end: int)
    ensures WeightsWithin(k, s, end) <==> s + k.Rows() <= end
  {
    KernelNatural(k);
    hide Kernel.RowAt, Kernel.Rows;
    if WeightsWithin(k, s, end) {
      var o, kr, kc, ch := KernelOnto(k, k.Rows() - 1);
    } else {
      var o, kr, kc, ch :| k.In(o, kr, kc, ch) && !(s <= s + k.RowAt(o, kr, kc, ch) < end);
      KernelBound(k, o, kr, kc, ch);
    }
  }

  lemma SlabNatural(x: GoodSlab)
    ensures x.Rows() >= 1
  {
    CeilNatural(x.batches);
    CeilNatural(x.chs);
    hide PerBank;
    if x.transposed { Product4(PerBank(x.batches), x.chs, x.rows, x.cols); }
    else { Product4(PerBank(x.chs), x.batches, x.rows, x.cols); }
  }

  lemma KernelNatural(k: GoodKernel)
    ensures k.Rows() >= 1
  {
    CeilNatural(k.ochs);
    CeilNatural(k.kchs);
    hide PerBank;
    if k.transposed { Product4(PerBank(k.kchs), k.krows, k.kcols, k.ochs); }
    else { Product4(PerBank(k.ochs), k.krows, k.kcols, k.kchs); }
  }

  lemma Product4(a: int, b: int, c: int, d: int)
    requires a >= 1 && b >= 1 && c >= 1 && d >= 1
    ensures a * b * c * d >= 1
  {
    Mul4(1, 1, 1, 1, a, b, c, d);
  }

  /** The regions can be kept apart within `end` rows exactly if their sizes add up to no more. */
  lemma ApartIff(x: GoodSlab, k: GoodKernel, end: int)
    ensures Apart(x, k, end) <==> x.Rows() + k.Rows() <= end
  {
    hide Slab.Rows, Kernel.Rows, InputBelow, WeightsWithin;
    InputBelowIff(x, x.Rows());
    WeightsWithinIff(k, x.Rows(), end);
    if Apart(x, k, end) {
      var s :| InputBelow(x, s) && WeightsWithin(k, s, end);
      InputBelowIff(x, s);
      WeightsWithinIff(k, s, end);
    }
  }

  /** A smaller slice needs no more. */
  lemma SlabMono(x: GoodSlab, y: GoodSlab)
    requires x.batches <= y.batches && x.rows <= y.rows && x.cols <= y.cols && x.chs <= y.chs
    requires x.transposed == y.transposed
    ensures x.Rows() <= y.Rows()
  {
    PerBankMono(x.batches, y.batches);
    PerBankMono(x.chs, y.chs);
    hide PerBank;
    if x.transposed {
      Mul4(PerBank(x.batches), x.chs, x.rows, x.cols, PerBank(y.batches), y.chs, y.rows, y.cols);
    } else {
      Mul4(PerBank(x.chs), x.batches, x.rows, x.cols, PerBank(y.chs), y.batches, y.rows, y.cols);
    }
  }

  lemma KernelMono(k: GoodKernel, l: GoodKernel)
    requires k.ochs <= l.ochs && k.krows <= l.krows && k.kcols <= l.kcols && k.kchs <= l.kchs
    requires k.transposed == l.transposed
    ensures k.Rows() <= l.Rows()
  {
    PerBankMono(k.ochs, l.ochs);
    PerBankMono(k.kchs, l.kchs);
    hide PerBank;
    if k.transposed {
      Mul4(PerBank(k.kchs), k.krows, k.kcols, k.ochs, PerBank(l.kchs), l.krows, l.kcols, l.ochs);
    } else {
      Mul4(PerBank(k.ochs), k.krows, k.kcols, k.kchs, PerBank(l.ochs), l.krows, l.kcols, l.kchs);
    }
  }

  // ---------- the counts ----------

  /** A_rows and B_rows are the sizes of the two regions. */
  lemma CountsAre(g: GoodGeometry, batches: int, porows: int, pocols: int, ochs: int, krows: int, kcols: int,
                  kchs: int)
    ensures ARows(g, batches, porows, pocols, krows, kcols, kchs)
         == Slab(batches, g.InRows(porows, krows), g.InRows(pocols, kcols), kchs, g.transIn3120).Rows()
    ensures BRows(g, ochs, krows, kcols, kchs) == Kernel(ochs, krows, kcols, kchs, g.transW0132).Rows()
  {
    hide PerBank, Geometry.InRows;
    Swap(PerBank(kchs), kcols, krows, ochs);
    Swap(PerBank(ochs), kcols, krows, kchs);
  }

  lemma Swap(a: int, b: int, c: int, d: int)
    ensures a * b * c * d == a * c * b * d
  {
    MulAssoc(a, b, c);
    MulAssoc(a, c, b);
    Commute(b, c);
  }
}
