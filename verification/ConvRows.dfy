/** tiled_conv_total_spad_rows_A_stride: the memory a convolution tile needs. */
module ConvRows {
  import opened Arith
  import opened Config

  /** What the row counts depend on besides the tile sizes. */
  datatype Geometry = Geometry(stride: int, inDil: int, kDil: int, downsample: bool, transW0132: bool,
                               transIn3120: bool,
                               poolSize: int, poolStride: int)
  {
    predicate Ok() { stride >= 1 && inDil >= 1 && kDil >= 1 && poolSize >= 1 && poolStride >= 1 }

    function OutRows(porows: int): int { porows * poolStride + poolSize - 1 }
    function KDilated(krows: int): int { krows + (kDil - 1) * (krows - 1) }

    /** Input rows (or columns) under porows pooled rows and krows kernel rows. */
    function InRows(porows: int, krows: int): int requires inDil > 0 {
      var irows := OutRows(porows) * stride + KDilated(krows) - 1;
      var undilated := irows / inDil + (if irows % inDil != 0 then 1 else 0);
      if downsample then undilated / 2 else undilated
    }
  }

  type GoodGeometry = g: Geometry | g.Ok() witness Geometry(1, 1, 1, false, false, false, 1, 1)

  function PerBank(x: int): int { CeilDiv(x, DIM) }

  function ARows(g: GoodGeometry, batches: int, porows: int, pocols: int, krows: int, kcols: int, kchs: int): int {
    if g.transIn3120 then PerBank(batches) * kchs * g.InRows(porows, krows) * g.InRows(pocols, kcols)
    else PerBank(kchs) * batches * g.InRows(porows, krows) * g.InRows(pocols, kcols)
  }

  function BRows(g: GoodGeometry, ochs: int, krows: int, kcols: int, kchs: int): int {
    if g.transW0132 then PerBank(kchs) * kcols * krows * ochs else PerBank(ochs) * kcols * krows * kchs
  }

  function CRows(g: GoodGeometry, batches: int, porows: int, pocols: int, ochs: int): int {
    PerBank(ochs) * batches * g.OutRows(porows) * g.OutRows(pocols)
  }

  /** Tile sizes in the order of the source's args[]: batches, porows, pocols, pochs, krows, kcols, kchs. */
  ghost predicate Positive(a: seq<int>) { |a| == 7 && forall i :: 0 <= i < 7 ==> a[i] >= 1 }

  ghost predicate Below(a: seq<int>, b: seq<int>) { |a| == 7 && |b| == 7 && forall i :: 0 <= i < 7 ==> a[i] <= b[i] }

  function TotalRows(acc: bool, g: GoodGeometry, a: seq<int>): int
    requires |a| == 7
  {
    if acc then CRows(g, a[0], a[1], a[2], a[3])
    else ARows(g, a[0], a[1], a[2], a[4], a[5], a[6]) + BRows(g, a[3], a[4], a[5], a[6])
  }

  // ---------- larger tiles need at least as many rows ----------

  lemma Mul4(a: int, b: int, c: int, d: int, a': int, b': int, c': int, d': int)
    requires 0 <= a <= a' && 0 <= b <= b' && 0 <= c <= c' && 0 <= d <= d'
    ensures 0 <= a * b * c * d <= a' * b' * c' * d'
  {
    Mul2(0, 0, a, b);
    Mul2(a, b, a', b');
    Mul2(0, 0, a * b, c);
    Mul2(a * b, c, a' * b', c');
    Mul2(0, 0, a * b * c, d);
    Mul2(a * b * c, d, a' * b' * c', d');
  }

  lemma OutRowsMono(g: GoodGeometry, x: int, y: int)
    requires 1 <= x <= y
    ensures 1 <= g.OutRows(x) <= g.OutRows(y)
  {}

  lemma PerBankMono(x: int, y: int)
    requires 1 <= x <= y
    ensures 1 <= PerBank(x) <= PerBank(y)
  {
    CeilDivMono(x, y, DIM);
    MulLtCancel(0, PerBank(x), DIM);
  }

  lemma DilatedMono(g: GoodGeometry, x: int, y: int)
    requires 1 <= x <= y
    ensures 1 <= g.KDilated(x) <= g.KDilated(y)
  {}

  lemma InRowsMono(g: GoodGeometry, x: int, k: int, x': int, k': int)
    requires 1 <= x <= x' && 1 <= k <= k'
    ensures 0 <= g.InRows(x, k) <= g.InRows(x', k')
  {
    OutRowsMono(g, x, x');
    DilatedMono(g, k, k');
    MulLe(g.OutRows(x), g.OutRows(x'), g.stride);
    MulLe(1, g.OutRows(x), g.stride);
    var i, i' := g.OutRows(x) * g.stride + g.KDilated(k) - 1, g.OutRows(x') * g.stride + g.KDilated(k') - 1;
    hide Geometry.OutRows, Geometry.KDilated;
    CeilDivMono(i, i', g.inDil);
    CeilDivMono(0, i, g.inDil);
    assert CeilDiv(0, g.inDil) == 0;
  }

  lemma ARowsMono(g: GoodGeometry, a: seq<int>, b: seq<int>)
    requires Positive(a) && Below(a, b)
    ensures 0 <= ARows(g, a[0], a[1], a[2], a[4], a[5], a[6]) <= ARows(g, b[0], b[1], b[2], b[4], b[5], b[6])
  {
    InRowsMono(g, a[1], a[4], b[1], b[4]);
    InRowsMono(g, a[2], a[5], b[2], b[5]);
    PerBankMono(a[0], b[0]);
    PerBankMono(a[6], b[6]);
    hide PerBank, Geometry.InRows;
    if g.transIn3120 {
      Mul4(PerBank(a[0]), a[6], g.InRows(a[1], a[4]), g.InRows(a[2], a[5]),
           PerBank(b[0]), b[6], g.InRows(b[1], b[4]), g.InRows(b[2], b[5]));
    } else {
      Mul4(PerBank(a[6]), a[0], g.InRows(a[1], a[4]), g.InRows(a[2], a[5]),
           PerBank(b[6]), b[0], g.InRows(b[1], b[4]), g.InRows(b[2], b[5]));
    }
  }

  lemma BRowsMono(g: GoodGeometry, a: seq<int>, b: seq<int>)
    requires Positive(a) && Below(a, b)
    ensures 0 <= BRows(g, a[3], a[4], a[5], a[6]) <= BRows(g, b[3], b[4], b[5], b[6])
  {
    PerBankMono(a[3], b[3]);
    PerBankMono(a[6], b[6]);
    hide PerBank;
    if g.transW0132 {
      Mul4(PerBank(a[6]), a[5], a[4], a[3], PerBank(b[6]), b[5], b[4], b[3]);
    } else {
      Mul4(PerBank(a[3]), a[5], a[4], a[6], PerBank(b[3]), b[5], b[4], b[6]);
    }
  }

  lemma CRowsMono(g: GoodGeometry, a: seq<int>, b: seq<int>)
    requires Positive(a) && Below(a, b)
    ensures 0 <= CRows(g, a[0], a[1], a[2], a[3]) <= CRows(g, b[0], b[1], b[2], b[3])
  {
    OutRowsMono(g, a[1], b[1]);
    OutRowsMono(g, a[2], b[2]);
    PerBankMono(a[3], b[3]);
    hide PerBank, Geometry.OutRows;
    Mul4(PerBank(a[3]), a[0], g.OutRows(a[1]), g.OutRows(a[2]), PerBank(b[3]), b[0], g.OutRows(b[1]), g.OutRows(b[2]));
  }

  /** Shrinking any tile size never needs more rows. */
  lemma TotalRowsMono(acc: bool, g: GoodGeometry, a: seq<int>, b: seq<int>)
    requires Positive(a) && Below(a, b)
    ensures 0 <= TotalRows(acc, g, a) <= TotalRows(acc, g, b)
  {
    hide ARows, BRows, CRows;
    ARowsMono(g, a, b);
    BRowsMono(g, a, b);
    CRowsMono(g, a, b);
  }
}
