/** Whether the slices of a tile find room: what the checks of tiled_conv_A_stride promise to its inner calls. */
module ConvRoom {
  import opened Arith
  import opened Config
  import opened ConvLayout
  import opened ConvPool
  import opened ConvRows
  import opened ConvSpec
  import opened ConvTile
  import opened Tensor
  import T = TiledConv

  function PoolingOf(q: Pooling): Pooling { if q.stride == 0 then T.NO_WINDOW else q }

  /** The `downsample` flag of tiled_conv_A_stride. */
  predicate Downsamples(v: Layer, q: Pooling) {
    v.stride == 2 && v.kDim == 1 && v.inDim % 2 == 0 && v.padding == 0 && q.stride == 0 && v.inDil == 1 && !v.transIn
  }

  function GeometryOf(v: Layer, q: Pooling, downsample: bool): Geometry {
    Geometry(v.stride, v.inDil, v.kDil, downsample, v.transW0132, v.transIn, PoolingOf(q).size, PoolingOf(q).stride)
  }

  predicate Sensible(v: Layer, q: Pooling) {
    v.stride >= 1 && v.kDil >= 1 && v.inDil >= 1 && q.stride >= 0 && q.size >= 1
  }

  // ---------- what an inner call brings into the scratchpad ----------

  /** irows (or icols) of a call, shifted when downsampling: `count` positions of the image, with the
      padding before and behind it. */
  function CallRows(v: Layer, count: int, before: int, behind: int, downsample: bool): int {
    var n := if v.inDil == 2 then Pixels(v, count - before - behind) + (before + 1) / 2 + (behind + 1) / 2 else count;
    if downsample then n / 2 else n
  }

  function Positions(v: Layer, t: Tile, n: int, k: int): int { n * v.stride + t.Dilated(v, k) - 1 }

  function CallSlab(v: Layer, t: Tile, downsample: bool): Slab {
    Slab(t.shape.nb, CallRows(v, Positions(v, t, t.shape.nr, t.krows), t.upad, t.dpad, downsample),
         CallRows(v, Positions(v, t, t.shape.nc, t.kcols), t.lpad, t.rpad, downsample), t.kchs, v.transIn)
  }

  function CallKernel(v: Layer, t: Tile): Kernel { Kernel(t.shape.no, t.krows, t.kcols, t.kchs, v.transW0132) }

  /** A call that works on a full tile, and meets no padding. */
  function Uncut(q: Pooling, f: T.Factors): Tile {
    Tile(f.Full(PoolingOf(q)), f.krows, f.kcols, f.kchs, 0, 0, 0, 0, 0, 0, Skip)
  }

  /** Input and weights of such a call can be kept apart in half of the scratchpad. */
  ghost predicate SpadRoom(v: Layer, q: Pooling, f: T.Factors) {
    Apart(CallSlab(v, Uncut(q, f), Downsamples(v, q)), CallKernel(v, Uncut(q, f)), SPAD_ROWS / 2)
  }

  /** Its results lie in half of the accumulator. */
  ghost predicate AccRoom(q: Pooling, f: T.Factors) {
    forall b, r, c, o :: f.Full(PoolingOf(q)).In(b, r, c, o) ==> f.Full(PoolingOf(q)).RowAt(b, r, c, o) < ACC_ROWS / 2
  }

  // ---------- the counts are the room an uncut call needs ----------

  lemma CountRows(v: Layer, q: Pooling, downsample: bool, p: int, k: int)
    requires Sensible(v, q) && v.inDil <= 2 && p >= 1 && k >= 1
    ensures GeometryOf(v, q, downsample).InRows(p, k)
         == CallRows(v, T.Span(PoolingOf(q), p) * v.stride + (k + (v.kDil - 1) * (k - 1)) - 1, 0, 0, downsample)
  {
    var g := GeometryOf(v, q, downsample);
    OutRowsMono(g, p, p);
    DilatedMono(g, k, k);
    assert g.OutRows(p) == T.Span(PoolingOf(q), p) && g.KDilated(k) == k + (v.kDil - 1) * (k - 1);
    hide T.Span, Geometry.OutRows, PoolingOf, Geometry.KDilated;
    MulLe(1, g.OutRows(p), v.stride);
    Quotient(g.OutRows(p) * v.stride + g.KDilated(k) - 1, v.inDil);
  }

  lemma Quotient(n: int, d: int)
    requires 1 <= d <= 2 && n >= 0
    ensures n / d + (if n % d != 0 then 1 else 0) == if d == 2 then CDiv(n + 1, 2) else n
  {}

  lemma UncutRows(v: Layer, q: Pooling, f: T.Factors, downsample: bool)
    requires Sensible(v, q) && v.inDil <= 2 && f.Ok()
    ensures var g, x := GeometryOf(v, q, downsample), CallSlab(v, Uncut(q, f), downsample);
      x == Slab(f.batches, g.InRows(f.porows, f.krows), g.InRows(f.pocols, f.kcols), f.kchs, v.transIn)
  {
    CountRows(v, q, downsample, f.porows, f.krows);
    CountRows(v, q, downsample, f.pocols, f.kcols);
    hide Geometry.InRows, CallRows, T.Span, PoolingOf;
  }

  /** A_rows + B_rows is the room of an uncut call. */
  lemma UncutCount(v: Layer, q: Pooling, f: T.Factors, downsample: bool)
    requires Sensible(v, q) && v.inDil <= 2 && f.Ok()
    ensures CallSlab(v, Uncut(q, f), downsample).Rows() + CallKernel(v, Uncut(q, f)).Rows()
         == TotalRows(false, GeometryOf(v, q, downsample), Args(f))
  {
    UncutRows(v, q, f, downsample);
    CountsAre(GeometryOf(v, q, downsample), f.batches, f.porows, f.pocols, f.pochs, f.krows, f.kcols, f.kchs);
    hide Geometry.InRows, CallSlab, ARows, BRows, Slab.Rows, Kernel.Rows, PoolingOf;
  }

  function Args(f: T.Factors): (a: seq<int>)
    ensures |a| == 7
  {
    [f.batches, f.porows, f.pocols, f.pochs, f.krows, f.kcols, f.kchs]
  }

  lemma SlabOk(v: Layer, q: Pooling, f: T.Factors)
    requires Sensible(v, q) && v.inDil <= 2 && f.Ok()
    ensures CallSlab(v, Uncut(q, f), Downsamples(v, q)).Ok() && CallKernel(v, Uncut(q, f)).Ok()
  {
    UncutRows(v, q, f, Downsamples(v, q));
    RowsPositive(v, q, f.porows, f.krows);
    RowsPositive(v, q, f.pocols, f.kcols);
    hide Geometry.InRows, CallSlab, PoolingOf, Downsamples;
  }

  lemma RowsPositive(v: Layer, q: Pooling, p: int, k: int)
    requires Sensible(v, q) && v.inDil <= 2 && p >= 1 && k >= 1
    ensures GeometryOf(v, q, Downsamples(v, q)).InRows(p, k) >= 1
  {
    var g := GeometryOf(v, q, Downsamples(v, q));
    OutRowsMono(g, p, p);
    DilatedMono(g, k, k);
    MulLe(1, g.OutRows(p), v.stride);
    assert Downsamples(v, q) ==> v.stride == 2 && v.inDil == 1;
    hide Geometry.OutRows, Geometry.KDilated, PoolingOf, Downsamples;
    AtLeastStride(g, g.OutRows(p) * g.stride + g.KDilated(k) - 1);
  }

  lemma AtLeastStride(g: GoodGeometry, n: int)
    requires n >= g.stride && g.inDil <= 2 && (g.downsample ==> g.stride == 2 && g.inDil == 1)
    ensures var undilated := n / g.inDil + (if n % g.inDil != 0 then 1 else 0);
      (if g.downsample then undilated / 2 else undilated) >= 1
  {
    Quotient(n, g.inDil);
  }

  /** The scratchpad check is right: an uncut call has room exactly if the count is within the half. */
  lemma SpadRoomIff(v: Layer, q: Pooling, f: T.Factors)
    requires Sensible(v, q) && v.inDil <= 2 && f.Ok()
    ensures SpadRoom(v, q, f) <==> TotalRows(false, GeometryOf(v, q, Downsamples(v, q)), Args(f)) <= SPAD_ROWS / 2
  {
    SlabOk(v, q, f);
    UncutCount(v, q, f, Downsamples(v, q));
    ApartIff(CallSlab(v, Uncut(q, f), Downsamples(v, q)), CallKernel(v, Uncut(q, f)), SPAD_ROWS / 2);
    hide *;
  }

  /** So is the accumulator check. */
  lemma AccRoomIff(v: Layer, q: Pooling, f: T.Factors)
    requires Sensible(v, q) && f.Ok()
    ensures AccRoom(q, f) <==> TotalRows(true, GeometryOf(v, q, Downsamples(v, q)), Args(f)) <= ACC_ROWS / 2
  {
    var t := f.Full(PoolingOf(q));
    assert t.Rows() == TotalRows(true, GeometryOf(v, q, Downsamples(v, q)), Args(f));
    assert t.Ok();
    CeilNatural(t.no);
    hide TotalRows, PoolingOf, T.Factors.Full, PerBank;
    if AccRoom(q, f) {
      Product4(CeilDiv(t.no, DIM), t.nb, t.nr, t.nc);
      var b, r, c, o := ShapeOnto(t, t.Rows() - 1);
    } else {
      var b, r, c, o :| t.In(b, r, c, o) && !(t.RowAt(b, r, c, o) < ACC_ROWS / 2);
      RowDigits(t, b, r, c, o);
    }
  }

  lemma ShapeOnto(t: GoodShape, n: int) returns (b: int, r: int, c: int, o: int)
    requires 0 <= n < t.Rows()
    ensures t.In(b, r, c, o) && t.RowAt(b, r, c, o) == n
  {
    CeilNatural(t.no);
    assert CeilDiv(t.no, DIM) == PerBank(t.no);
    hide PerBank, CeilDiv, Ix4;
    var k;
    k, b, r, c := Ix4Onto(CeilDiv(t.no, DIM), t.nb, t.nr, t.nc, n);
    o := k * DIM;
    BlockFirst(k, t.no);
  }

  // ---------- the calls of an accepted tiling ----------

  /** One inner call of tiled_conv_A_stride. */
  function Call(j: T.GoodJob, y: Origin, krow: int, kcol: int, kch: int): Tile {
    T.CallTile(j, T.SpotAt(j, y), krow, kcol, kch)
  }

  ghost predicate IsCall(j: T.GoodJob, y: Origin, krow: int, kcol: int, kch: int) {
    T.InLayer(j, y) && T.InKernel(j.p.v, krow, kcol, kch)
  }

  /** The sizes and the padding of a call. */
  lemma CallFields(j: T.GoodJob, x: T.Spot, krow: int, kcol: int, kch: int)
    ensures var v, t := j.p.v, T.CallTile(j, x, krow, kcol, kch);
      var r, c := T.FirstRow(v, x, krow), T.FirstCol(v, x, kcol);
      && t.shape == x.t && t.kchs == Min(v.inCh - kch, j.f.kchs)
      && t.krows == Min(v.kDim - krow, j.f.krows) && t.kcols == Min(v.kDim - kcol, j.f.kcols)
      && t.upad == T.PadBefore(v, r) && t.dpad == T.PadBehind(v, r + Positions(v, t, x.t.nr, t.krows))
      && t.lpad == T.PadBefore(v, c) && t.rpad == T.PadBehind(v, c + Positions(v, t, x.t.nc, t.kcols))
  {
    hide ConvDirect.InputIndex, ConvDirect.WeightIndex, T.PadBefore, T.PadBehind, Undilate, Conv.Ok;
  }

  lemma CallShape(j: T.GoodJob, y: Origin, krow: int, kcol: int, kch: int)
    requires IsCall(j, y, krow, kcol, kch)
    ensures var t, f := Call(j, y, krow, kcol, kch), j.f;
      && 1 <= t.shape.nb <= f.batches && 1 <= t.shape.no <= f.pochs
      && 1 <= t.shape.nr <= T.Span(j.q, f.porows) && 1 <= t.shape.nc <= T.Span(j.q, f.pocols)
      && 1 <= t.krows <= f.krows && 1 <= t.kcols <= f.kcols && 1 <= t.kchs <= f.kchs
  {
    var a := T.PooledAt(j, y);
    T.StripFacts(j.q, j.p.v.outDim, y.r, a.nr);
    T.StripFacts(j.q, j.p.v.outDim, y.c, a.nc);
    MulLe(a.nr, j.f.porows, j.q.stride);
    MulLe(a.nc, j.f.pocols, j.q.stride);
    hide ConvDirect.InputIndex, ConvDirect.WeightIndex, T.PadBefore, T.PadBehind, Undilate, Conv.Ok, T.StripOf, PoolDim,
         TileShape.Rows;
  }

  lemma PositionsMono(v: Layer, t: Tile, n: int, k: int, n': int, k': int)
    requires v.stride >= 1 && v.kDil >= 1 && 1 <= n <= n' && 1 <= k <= k'
    ensures v.stride <= Positions(v, t, n, k) <= Positions(v, t, n', k')
  {
    MulLe(1, n, v.stride);
    MulLe(n, n', v.stride);
    MulLe(0, k - 1, v.kDil - 1);
    MulLe(k - 1, k' - 1, v.kDil - 1);
    Commute(v.kDil - 1, k - 1);
    Commute(v.kDil - 1, k' - 1);
  }

  lemma SlabWithin(v: Layer, q: Pooling, f: T.Factors, t: Tile)
    requires Sensible(v, q) && v.inDil == 1 && f.Ok()
    requires 1 <= t.shape.nb <= f.batches && 1 <= t.kchs <= f.kchs
    requires 1 <= t.shape.nr <= T.Span(PoolingOf(q), f.porows) && 1 <= t.shape.nc <= T.Span(PoolingOf(q), f.pocols)
    requires 1 <= t.krows <= f.krows && 1 <= t.kcols <= f.kcols
    ensures var x, u, ds := CallSlab(v, t, Downsamples(v, q)), CallSlab(v, Uncut(q, f), Downsamples(v, q)), 0;
      && x.Ok() && 1 <= x.batches <= u.batches && x.rows <= u.rows && x.cols <= u.cols && x.chs <= u.chs
      && x.transposed == u.transposed
  {
    var u := Uncut(q, f);
    PositionsMono(v, t, t.shape.nr, t.krows, u.shape.nr, u.krows);
    PositionsMono(v, t, t.shape.nc, t.kcols, u.shape.nc, u.kcols);
    assert Downsamples(v, q) ==> v.stride == 2;
    assert forall n, k :: Positions(v, t, n, k) == Positions(v, u, n, k);
    hide Positions, Downsamples, T.Span, PoolingOf;
  }

  /** Undilated, every call of an accepted tiling has room, however it is cut and padded. */
  lemma CallsFit(p: GoodConv, q: Pooling, f: T.Factors, y: Origin, krow: int, kcol: int, kch: int)
    requires Sensible(p.v, q) && p.v.inDil == 1 && T.Job(p, PoolingOf(q), q.stride == 0, f).Ok() && SpadRoom(p.v, q, f)
    requires IsCall(T.Job(p, PoolingOf(q), q.stride == 0, f), y, krow, kcol, kch)
    ensures var t := Call(T.Job(p, PoolingOf(q), q.stride == 0, f), y, krow, kcol, kch);
      Apart(CallSlab(p.v, t, Downsamples(p.v, q)), CallKernel(p.v, t), SPAD_ROWS / 2)
  {
    var j := T.Job(p, PoolingOf(q), q.stride == 0, f);
    assert f.Ok();
    var t, ds := Call(j, y, krow, kcol, kch), Downsamples(p.v, q);
    hide Conv.Ok, T.Job.Ok, Downsamples, PoolingOf, Slab.Rows, Kernel.Rows, Slab.RowAt, Kernel.RowAt, T.Span, Call,
         Apart, CallSlab, CallRows, T.PooledAt, T.InLayer, T.InKernel, TileShape.Rows;
    CallShape(j, y, krow, kcol, kch);
    SlabWithin(p.v, q, f, t);
    SlabOk(p.v, q, f);
    SlabMono(CallSlab(p.v, t, ds), CallSlab(p.v, Uncut(q, f), ds));
    KernelMono(CallKernel(p.v, t), CallKernel(p.v, Uncut(q, f)));
    ApartIff(CallSlab(p.v, t, ds), CallKernel(p.v, t), SPAD_ROWS / 2);
    ApartIff(CallSlab(p.v, Uncut(q, f), ds), CallKernel(p.v, Uncut(q, f)), SPAD_ROWS / 2);
  }

  /** Every position a product reads has its row in the slab. */
  lemma ReadsInside(v: Layer, q: Pooling, t: Tile, n: int, krows: int, up: int, down: int, r: int, kr: int)
    requires Sensible(v, q) && (v.inDil == 1 || v.inDil == 2) && up >= 0 && down >= 0
    requires 0 <= r < n && 0 <= kr < krows && (Downsamples(v, q) ==> krows == 1)
    requires v.inDil == 2 ==> (r * v.stride + kr * v.kDil - up) % 2 == 0
    ensures var y := r * v.stride + kr * v.kDil;
      var rows := CallRows(v, Positions(v, t, n, krows), up, down, Downsamples(v, q));
      0 <= (if v.inDil == 2 then (y + 1) / 2 else if Downsamples(v, q) then y / 2 else y) < rows
  {
    T.UnderTile(n, v.stride, krows, v.kDil, r, kr);
    if v.inDil == 2 {
      T.ReadPosition(v, Positions(v, t, n, krows), up, down, r * v.stride + kr * v.kDil);
    }
  }

  // ---------- dilated input ----------

  /** With dilated input a call of `count` positions from `start` on needs at least the rows counted for
      them, and no more exactly if the first and the last of them lie on pixels' places and the last not
      before the image. */
  lemma DilatedRows(v: Layer, start: int, count: int)
    requires v.inDil == 2 && v.inDim >= 0 && count >= 1
    ensures var rows := CallRows(v, count, T.PadBefore(v, start), T.PadBehind(v, start + count), false);
      && CeilDiv(count, 2) <= rows <= CeilDiv(count, 2) + 2
      && (rows == CeilDiv(count, 2) <==> start % 2 == 0 && (start + count - 1) % 2 == 0 && start + count > 0)
  {
    var up, down := T.PadBefore(v, start), T.PadBehind(v, start + count);
    PadParity(v, start, start + count);
    T.PixelsOf(v, count - up - down);
    assert CallRows(v, count, up, down, false) == CDiv(count - up - down + 1, 2) + (up + 1) / 2 + (down + 1) / 2;
    hide *;
    HalvesOf(start, count, up, down);
    HalfUp(count);
  }

  lemma PadParity(v: Layer, start: int, end: int)
    requires v.inDil == 2
    ensures var up, down := T.PadBefore(v, start), T.PadBehind(v, end);
      && up >= 0 && down >= 0 && up % 2 == start % 2 && (start < 0 ==> up == -start)
      && (if end > 0 then down % 2 == (end + 1) % 2 else v.inDim >= 0 ==> down == 1)
  {
    BeforeParity(v, start);
    BehindParity(v, end);
    hide *;
  }

  lemma BeforeParity(v: Layer, start: int)
    requires v.inDil == 2
    ensures var up := T.PadBefore(v, start); up >= 0 && up % 2 == start % 2 && (start < 0 ==> up == -start)
  {
    T.RemTwo(start);
    Parity(start);
    hide CRem;
  }

  lemma BehindParity(v: Layer, end: int)
    requires v.inDil == 2
    ensures var down := T.PadBehind(v, end);
      down >= 0 && (if end > 0 then down % 2 == (end + 1) % 2 else v.inDim >= 0 ==> down == 1)
  {
    T.RemTwo(end);
    BehindIs(v, end);
    hide CRem, T.PadBehind, T.DilatedDim;
    Parity(end);
    var n := v.inDim;
    if end > 2 * n - 1 { OddDifference(end, n); }
  }

  lemma BehindIs(v: Layer, end: int)
    requires v.inDil == 2
    ensures T.PadBehind(v, end) ==
      if end > 2 * v.inDim - 1 then end - (2 * v.inDim - 1) else if CRem(end, 2) != 1 then 1 else 0
  {}

  lemma OddDifference(end: int, n: int)
    ensures (end - (2 * n - 1)) % 2 == (end + 1) % 2
  {}

  lemma Parity(x: int)
    ensures (-x) % 2 == x % 2 && (x + 1) % 2 == 1 - x % 2 && (x + 1) / 2 == x / 2 + x % 2 && x == 2 * (x / 2) + x % 2
  {}

  lemma HalfUp(n: int)
    ensures CeilDiv(n, 2) == (n + 1) / 2
  {}

  lemma CHalf(k: int)
    ensures CDiv(2 * k, 2) == k
  {
    CDivExact(2 * k, 2);
  }

  /** The three parts rounded up, against the whole rounded up. */
  lemma HalvesOf(start: int, count: int, up: int, down: int)
    requires count >= 1 && up >= 0 && down >= 0 && up % 2 == start % 2 && (start < 0 ==> up == -start)
    requires if start + count > 0 then down % 2 == (start + count + 1) % 2 else down == 1
    ensures var rows := CDiv(count - up - down + 1, 2) + (up + 1) / 2 + (down + 1) / 2;
      && (count + 1) / 2 <= rows <= (count + 1) / 2 + 2
      && (rows == (count + 1) / 2 <==> start % 2 == 0 && (start + count - 1) % 2 == 0 && start + count > 0)
  {
    Parity(start);
    Parity(count);
    Parity(up);
    Parity(down);
    var end := start + count;
    Parity(end);
    Parity(end - 1);
    if end > 0 {
      PartsInside(start, count, up, down);
    } else {
      PartsBefore(start, count);
    }
  }

  lemma PartsInside(start: int, count: int, up: int, down: int)
    requires up % 2 == start % 2 && down % 2 == (start + count + 1) % 2
    ensures CDiv(count - up - down + 1, 2) + (up + 1) / 2 + (down + 1) / 2
         == (count + 1) / 2 + (if start % 2 == 0 && (start + count) % 2 == 1 then 0 else 1)
  {
    var s, c, a, b := start / 2, count / 2, up / 2, down / 2;
    var i, l, k := start % 2, count % 2, down % 2;
    assert start == 2 * s + i && count == 2 * c + l && up == 2 * a + i && down == 2 * b + k;
    assert (start + count) % 2 == (i + l) % 2;
    var m := if l == 1 && i == 0 then c - a - b + 1 else c - a - b;
    assert count - up - down + 1 == 2 * m;
    CHalf(m);
    hide CDiv;
  }

  lemma PartsBefore(start: int, count: int)
    requires count >= 1 && start + count <= 0
    ensures var rows := CDiv(start + count, 2) + (1 - start) / 2 + 1;
      (count + 1) / 2 < rows <= (count + 1) / 2 + 2
  {
    var n := -(start + count);
    assert CDiv(start + count, 2) == -(n / 2);
  }
}
