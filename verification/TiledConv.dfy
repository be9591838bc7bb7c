/** tiled_conv_A_stride: seven nested loops that cut a convolution, its pooling included, into slices,
    against conv_cpu. */
module TiledConv {
  import opened Arith
  import opened Config
  import opened ConvRows
  import opened ConvDirect
  import opened ConvPool
  import opened ConvSpec
  import opened ConvTile
  import opened Sums3
  import opened Tensor
  import LM = LocalMemory
  import S = Sums

  /** Rows (or columns) of the convolution under n pooled ones. */
  function Span(q: Pooling, n: int): int { n * q.stride + q.size - 1 }

  datatype Factors = Factors(batches: int, porows: int, pocols: int, pochs: int, krows: int, kcols: int, kchs: int) {
    predicate Ok() { batches > 0 && porows > 0 && pocols > 0 && pochs > 0 && krows > 0 && kcols > 0 && kchs > 0 }

    /** The convolution's elements under a full tile. */
    function Full(q: Pooling): TileShape { TileShape(batches, Span(q, porows), Span(q, pocols), pochs) }
  }

  /** Without pooling the loops run with a 1 x 1 window. */
  const NO_WINDOW: Pooling := Pooling(1, 1, 0)

  /** A layer, its pooling window, and the tile sizes it is run with. */
  datatype Job = Job(p: Conv, q: Pooling, noPool: bool, f: Factors) {
    /** The checks of tiled_conv_A_stride, and a pooling window that does not fit into its padding. */
    ghost predicate Ok() {
      && p.Ok() && (p.v.inDil == 1 || (p.v.inDil == 2 && p.v.stride == 1))
      && p.v.kDil >= 1 && p.v.stride >= 1 && p.v.kDim >= 1 && p.v.inCh >= 1
      && q.size >= 1 && q.stride >= 1 && 0 <= q.padding < q.size
      && (if noPool then q == NO_WINDOW else p.v.outDim >= 1 && !p.v.transOut)
      && f.Ok() && f.Full(q).Rows() <= ACC_ROWS / 2
    }

    /** Side of the output image. */
    function Dim(): int
      requires q.stride > 0
    {
      PoolDim(p.v.outDim, q)
    }

    /** What the output is to hold. */
    function Output(): Target
      requires Ok()
    {
      FusedOutput(p, q)
    }
  }

  type GoodJob = j: Job | j.Ok() ghost witness WitnessJob()

  ghost function WitnessJob(): Job
    ensures WitnessJob().Ok()
  {
    var j := Job(Conv(Layer(0, 0, 1, 0, 0, 1, 1, 1, 0, 1, false, false, false, false, false), [], [], None, 0, x => x,
                      0), NO_WINDOW, true,
                 Factors(1, 1, 1, 1, 1, 1, 1));
    CeilDivUnique(1, DIM, 1);
    j
  }

  function Positive0(x: int): int { if x < 0 then 0 else x }

  predicate InLayer(j: GoodJob, y: Origin) {
    0 <= y.b < j.p.v.batch && 0 <= y.r < j.Dim() && 0 <= y.c < j.Dim() && 0 <= y.o < j.p.v.outCh
  }

  /** The tile at y in the output. */
  function PooledAt(j: GoodJob, y: Origin): TileShape {
    var v, f := j.p.v, j.f;
    TileShape(Min(v.batch - y.b, f.batches), Min(j.Dim() - y.r, f.porows),
              Min(j.Dim() - y.c, f.pocols), Min(v.outCh - y.o, f.pochs))
  }

  /** The convolution's rows (or columns) under n pooled ones from pr on, of an image dim wide: the
      first one, their number, and how many lie before and behind the image. */
  datatype Strip = Strip(first: int, count: int, up: int, down: int)

  function StripOf(q: Pooling, dim: int, pr: int, n: int): Strip {
    var orow, orows_ := pr * q.stride - q.padding, n * q.stride + q.size - 1;
    var up, down := Positive0(-orow), Positive0(orow + orows_ - dim);
    Strip(Positive0(orow), orows_ - up - down, up, down)
  }

  function RowsAt(j: GoodJob, y: Origin): Strip { StripOf(j.q, j.p.v.outDim, y.r, PooledAt(j, y).nr) }
  function ColsAt(j: GoodJob, y: Origin): Strip { StripOf(j.q, j.p.v.outDim, y.c, PooledAt(j, y).nc) }

  /** A tile of the convolution's own output. */
  datatype Spot = Spot(b: int, r: int, c: int, o: int, t: TileShape) {
    predicate Inside(v: Layer) {
      0 <= b && b + t.nb <= v.batch && 0 <= r && r + t.nr <= v.outDim && 0 <= c && c + t.nc <= v.outDim
      && 0 <= o && o + t.no <= v.outCh && t.Ok()
    }
  }

  function SpotAt(j: GoodJob, y: Origin): Spot {
    var rows, cols, pooled := RowsAt(j, y), ColsAt(j, y), PooledAt(j, y);
    Spot(y.b, rows.first, cols.first, y.o, TileShape(pooled.nb, rows.count, cols.count, pooled.no))
  }

  function LeavingAt(j: GoodJob, y: Origin): Leaving {
    Leaving(j.q, j.noPool, PooledAt(j, y), RowsAt(j, y).up, ColsAt(j, y).up, j.Dim())
  }

  /** dilated_in_dim */
  function DilatedDim(v: Layer): int { v.inDim + (v.inDil - 1) * (v.inDim - 1) }

  /** The padding before and behind `count` positions of the dilated image from `start` on. With a
      dilated image it is made odd or even so that the pixels keep their places. */
  function PadBefore(v: Layer, start: int): int {
    var pad := Positive0(-start);
    pad + (if v.inDil == 2 && pad == 0 && CRem(start, 2) != 0 then 1 else 0)
  }

  function PadBehind(v: Layer, end: int): int {
    var pad := Positive0(end - DilatedDim(v));
    pad + (if v.inDil == 2 && pad == 0 && CRem(end, 2) != 1 then 1 else 0)
  }

  /** The arguments of the inner call at kernel position (krow, kcol) and channel kch. */
  function CallTile(j: Job, x: Spot, krow: int, kcol: int, kch: int): Tile {
    var v, f, shape := j.p.v, j.f, x.t;
    var krows_, kcols_, kchs_ := Min(v.kDim - krow, f.krows), Min(v.kDim - kcol, f.kcols),
      Min(v.inCh - kch, f.kchs);
    var irow, icol := x.r * v.stride + krow * v.kDil - v.padding, x.c * v.stride + kcol * v.kDil - v.padding;
    var irows_ := shape.nr * v.stride + (krows_ + (v.kDil - 1) * (krows_ - 1)) - 1;
    var icols_ := shape.nc * v.stride + (kcols_ + (v.kDil - 1) * (kcols_ - 1)) - 1;
    var lpad, rpad := PadBefore(v, icol), PadBehind(v, icol + icols_);
    var upad, dpad := PadBefore(v, irow), PadBehind(v, irow + irows_);
    var krow_ := if v.wrot180 then v.kDim - krow - krows_ else krow;
    var kcol_ := if v.wrot180 then v.kDim - kcol - kcols_ else kcol;
    Tile(shape, krows_, kcols_, kchs_, lpad, rpad, upad, dpad,
         InputIndex(v, x.b, Undilate(v, irow + upad), Undilate(v, icol + lpad), kch),
         WeightIndex(v, krow_, kcol_, kch, x.o),
         if krow > 0 || kcol > 0 || kch > 0 then Skip else if j.p.bias.None? then Zeros else From(x.o))
  }

  /** Only the last call of a tile is given an output. */
  predicate IsLast(j: Job, krow: int, kcol: int, kch: int) {
    !(krow + j.f.krows < j.p.v.kDim || kcol + j.f.kcols < j.p.v.kDim || kch + j.f.kchs < j.p.v.inCh)
  }

  function OutPointer(j: GoodJob, y: Origin): int { OutputIndex(j.p.v.(outDim := j.Dim()), y.b, y.r, y.c, y.o) }

  // ---------- one slice is a piece of the layer's triple sum ----------

  /** Padding, halved for a dilated image, hides exactly the positions that carry no pixel, and the
      others keep their places. */
  lemma PaddingExact(v: Layer, start: int, count: int, y: int)
    requires v.inDil == 1 || v.inDil == 2
    requires v.inDim >= 0 && 0 <= y < count
    ensures var before, behind := PadBefore(v, start), PadBehind(v, start + count);
      && (Hit(v, y - before, Pixels(v, count - before - behind)) <==> v.OnGrid(start + y))
      && (v.OnGrid(start + y) ==>
            Undilate(v, start + before) + Undilate(v, y - before) == (start + y) / v.inDil)
  {
    if v.inDil == 1 {
      assert (start + y) % 1 == 0 && (start + y) / 1 == start + y;
    } else {
      DilatedPadding(v, start, count, y);
    }
  }

  lemma DilatedPadding(v: Layer, start: int, count: int, y: int)
    requires v.inDil == 2 && v.inDim >= 0 && 0 <= y < count
    ensures var before, behind := PadBefore(v, start), PadBehind(v, start + count);
      && (Hit(v, y - before, Pixels(v, count - before - behind)) <==> v.OnGrid(start + y))
      && (v.OnGrid(start + y) ==>
            Undilate(v, start + before) + Undilate(v, y - before) == (start + y) / v.inDil)
  {
    var e, y' := start + PadBefore(v, start), start + y;
    PadBeforeIs(v, start, y');
    hide PadBefore, PadBehind, Pixels;
    EvenParts(y', e);
    if y' % 2 == 0 && y' >= e {
      PadBehindIs(v, start + count, y');
      HalfBelow(y' - e, start + count - PadBehind(v, start + count) - e);
      PixelsOf(v, start + count - PadBehind(v, start + count) - e);
    }
  }

  lemma PixelsOf(v: Layer, n: int)
    requires v.inDil == 2
    ensures Pixels(v, n) == CDiv(n + 1, 2)
  {}

  /** Padding in front ends at an even place, before every pixel. */
  lemma PadBeforeIs(v: Layer, start: int, y: int)
    requires v.inDil == 2 && start <= y
    ensures var e := start + PadBefore(v, start); e % 2 == 0 && e >= 0 && (y % 2 == 0 ==> (y >= e <==> y >= 0))
  {
    RemTwo(start);
  }

  /** Padding behind begins after every pixel. */
  lemma PadBehindIs(v: Layer, end: int, y: int)
    requires v.inDil == 2 && y % 2 == 0 && 0 <= y < end && v.inDim >= 0
    ensures y < end - PadBehind(v, end) <==> y / 2 < v.inDim
  {
    RemTwo(end);
  }

  lemma EvenParts(y: int, e: int)
    requires e % 2 == 0
    ensures (y - e) % 2 == 0 <==> y % 2 == 0
    ensures y % 2 == 0 ==> (y - e) / 2 == y / 2 - e / 2
  {}

  lemma RemTwo(x: int)
    ensures CRem(x, 2) != 0 <==> x % 2 != 0
    ensures CRem(x, 2) == 1 <==> x % 2 != 0 && x > 0
  {}

  lemma HalfBelow(d: int, n: int)
    requires d % 2 == 0 && d >= 0
    ensures d / 2 < CDiv(n + 1, 2) <==> d < n
  {}

  /** The accelerator reads position y of a dilated slice from row (y + 1) / 2 of what was moved in, of
      which the padding takes the first (before + 1) / 2: that is pixel (y - before) / 2, and it was
      moved in. */
  lemma ReadPosition(v: Layer, count: int, before: int, behind: int, y: int)
    requires v.inDil == 2 && 0 <= y < count && before >= 0 && behind >= 0 && (y - before) % 2 == 0
    ensures (y + 1) / 2 - (before + 1) / 2 == Undilate(v, y - before)
    ensures 0 <= (y + 1) / 2 < (before + 1) / 2 + Pixels(v, count - before - behind) + (behind + 1) / 2
  {
    var n := count - before - behind;
    assert Pixels(v, n) >= (n + 1) / 2;
  }

  lemma UnderTile(n: int, stride: int, krows: int, kDil: int, r: int, kr: int)
    requires stride >= 1 && kDil >= 1 && 0 <= r < n && 0 <= kr < krows
    ensures 0 <= r * stride + kr * kDil < n * stride + (krows + (kDil - 1) * (krows - 1)) - 1
  {
    MulLe(0, r, stride);
    MulLe(r + 1, n, stride);
    MulLe(0, kr, kDil);
    MulLe(kr, krows - 1, kDil);
    assert krows + (kDil - 1) * (krows - 1) == (krows - 1) * kDil + 1;
    assert (r + 1) * stride == r * stride + stride;
  }

  lemma CoordSplit(v: Layer, x0: int, k0: int, x: int, k: int)
    ensures v.Coord(x0 + x, k0 + k) == x0 * v.stride + k0 * v.kDil - v.padding + (x * v.stride + k * v.kDil)
  {}

  lemma InIxLinear(v: Layer, b: int, r: int, c: int, ch: int, b': int, r': int, c': int, ch': int)
    ensures v.InIx(b + b', r + r', c + c', ch + ch') == v.InIx(b, r, c, ch) + v.InIx(b', r', c', ch')
  {}

  lemma WIxLinear(v: Layer, kr: int, kc: int, ch: int, o: int, kr': int, kc': int, ch': int, o': int)
    ensures v.WIx(kr + kr', kc + kc', ch + ch', o + o') == v.WIx(kr, kc, ch, o) + v.WIx(kr', kc', ch', o')
  {}

  /** A position of the kernel and channel loops. */
  predicate InKernel(v: Layer, krow: int, kcol: int, kch: int) {
    0 <= krow < v.kDim && 0 <= kcol < v.kDim && 0 <= kch < v.inCh
  }

  /** Along one axis: the position under output x and tap k of a slice that starts at x0 and k0. */
  lemma RowGeometry(v: Layer, x0: int, k0: int, n: int, krows: int, x: int, k: int, pad: int, unpadded: int)
    requires v.stride >= 1 && v.kDil >= 1 && 0 <= x < n && 0 <= k < krows && v.inDim >= 0
    requires v.inDil == 1 || v.inDil == 2
    requires var start, count := x0 * v.stride + k0 * v.kDil - v.padding,
             n * v.stride + (krows + (v.kDil - 1) * (krows - 1)) - 1;
      pad == PadBefore(v, start) && unpadded == Pixels(v, count - pad - PadBehind(v, start + count))
    ensures var y, start := x * v.stride + k * v.kDil, x0 * v.stride + k0 * v.kDil - v.padding;
      && (Hit(v, y - pad, unpadded) <==> v.OnGrid(v.Coord(x0 + x, k0 + k)))
      && (v.OnGrid(v.Coord(x0 + x, k0 + k)) ==>
            Undilate(v, start + pad) + Undilate(v, y - pad) == v.Coord(x0 + x, k0 + k) / v.inDil)
  {
    var start, count := x0 * v.stride + k0 * v.kDil - v.padding,
      n * v.stride + (krows + (v.kDil - 1) * (krows - 1)) - 1;
    var y := x * v.stride + k * v.kDil;
    hide *;
    UnderTile(n, v.stride, krows, v.kDil, x, k);
    CoordSplit(v, x0, k0, x, k);
    PaddingExact(v, start, count, y);
  }

  lemma RotLinear(v: Layer, k0: int, n: int, k: int)
    ensures var base := if v.wrot180 then v.kDim - k0 - n else k0;
      base + (if v.wrot180 then n - k - 1 else k) == v.Rot(k0 + k)
  {}

  lemma SliceWeight(j: GoodJob, x: Spot, krow: int, kcol: int, kch: int, kr: int, kc: int, ch: int, o: int)
    ensures var t := CallTile(j, x, krow, kcol, kch);
      At(j.p.weights, t.weights + j.p.v.WIx(t.Rot(j.p.v, kr, t.krows), t.Rot(j.p.v, kc, t.kcols), ch, o))
        == j.p.Weight(krow + kr, kcol + kc, kch + ch, x.o + o)
  {
    var v, t := j.p.v, CallTile(j, x, krow, kcol, kch);
    var krow_ := if v.wrot180 then v.kDim - krow - t.krows else krow;
    var kcol_ := if v.wrot180 then v.kDim - kcol - t.kcols else kcol;
    assert t.weights == WeightIndex(v, krow_, kcol_, kch, x.o);
    IndexIs(j.p, 0, krow_, kcol_, kch, x.o);
    hide CallTile, Layer.WIx, WeightIndex, Job.Ok, InputIndex, OutputIndex;
    RotLinear(v, krow, t.krows, kr);
    RotLinear(v, kcol, t.kcols, kc);
    WIxLinear(v, krow_, kcol_, kch, x.o, t.Rot(v, kr, t.krows), t.Rot(v, kc, t.kcols), ch, o);
  }

  /** Position `pos` of n is one of the pixels the slice reads exactly if image coordinate y carries one,
      and then it is that one, counted from `base`. */
  predicate Aligned(v: Layer, pos: int, n: int, base: int, y: int)
    requires v.inDil > 0
  {
    (Hit(v, pos, n) <==> v.OnGrid(y)) && (v.OnGrid(y) ==> base + Undilate(v, pos) == y / v.inDil)
  }

  function FirstRow(v: Layer, x: Spot, krow: int): int { x.r * v.stride + krow * v.kDil - v.padding }
  function FirstCol(v: Layer, x: Spot, kcol: int): int { x.c * v.stride + kcol * v.kDil - v.padding }

  lemma CallPads(j: GoodJob, x: Spot, krow: int, kcol: int, kch: int)
    ensures var v, t := j.p.v, CallTile(j, x, krow, kcol, kch);
      var irows_ := x.t.nr * v.stride + (t.krows + (v.kDil - 1) * (t.krows - 1)) - 1;
      var icols_ := x.t.nc * v.stride + (t.kcols + (v.kDil - 1) * (t.kcols - 1)) - 1;
      && t.shape == x.t && t.upad == PadBefore(v, FirstRow(v, x, krow)) && t.lpad == PadBefore(v, FirstCol(v, x, kcol))
      && t.IrowsUnpadded(v) == Pixels(v, irows_ - t.upad - PadBehind(v, FirstRow(v, x, krow) + irows_))
      && t.IcolsUnpadded(v) == Pixels(v, icols_ - t.lpad - PadBehind(v, FirstCol(v, x, kcol) + icols_))
  {
    hide InputIndex, WeightIndex, PadBefore, PadBehind, Pixels, Undilate, Conv.Ok;
  }

  lemma CallInput(j: GoodJob, x: Spot, krow: int, kcol: int, kch: int)
    ensures var v, t := j.p.v, CallTile(j, x, krow, kcol, kch);
      t.input == v.InIx(x.b, Undilate(v, FirstRow(v, x, krow) + t.upad), Undilate(v, FirstCol(v, x, kcol) + t.lpad),
                        kch)
  {
    var v, t := j.p.v, CallTile(j, x, krow, kcol, kch);
    IndexIs(j.p, x.b, Undilate(v, FirstRow(v, x, krow) + t.upad), Undilate(v, FirstCol(v, x, kcol) + t.lpad), kch, 0);
    hide InputIndex, WeightIndex, PadBefore, PadBehind, Undilate, Conv.Ok, Layer.InIx;
  }

  lemma RowAligned(j: GoodJob, x: Spot, krow: int, kcol: int, kch: int, r: int, kr: int)
    requires var t := CallTile(j, x, krow, kcol, kch); 0 <= r < x.t.nr && 0 <= kr < t.krows
    ensures var v, t := j.p.v, CallTile(j, x, krow, kcol, kch);
      Aligned(v, r * v.stride + kr * v.kDil - t.upad, t.IrowsUnpadded(v), Undilate(v, FirstRow(v, x, krow) + t.upad),
              v.Coord(x.r + r, krow + kr))
  {
    var v, t := j.p.v, CallTile(j, x, krow, kcol, kch);
    CallPads(j, x, krow, kcol, kch);
    hide CallTile, Tile.IrowsUnpadded, Tile.IcolsUnpadded, Pixels, PadBefore, PadBehind, Hit, Layer.OnGrid, Undilate,
         Layer.Coord;
    RowGeometry(v, x.r, krow, x.t.nr, t.krows, r, kr, t.upad, t.IrowsUnpadded(v));
  }

  lemma ColAligned(j: GoodJob, x: Spot, krow: int, kcol: int, kch: int, c: int, kc: int)
    requires var t := CallTile(j, x, krow, kcol, kch); 0 <= c < x.t.nc && 0 <= kc < t.kcols
    ensures var v, t := j.p.v, CallTile(j, x, krow, kcol, kch);
      Aligned(v, c * v.stride + kc * v.kDil - t.lpad, t.IcolsUnpadded(v), Undilate(v, FirstCol(v, x, kcol) + t.lpad),
              v.Coord(x.c + c, kcol + kc))
  {
    var v, t := j.p.v, CallTile(j, x, krow, kcol, kch);
    CallPads(j, x, krow, kcol, kch);
    hide CallTile, Tile.IrowsUnpadded, Tile.IcolsUnpadded, Pixels, PadBefore, PadBehind, Hit, Layer.OnGrid, Undilate,
         Layer.Coord;
    RowGeometry(v, x.c, kcol, x.t.nc, t.kcols, c, kc, t.lpad, t.IcolsUnpadded(v));
  }

  /** A tile position and the image position it stands for hold the same value. */
  lemma PixelMatches(p: GoodConv, t: Tile, b0: int, b: int, y: int, z: int, row: int, col: int, y0: int, z0: int,
                     ch0: int, ch: int)
    requires Aligned(p.v, y - t.upad, t.IrowsUnpadded(p.v), row, y0)
    requires Aligned(p.v, z - t.lpad, t.IcolsUnpadded(p.v), col, z0)
    requires t.input == p.v.InIx(b0, row, col, ch0)
    ensures t.Pixel(p, b, y, z, ch) == p.Pixel(b0 + b, y0, z0, ch0 + ch)
  {
    assert p.v.inDil > 0;
    hide Hit, Undilate, Pixels, Tile.IrowsUnpadded, Tile.IcolsUnpadded, Layer.InIx, Layer.OnGrid, Conv.Ok;
    InIxLinear(p.v, b0, row, col, ch0, b, Undilate(p.v, y - t.upad), Undilate(p.v, z - t.lpad), ch);
  }

  lemma SlicePixel(j: GoodJob, x: Spot, krow: int, kcol: int, kch: int, b: int, r: int, c: int, kr: int, kc: int,
                   ch: int)
    requires var t := CallTile(j, x, krow, kcol, kch);
      0 <= r < x.t.nr && 0 <= c < x.t.nc && 0 <= kr < t.krows && 0 <= kc < t.kcols
    ensures var v, t := j.p.v, CallTile(j, x, krow, kcol, kch);
      t.Pixel(j.p, b, r * v.stride + kr * v.kDil, c * v.stride + kc * v.kDil, ch)
        == j.p.Pixel(x.b + b, v.Coord(x.r + r, krow + kr), v.Coord(x.c + c, kcol + kc), kch + ch)
  {
    var v, t := j.p.v, CallTile(j, x, krow, kcol, kch);
    assert v.inDil > 0;
    hide *;
    RowAligned(j, x, krow, kcol, kch, r, kr);
    ColAligned(j, x, krow, kcol, kch, c, kc);
    CallInput(j, x, krow, kcol, kch);
    PixelMatches(j.p, t, x.b, b, r * v.stride + kr * v.kDil, c * v.stride + kc * v.kDil,
                 Undilate(v, FirstRow(v, x, krow) + t.upad), Undilate(v, FirstCol(v, x, kcol) + t.lpad),
                 v.Coord(x.r + r, krow + kr), v.Coord(x.c + c, kcol + kc), kch, ch);
  }

  lemma SliceTap(j: GoodJob, x: Spot, krow: int, kcol: int, kch: int, t: Tile, b: int, r: int, c: int, o: int,
                 kr: int, kc: int, ch: int)
    requires x.Inside(j.p.v) && InKernel(j.p.v, krow, kcol, kch) && t == CallTile(j, x, krow, kcol, kch)
    requires 0 <= r < t.shape.nr && 0 <= c < t.shape.nc && 0 <= kr < t.krows && 0 <= kc < t.kcols
    ensures t.Tap(j.p, b, r, c, o)(kr, kc, ch)
         == j.p.Tap(x.b + b, x.r + r, x.c + c, x.o + o)(kr + krow, kc + kcol, ch + kch)
  {
    assert j.p.v.inDil > 0;
    hide CallTile, Job.Ok, Conv.Ok, Conv.Pixel, Conv.Weight, Layer.Coord, Layer.WIx, Tile.Pixel, Tile.Rot;
    SlicePixel(j, x, krow, kcol, kch, b, r, c, kr, kc, ch);
    SliceWeight(j, x, krow, kcol, kch, kr, kc, ch, o);
  }

  /** What one call adds to an element: a box of the layer's own triple sum. */
  lemma SliceSum(j: GoodJob, x: Spot, krow: int, kcol: int, kch: int, t: Tile, b: int, r: int, c: int, o: int)
    requires x.Inside(j.p.v) && InKernel(j.p.v, krow, kcol, kch) && t == CallTile(j, x, krow, kcol, kch)
    requires t.shape.In(b, r, c, o)
    ensures t.Slice(j.p)(b, r, c, o) == Sum3(j.p.Tap(x.b + b, x.r + r, x.c + c, x.o + o),
                                             krow, krow + t.krows, kcol, kcol + t.kcols, kch, kch + t.kchs)
  {
    assert j.p.v.inDil > 0;
    hide CallTile, Job.Ok, Conv.Ok, Conv.Tap, Tile.Tap, Sum3, Tile.Slice;
    forall kr, kc, ch | 0 <= kr < t.krows && 0 <= kc < t.kcols && 0 <= ch < t.kchs
      ensures t.Tap(j.p, b, r, c, o)(kr, kc, ch)
           == j.p.Tap(x.b + b, x.r + r, x.c + c, x.o + o)(kr + krow, kc + kcol, ch + kch)
    {
      SliceTap(j, x, krow, kcol, kch, t, b, r, c, o, kr, kc, ch);
    }
    SliceShift(j.p, t, b, r, c, o, j.p.Tap(x.b + b, x.r + r, x.c + c, x.o + o), krow, kcol, kch);
  }

  lemma SliceShift(p: Conv, t: Tile, b: int, r: int, c: int, o: int, g: Fn3, krow: int, kcol: int, kch: int)
    requires forall kr, kc, ch :: 0 <= kr < t.krows && 0 <= kc < t.kcols && 0 <= ch < t.kchs ==>
      t.Tap(p, b, r, c, o)(kr, kc, ch) == g(kr + krow, kc + kcol, ch + kch)
    ensures t.Slice(p)(b, r, c, o) == Sum3(g, krow, krow + t.krows, kcol, kcol + t.kcols, kch, kch + t.kchs)
  {
    hide Sum3, Tile.Tap;
    Sum3Shift(t.Tap(p, b, r, c, o), g, 0, t.krows, 0, t.kcols, 0, t.kchs, krow, kcol, kch);
  }

  // ---------- how far the three kernel loops have got ----------

  /** Kernel rows below r are done; of rows r to r1, columns below c; of those from c to c1,
      channels below ch. */
  datatype Region = Region(r: int, r1: int, c: int, c1: int, ch: int) {
    predicate Ok(v: Layer) { 0 <= r <= r1 <= v.kDim && 0 <= c <= c1 <= v.kDim && 0 <= ch <= v.inCh }
  }

  function RegionSum(v: Layer, f: Fn3, g: Region): int {
    Sum3(f, 0, g.r, 0, v.kDim, 0, v.inCh) + Sum3(f, g.r, g.r1, 0, g.c, 0, v.inCh)
    + Sum3(f, g.r, g.r1, g.c, g.c1, 0, g.ch)
  }

  lemma EmptySums(f: Fn3, r: int, r1: int, c: int, c1: int, k: int, k1: int)
    ensures Sum3(f, r, r, c, c1, k, k1) == 0
    ensures Sum3(f, r, r1, c, c, k, k1) == 0
    ensures Sum3(f, r, r1, c, c1, k, k) == 0
  {
    forall i ensures Row(f, c, c, k, k1)(i) == 0 {}
    S.SumZero(r, r1, Row(f, c, c, k, k1));
    forall i ensures Row(f, c, c1, k, k)(i) == 0 {
      S.SumZero(c, c1, Col(f, k, k, i));
    }
    S.SumZero(r, r1, Row(f, c, c1, k, k));
  }

  lemma RegionStart(v: Layer, f: Fn3, g: Region)
    requires g.r == 0 && g.c == 0 && g.ch == 0
    ensures RegionSum(v, f, g) == 0
  {
    EmptySums(f, 0, g.r1, 0, v.kDim, 0, v.inCh);
    EmptySums(f, 0, g.r1, 0, g.c1, 0, v.inCh);
    hide Sum3;
  }

  lemma RegionNextChannels(v: Layer, f: Fn3, g: Region, ch: int)
    requires 0 <= g.ch <= ch
    ensures RegionSum(v, f, g.(ch := ch)) == RegionSum(v, f, g) + Sum3(f, g.r, g.r1, g.c, g.c1, g.ch, ch)
  {
    SplitChannels(f, g.r, g.r1, g.c, g.c1, 0, g.ch, ch);
    hide Sum3;
  }

  lemma RegionNextColumns(v: Layer, f: Fn3, g: Region, c1: int)
    requires 0 <= g.c <= g.c1 && g.ch == v.inCh
    ensures RegionSum(v, f, Region(g.r, g.r1, g.c1, c1, 0)) == RegionSum(v, f, g)
  {
    SplitCols(f, g.r, g.r1, 0, g.c, g.c1, 0, v.inCh);
    EmptySums(f, g.r, g.r1, g.c1, c1, 0, v.inCh);
    hide Sum3;
  }

  lemma RegionNextRows(v: Layer, f: Fn3, g: Region, r1: int, c1: int)
    requires 0 <= g.r <= g.r1 && g.c == v.kDim && g.ch == 0
    ensures RegionSum(v, f, Region(g.r1, r1, 0, c1, 0)) == RegionSum(v, f, g)
  {
    SplitRows(f, 0, g.r, g.r1, 0, v.kDim, 0, v.inCh);
    EmptySums(f, g.r, g.r1, g.c, g.c1, 0, v.inCh);
    EmptySums(f, g.r1, r1, 0, v.kDim, 0, v.inCh);
    EmptySums(f, g.r1, r1, 0, c1, 0, v.inCh);
    hide Sum3;
  }

  predicate Complete(v: Layer, g: Region) { g.r1 == v.kDim && g.c1 == v.kDim && g.ch == v.inCh }

  lemma RegionComplete(v: Layer, f: Fn3, g: Region)
    requires g.Ok(v) && Complete(v, g)
    ensures RegionSum(v, f, g) == Sum3(f, 0, v.kDim, 0, v.kDim, 0, v.inCh)
  {
    SplitRows(f, 0, g.r, v.kDim, 0, v.kDim, 0, v.inCh);
    SplitCols(f, g.r, v.kDim, 0, g.c, v.kDim, 0, v.inCh);
    hide Sum3;
  }

  // ---------- the accumulator while a tile is in progress ----------

  function Target0(j: GoodJob, x: Spot, g: Region): TileFn {
    (b, r, c, o) => j.p.Bias(x.o + o) + RegionSum(j.p.v, j.p.Tap(x.b + b, x.r + r, x.c + c, x.o + o), g)
  }

  /** Half h holds, for every element of the tile, bias plus the region done so far. */
  ghost predicate AccIs(j: GoodJob, m: LM.Mem, x: Spot, h: int, g: Region) {
    forall b, r, c, o :: x.t.In(b, r, c, o) ==>
      Val(m, x.t, h, b, r, c, o) == Target0(j, x, g)(b, r, c, o)
  }

  predicate Started(g: Region) { g.r > 0 || g.c > 0 || g.ch > 0 }

  /** The region after one more call. */
  function Next(j: Job, g: Region): Region { g.(ch := g.ch + Min(j.p.v.inCh - g.ch, j.f.kchs)) }

  /** The region the call at (g.r, g.c, g.ch) works on. */
  predicate AtCall(j: Job, g: Region) {
    && InKernel(j.p.v, g.r, g.c, g.ch)
    && g.r1 == g.r + Min(j.p.v.kDim - g.r, j.f.krows) && g.c1 == g.c + Min(j.p.v.kDim - g.c, j.f.kcols)
  }

  /** A call carries the accumulator from one region to the next, loading the bias if it is the first. */
  lemma CallStep(j: GoodJob, x: Spot, g: Region, t: Tile, m: LM.Mem, m': LM.Mem, dRow: int, h: int)
    requires x.Inside(j.p.v) && AtCall(j, g) && t == CallTile(j, x, g.r, g.c, g.ch)
    requires if Started(g) then AccIs(j, m, x, h, g) else dRow == h
    requires Accumulated(j.p, t, m, m', dRow, h)
    ensures AccIs(j, m', x, h, Next(j, g))
  {
    hide CallTile, Job.Ok, Conv.Ok, Accumulated, Next, Val, Target0, Tile.Slice, Sum3, TileShape.In;
    assert InKernel(j.p.v, g.r, g.c, g.ch) && g.ch >= 0;
    hide InKernel;
    CallArgs(j, x, g);
    forall b, r, c, o | x.t.In(b, r, c, o)
      ensures Val(m', x.t, h, b, r, c, o) == Target0(j, x, Next(j, g))(b, r, c, o)
    {
      hide AccIs;
      SliceSum(j, x, g.r, g.c, g.ch, t, b, r, c, o);
      AddSlice(j, t, m, m', dRow, h, b, r, c, o);
      StartIs(j, x, g, t, m, dRow, h, b, r, c, o);
      CallCell(j, x, g, t, b, r, c, o);
    }
  }

  lemma CallCell(j: GoodJob, x: Spot, g: Region, t: Tile, b: int, r: int, c: int, o: int)
    requires t.kchs > 0 && g.ch >= 0
    ensures Target0(j, x, g.(ch := g.ch + t.kchs))(b, r, c, o) == Target0(j, x, g)(b, r, c, o)
         + Sum3(j.p.Tap(x.b + b, x.r + r, x.c + c, x.o + o), g.r, g.r1, g.c, g.c1, g.ch, g.ch + t.kchs)
  {
    hide RegionSum, Conv.Tap, Conv.Bias;
    RegionNextChannels(j.p.v, j.p.Tap(x.b + b, x.r + r, x.c + c, x.o + o), g, g.ch + t.kchs);
  }

  lemma AddSlice(j: GoodJob, t: Tile, m: LM.Mem, m': LM.Mem, dRow: int, h: int, b: int, r: int, c: int, o: int)
    requires Accumulated(j.p, t, m, m', dRow, h) && t.shape.In(b, r, c, o)
    ensures Val(m', t.shape, h, b, r, c, o) == StartVal(j.p, t, m, dRow, h, b, r, c, o) + t.Slice(j.p)(b, r, c, o)
  {
    hide Job.Ok, Conv.Ok, Val, StartVal, Tile.Slice;
  }

  /** Where an element starts: from the bias on the first call, from the region so far on later ones. */
  lemma StartIs(j: GoodJob, x: Spot, g: Region, t: Tile, m: LM.Mem, dRow: int, h: int, b: int, r: int, c: int, o: int)
    requires x.Inside(j.p.v) && AtCall(j, g) && x.t.In(b, r, c, o) && t == CallTile(j, x, g.r, g.c, g.ch)
    requires if Started(g) then AccIs(j, m, x, h, g) else dRow == h
    ensures StartVal(j.p, t, m, dRow, h, b, r, c, o) == Target0(j, x, g)(b, r, c, o)
  {
    CallArgs(j, x, g);
    if !Started(g) {
      RegionStart(j.p.v, j.p.Tap(x.b + b, x.r + r, x.c + c, x.o + o), g);
      BiasArgIs(j, x, g, b, r, c, o);
    }
    hide CallTile, Job.Ok, Conv.Ok, Conv.Tap, RegionSum, Val, Conv.Bias, Tile.BiasFn;
  }

  lemma CallArgs(j: GoodJob, x: Spot, g: Region)
    requires x.Inside(j.p.v) && AtCall(j, g)
    ensures var t := CallTile(j, x, g.r, g.c, g.ch);
      && t.shape == x.t && (t.bias == Skip <==> Started(g))
      && Next(j, g) == g.(ch := g.ch + t.kchs)
      && g.r + t.krows == g.r1 && g.c + t.kcols == g.c1 && g.ch + t.kchs == Next(j, g).ch && t.kchs > 0
      && (IsLast(j, g.r, g.c, g.ch) <==> Complete(j.p.v, Next(j, g)))
  {
    hide InputIndex, WeightIndex, Conv.Ok;
  }

  lemma BiasArgIs(j: GoodJob, x: Spot, g: Region, b: int, r: int, c: int, o: int)
    requires !Started(g) && x.Inside(j.p.v) && AtCall(j, g)
    ensures CallTile(j, x, g.r, g.c, g.ch).BiasFn(j.p)(b, r, c, o) == j.p.Bias(x.o + o)
  {
    hide InputIndex, WeightIndex, Conv.Ok;
  }


  // ---------- one output tile ----------

  lemma Rebox(t: Target, u: Target, x: seq<int>, y: seq<int>, box: Box)
    requires Wrote(t, x, y, box) && u == t.(cell := u.cell)
    requires forall a, b, c, d :: t.In(a, b, c, d) && box.Has(a, b, c, d) ==> t.cell(a, b, c, d) == u.cell(a, b, c, d)
    ensures Wrote(u, x, y, box)
  {}

  /** The strip of convolution rows (or columns) under a tile's windows lies in the image, is not empty,
      and holds every element of them that does. */
  lemma StripFacts(q: Pooling, dim: int, pr: int, n: int)
    requires q.size >= 1 && q.stride >= 1 && 0 <= q.padding < q.size && dim >= 0 && (dim >= 1 || q == NO_WINDOW)
    requires 0 <= pr < PoolDim(dim, q) && n >= 1
    ensures var s := StripOf(q, dim, pr, n);
      && 0 <= s.first && 1 <= s.count && s.first + s.count <= dim && s.count <= n * q.stride + q.size - 1
      && s.first == pr * q.stride - q.padding + s.up && dim >= 1
      && (s.first + s.count == dim || s.first + s.count == pr * q.stride - q.padding + n * q.stride + q.size - 1)
      && (s.up == 0 || s.first == 0)
  {
    LastWindow(q, dim, pr);
    MulLe(1, n, q.stride);
    MulLe(0, pr, q.stride);
    hide PoolDim;
  }

  /** Every pooled element's window begins inside the image or before it. */
  lemma LastWindow(q: Pooling, dim: int, pr: int)
    requires q.size >= 1 && q.stride >= 1 && 0 <= q.padding < q.size && dim >= 0 && (dim >= 1 || q == NO_WINDOW)
    requires 0 <= pr < PoolDim(dim, q)
    ensures pr * q.stride - q.padding < dim
  {
    var m := dim + 2 * q.padding - q.size;
    if m >= 0 {
      DivMul(m, q.stride);
      MulLe(pr, m / q.stride, q.stride);
    } else {
      DivBounds(-m, q.stride);
      assert pr == 0 || pr < 0;
    }
  }

  /** Element w of the window of pooled row (or column) pr + i, seen from the strip. */
  lemma StripWindow(q: Pooling, dim: int, pr: int, n: int, i: int, w: int)
    requires q.size >= 1 && q.stride >= 1 && 0 <= q.padding < q.size && dim >= 0 && (dim >= 1 || q == NO_WINDOW)
    requires 0 <= pr < PoolDim(dim, q) && 0 <= i < n && 0 <= w < q.size
    ensures var s := StripOf(q, dim, pr, n); var y := i * q.stride + w - s.up;
      s.first + y == Under(q, pr + i, w) && (0 <= y < s.count <==> 0 <= Under(q, pr + i, w) < dim)
  {
    StripFacts(q, dim, pr, n);
    MulLe(0, i, q.stride);
    MulLe(i + 1, n, q.stride);
    Distribute(i, 1, q.stride);
    Distribute(pr, i, q.stride);
    hide PoolDim, StripOf;
  }

  lemma ShapeFits(j: GoodJob, y: Origin)
    requires InLayer(j, y)
    ensures SpotAt(j, y).Inside(j.p.v) && SpotAt(j, y).t.Rows() <= ACC_ROWS / 2
    ensures PooledAt(j, y).Ok() && y.Inside(j.p.v, j.Dim(), PooledAt(j, y))
  {
    var n, f := PooledAt(j, y), j.f.Full(j.q);
    StripFacts(j.q, j.p.v.outDim, y.r, n.nr);
    StripFacts(j.q, j.p.v.outDim, y.c, n.nc);
    var t := SpotAt(j, y).t;
    hide Conv.Ok, PoolDim, StripOf;
    FullIs(j, t, n);
    PerBankMono(t.no, f.no);
    hide PerBank;
    assert PerBank(t.no) == CeilDiv(t.no, DIM) && PerBank(f.no) == CeilDiv(f.no, DIM);
    Mul4(PerBank(t.no), t.nb, t.nr, t.nc, PerBank(f.no), f.nb, f.nr, f.nc);
  }

  lemma FullIs(j: GoodJob, t: TileShape, n: TileShape)
    requires n.nr <= j.f.porows && n.nc <= j.f.pocols
    requires t.nr <= n.nr * j.q.stride + j.q.size - 1 && t.nc <= n.nc * j.q.stride + j.q.size - 1
    ensures t.nr <= j.f.Full(j.q).nr && t.nc <= j.f.Full(j.q).nc
  {
    MulLe(n.nr, j.f.porows, j.q.stride);
    MulLe(n.nc, j.f.pocols, j.q.stride);
  }

  lemma DoneCell(j: GoodJob, x: Spot, m: LM.Mem, h: int, g: Region, b: int, r: int, c: int, o: int)
    requires AccIs(j, m, x, h, g) && Complete(j.p.v, g) && g.Ok(j.p.v) && x.t.In(b, r, c, o)
    ensures Val(m, x.t, h, b, r, c, o) == j.p.Acc(x.b + b, x.r + r, x.c + c, x.o + o)
  {
    hide *;
    AccAt(j, x, m, h, g, b, r, c, o);
    TargetDone(j, x, g, b, r, c, o);
  }

  lemma AccAt(j: GoodJob, x: Spot, m: LM.Mem, h: int, g: Region, b: int, r: int, c: int, o: int)
    requires AccIs(j, m, x, h, g) && x.t.In(b, r, c, o)
    ensures Val(m, x.t, h, b, r, c, o) == Target0(j, x, g)(b, r, c, o)
  {
    hide Val, Target0, TileShape.In;
  }

  lemma TargetDone(j: GoodJob, x: Spot, g: Region, b: int, r: int, c: int, o: int)
    requires Complete(j.p.v, g) && g.Ok(j.p.v)
    ensures Target0(j, x, g)(b, r, c, o) == j.p.Acc(x.b + b, x.r + r, x.c + c, x.o + o)
  {
    assert j.p.v.inDil > 0;
    hide *;
    TargetIs(j, x, g, b, r, c, o);
    RegionComplete(j.p.v, j.p.Tap(x.b + b, x.r + r, x.c + c, x.o + o), g);
  }

  lemma TargetIs(j: GoodJob, x: Spot, g: Region, b: int, r: int, c: int, o: int)
    ensures j.p.v.inDil > 0
    ensures var v, f := j.p.v, j.p.Tap(x.b + b, x.r + r, x.c + c, x.o + o);
      && Target0(j, x, g)(b, r, c, o) == j.p.Bias(x.o + o) + RegionSum(v, f, g)
      && j.p.Acc(x.b + b, x.r + r, x.c + c, x.o + o)
         == j.p.Bias(x.o + o) + Sum3(f, 0, v.kDim, 0, v.kDim, 0, v.inCh)
  {
    assert j.p.v.inDil > 0;
    hide Conv.Tap, Sum3, RegionSum, Conv.Bias, Job.Ok, Conv.Ok;
  }

  /** Rows (or columns) of a tile's window, in the tile and in the image. */
  lemma RowWindow(j: GoodJob, y: Origin, r: int, wr: int)
    requires InLayer(j, y) && 0 <= r < PooledAt(j, y).nr && 0 <= wr < j.q.size
    ensures var s, u := RowsAt(j, y), r * j.q.stride + wr - RowsAt(j, y).up;
      s.first + u == Under(j.q, y.r + r, wr) && (0 <= u < s.count <==> 0 <= Under(j.q, y.r + r, wr) < j.p.v.outDim)
  {
    StripWindow(j.q, j.p.v.outDim, y.r, PooledAt(j, y).nr, r, wr);
    hide PoolDim, StripOf, Under, PooledAt, Conv.Ok;
  }

  lemma ColWindow(j: GoodJob, y: Origin, c: int, wc: int)
    requires InLayer(j, y) && 0 <= c < PooledAt(j, y).nc && 0 <= wc < j.q.size
    ensures var s, u := ColsAt(j, y), c * j.q.stride + wc - ColsAt(j, y).up;
      s.first + u == Under(j.q, y.c + c, wc) && (0 <= u < s.count <==> 0 <= Under(j.q, y.c + c, wc) < j.p.v.outDim)
  {
    StripWindow(j.q, j.p.v.outDim, y.c, PooledAt(j, y).nc, c, wc);
    hide PoolDim, StripOf, Under, PooledAt, Conv.Ok;
  }

  /** A window over the finished tile is the window over the layer's results. */
  lemma WindowElement(j: GoodJob, y: Origin, m: LM.Mem, h: int, g: Region, b: int, r: int, c: int, o: int, wr: int,
                      wc: int)
    requires InLayer(j, y) && AccIs(j, m, SpotAt(j, y), h, g) && Complete(j.p.v, g) && g.Ok(j.p.v)
    requires PooledAt(j, y).In(b, r, c, o) && 0 <= wr < j.q.size && 0 <= wc < j.q.size
    ensures OverTile(j, y, m, h, b, r, c, o)(wr, wc) == OverLayer(j, y.b + b, y.r + r, y.c + c, y.o + o)(wr, wc)
  {
    hide Job.Ok, Conv.Ok, Val, Conv.Acc, AccIs, PoolDim, RowsAt, ColsAt, Under, Conv.Out, PooledAt, InLayer, Complete,
         Region.Ok;
    RowWindow(j, y, r, wr);
    ColWindow(j, y, c, wc);
    var x, u, v := SpotAt(j, y), r * j.q.stride + wr - RowsAt(j, y).up, c * j.q.stride + wc - ColsAt(j, y).up;
    if 0 <= u < x.t.nr && 0 <= v < x.t.nc {
      DoneCell(j, x, m, h, g, b, u, v, o);
    }
  }

  /** Without pooling the one element of the window is the result itself. */
  lemma NoWindow(j: GoodJob, y: Origin, m: LM.Mem, h: int, b: int, r: int, c: int, o: int)
    requires j.noPool && InLayer(j, y) && PooledAt(j, y).In(b, r, c, o)
    ensures Drained(j.p, m, SpotAt(j, y).t, h, LeavingAt(j, y), b, r, c, o)
         == WindowMax(TileWindow(j.p, m, SpotAt(j, y).t, h, LeavingAt(j, y), b, r, c, o), 1, 1, ELEM_MIN)
  {
    StripFacts(j.q, j.p.v.outDim, y.r, PooledAt(j, y).nr);
    StripFacts(j.q, j.p.v.outDim, y.c, PooledAt(j, y).nc);
    var f := TileWindow(j.p, m, SpotAt(j, y).t, h, LeavingAt(j, y), b, r, c, o);
    OneWindow(f);
    StripWindow(j.q, j.p.v.outDim, y.r, PooledAt(j, y).nr, r, 0);
    StripWindow(j.q, j.p.v.outDim, y.c, PooledAt(j, y).nc, c, 0);
    assert f(0, 0) == j.p.Out(Val(m, SpotAt(j, y).t, h, b, r, c, o));
  }

  lemma OneWindow(f: Window)
    ensures WindowMax(f, 1, 1, ELEM_MIN) == Larger(ELEM_MIN, f(0, 0))
  {
    assert WindowMax(f, 1, 0, ELEM_MIN) == ELEM_MIN;
    assert RowMax(f, 0, 0, ELEM_MIN) == ELEM_MIN;
  }

  /** The window of an output element: over the finished tile, and over the layer's results. */
  function OverTile(j: GoodJob, y: Origin, m: LM.Mem, h: int, b: int, r: int, c: int, o: int): Window {
    TileWindow(j.p, m, SpotAt(j, y).t, h, LeavingAt(j, y), b, r, c, o)
  }

  function OverLayer(j: GoodJob, b: int, r: int, c: int, o: int): Window {
    WindowOf(j.p.Cell(), j.p.v.outDim, j.q, b, r, c, o)
  }

  function Leaves(j: GoodJob, y: Origin, m: LM.Mem, h: int, b: int, r: int, c: int, o: int): int {
    Drained(j.p, m, SpotAt(j, y).t, h, LeavingAt(j, y), b, r, c, o)
  }

  /** An element as it leaves the finished tile is the layer's pooled result. */
  lemma DoneElement(j: GoodJob, y: Origin, m: LM.Mem, h: int, g: Region, b: int, r: int, c: int, o: int)
    requires InLayer(j, y) && AccIs(j, m, SpotAt(j, y), h, g) && Complete(j.p.v, g) && g.Ok(j.p.v)
    requires PooledAt(j, y).In(b, r, c, o)
    ensures Leaves(j, y, m, h, b, r, c, o) == j.Output().cell(y.b + b, y.r + r, y.c + c, y.o + o)
  {
    hide *;
    LeavesWindow(j, y, m, h, b, r, c, o);
    WindowsSame(j, y, m, h, g, b, r, c, o);
    PoolCellIs(j, y.b + b, y.r + r, y.c + c, y.o + o);
    WindowMaxEq(OverTile(j, y, m, h, b, r, c, o), OverLayer(j, y.b + b, y.r + r, y.c + c, y.o + o), j.q.size, ELEM_MIN);
  }

  lemma PoolCellIs(j: GoodJob, b: int, r: int, c: int, o: int)
    ensures j.Output().cell(b, r, c, o) == WindowMax(OverLayer(j, b, r, c, o), j.q.size, j.q.size, ELEM_MIN)
  {
    hide WindowMax, WindowOf, Conv.Cell, PoolDim;
  }

  lemma LeavesWindow(j: GoodJob, y: Origin, m: LM.Mem, h: int, b: int, r: int, c: int, o: int)
    requires InLayer(j, y) && PooledAt(j, y).In(b, r, c, o)
    ensures Leaves(j, y, m, h, b, r, c, o) == WindowMax(OverTile(j, y, m, h, b, r, c, o), j.q.size, j.q.size, ELEM_MIN)
  {
    if j.noPool { NoWindow(j, y, m, h, b, r, c, o); }
    hide WindowMax, TileWindow, SpotAt, PooledAt, RowsAt, ColsAt, PoolDim, Conv.Ok, TileShape.Rows;
  }

  lemma WindowsSame(j: GoodJob, y: Origin, m: LM.Mem, h: int, g: Region, b: int, r: int, c: int, o: int)
    requires InLayer(j, y) && AccIs(j, m, SpotAt(j, y), h, g) && Complete(j.p.v, g) && g.Ok(j.p.v)
    requires PooledAt(j, y).In(b, r, c, o)
    ensures forall wr, wc :: 0 <= wr < j.q.size && 0 <= wc < j.q.size ==>
      OverTile(j, y, m, h, b, r, c, o)(wr, wc) == OverLayer(j, y.b + b, y.r + r, y.c + c, y.o + o)(wr, wc)
  {
    hide *;
    forall wr, wc | 0 <= wr < j.q.size && 0 <= wc < j.q.size
      ensures OverTile(j, y, m, h, b, r, c, o)(wr, wc) == OverLayer(j, y.b + b, y.r + r, y.c + c, y.o + o)(wr, wc)
    {
      WindowElement(j, y, m, h, g, b, r, c, o, wr, wc);
    }
  }

  /** What a tile leaves in the output. */
  function DrainOf(j: GoodJob, y: Origin, m: LM.Mem, h: int): Target {
    DrainTarget(j.p, m, SpotAt(j, y).t, h, LeavingAt(j, y), y)
  }

  lemma DrainIsOutput(j: GoodJob, y: Origin, m: LM.Mem, h: int)
    ensures j.Output() == DrainOf(j, y, m, h).(cell := PoolCell(j.p.Cell(), j.p.v.outDim, j.q))
  {
    hide PoolDim, Conv.Ok;
  }

  /** A tile drained when its region is complete holds the layer's results. */
  lemma TileDone(j: GoodJob, y: Origin, m: LM.Mem, h: int, g: Region, s0: seq<int>, s: seq<int>)
    requires InLayer(j, y) && AccIs(j, m, SpotAt(j, y), h, g) && Complete(j.p.v, g) && g.Ok(j.p.v)
    requires Wrote(DrainOf(j, y, m, h), s0, s, y.BoxOf(PooledAt(j, y)))
    ensures Wrote(j.Output(), s0, s, y.BoxOf(PooledAt(j, y)))
  {
    DrainIsOutput(j, y, m, h);
    forall b, r, c, o | y.BoxOf(PooledAt(j, y)).Has(b, r, c, o)
      ensures DrainOf(j, y, m, h).cell(b, r, c, o) == j.Output().cell(b, r, c, o)
    {
      hide *;
      DoneAt(j, y, m, h, g, b, r, c, o);
    }
    hide *;
    Rebox(DrainOf(j, y, m, h), j.Output(), s0, s, y.BoxOf(PooledAt(j, y)));
  }

  lemma DoneAt(j: GoodJob, y: Origin, m: LM.Mem, h: int, g: Region, b: int, r: int, c: int, o: int)
    requires InLayer(j, y) && AccIs(j, m, SpotAt(j, y), h, g) && Complete(j.p.v, g) && g.Ok(j.p.v)
    requires y.BoxOf(PooledAt(j, y)).Has(b, r, c, o)
    ensures DrainOf(j, y, m, h).cell(b, r, c, o) == j.Output().cell(b, r, c, o)
  {
    hide *;
    CellsUnfold(j, y, m, h, b, r, c, o);
    DoneElement(j, y, m, h, g, b - y.b, r - y.r, c - y.c, o - y.o);
  }

  lemma CellsUnfold(j: GoodJob, y: Origin, m: LM.Mem, h: int, b: int, r: int, c: int, o: int)
    ensures DrainOf(j, y, m, h).cell(b, r, c, o) == Leaves(j, y, m, h, b - y.b, r - y.r, c - y.c, o - y.o)
    ensures y.BoxOf(PooledAt(j, y)).Has(b, r, c, o) ==> PooledAt(j, y).In(b - y.b, r - y.r, c - y.c, o - y.o)
  {
    hide Drained, SpotAt, LeavingAt, PooledAt, PoolDim, Conv.Cell;
  }

  /** A tile in progress. Its bias goes to half h, its products go to half h, and h is what is
      drained; the output is untouched until the last call. */
  ghost predicate TileState(j: GoodJob, y: Origin, h: int, m: LM.Mem, dRow: int, cRow: int, s0: seq<int>, s: seq<int>,
                            g: Region, finished: bool)
  {
    && IsHalf(h) && (Started(g) ==> AccIs(j, m, SpotAt(j, y), h, g))
    && dRow == (if Started(g) then Flip(h) else h)
    && cRow == (if finished then Flip(h) else h)
    && (if finished then Wrote(j.Output(), s0, s, y.BoxOf(PooledAt(j, y))) else s == s0)
  }

  lemma OutPlaced(j: GoodJob, y: Origin, s: seq<int>)
    requires InLayer(j, y) && j.Output().Size() <= |s|
    ensures Placed(j.p, LeavingAt(j, y), OutPointer(j, y), s, y)
  {
    ShapeFits(j, y);
    PooledIndex(j.p, j.q, y.b, y.r, y.c, y.o);
    hide PoolDim, Conv.Ok, OutputIndex, Ix4, PooledAt, RowsAt, ColsAt;
    SameGrid(j, y);
  }

  lemma SameGrid(j: GoodJob, y: Origin)
    ensures j.Output().Ix(y.b, y.r, y.c, y.o) == OutputOf(j.p, j.Dim()).Ix(y.b, y.r, y.c, y.o)
    ensures j.Output().Size() == OutputOf(j.p, j.Dim()).Size()
  {
    hide PoolDim, Ix4;
  }

  /** One inner call. */
  method CallSlice(u: ConvUnit, j: GoodJob, y: Origin, output: array<int>, krow: int, kcol: int, kch: int,
                   ghost g: Region, ghost h: int, ghost s0: seq<int>)
    requires u.Valid() && InLayer(j, y) && AtCall(j, g) && g.r == krow && g.c == kcol && g.ch == kch
    requires j.Output().Size() <= output.Length
    requires TileState(j, y, h, u.acc, u.dRow, u.cRow, s0, output[..], g, false)
    modifies u, output
    ensures u.Valid()
    ensures TileState(j, y, h, u.acc, u.dRow, u.cRow, s0, output[..], Next(j, g), Complete(j.p.v, Next(j, g)))
  {
    var x, a := SpotAt(j, y), LeavingAt(j, y);
    var t := CallTile(j, x, krow, kcol, kch);
    var out := if IsLast(j, krow, kcol, kch) then Some(OutPointer(j, y)) else None;
    ghost var m, d := u.acc, u.dRow;
    ShapeFits(j, y);
    CallArgs(j, x, g);
    OutPlaced(j, y, output[..]);
    LeavingShape(j, y);
    hide CallTile, PooledAt, SpotAt, LeavingAt, Job.Ok, Conv.Ok, AccIs, Accumulated, Wrote, TileShape.Rows, Target.Size,
         Target.Ix, InLayer, InKernel, IsLast, Placed, DrainTarget, Job.Output, Spot.Inside, OutPointer;
    u.SpTiledConv(j.p, t, a, out, output, y);
    CallStep(j, x, g, t, m, u.acc, d, h);
    if Complete(j.p.v, Next(j, g)) {
      TileDone(j, y, u.acc, h, Next(j, g), s0, output[..]);
    }
  }

  lemma LeavingShape(j: GoodJob, y: Origin)
    ensures LeavingAt(j, y).pooled == PooledAt(j, y)
  {}

  /** Moving to the next kernel columns or rows renames the region without changing its sum. */
  lemma Rename(j: GoodJob, y: Origin, h: int, m: LM.Mem, dRow: int, cRow: int, s0: seq<int>, s: seq<int>,
               g: Region, g': Region, finished: bool)
    requires TileState(j, y, h, m, dRow, cRow, s0, s, g, finished) && Started(g) && Started(g')
    requires forall f: Fn3 :: RegionSum(j.p.v, f, g') == RegionSum(j.p.v, f, g)
    ensures TileState(j, y, h, m, dRow, cRow, s0, s, g', finished)
  {
    RenameAcc(j, SpotAt(j, y), m, h, g, g');
    hide RegionSum, Val, Wrote, PooledAt, SpotAt, AccIs, Job.Output;
  }

  lemma RenameAcc(j: GoodJob, x: Spot, m: LM.Mem, h: int, g: Region, g': Region)
    requires AccIs(j, m, x, h, g)
    requires forall f: Fn3 :: RegionSum(j.p.v, f, g') == RegionSum(j.p.v, f, g)
    ensures AccIs(j, m, x, h, g')
  {
    hide RegionSum, Conv.Tap, Conv.Bias, Val;
    forall b, r, c, o | x.t.In(b, r, c, o)
      ensures Val(m, x.t, h, b, r, c, o) == Target0(j, x, g')(b, r, c, o)
    {
      var f := j.p.Tap(x.b + b, x.r + r, x.c + c, x.o + o);
      assert RegionSum(j.p.v, f, g') == RegionSum(j.p.v, f, g);
    }
  }

  /** The kch loop. */
  method ChannelSlices(u: ConvUnit, j: GoodJob, y: Origin, output: array<int>, krow: int, kcol: int,
                       ghost r1: int, ghost c1: int, ghost h: int, ghost s0: seq<int>)
    requires u.Valid() && InLayer(j, y) && AtCall(j, Region(krow, r1, kcol, c1, 0))
    requires j.Output().Size() <= output.Length
    requires TileState(j, y, h, u.acc, u.dRow, u.cRow, s0, output[..], Region(krow, r1, kcol, c1, 0), false)
    modifies u, output
    ensures u.Valid()
    ensures TileState(j, y, h, u.acc, u.dRow, u.cRow, s0, output[..], Region(krow, r1, kcol, c1, j.p.v.inCh),
                      r1 == c1 == j.p.v.kDim)
  {
    var kch := 0;
    ghost var g := Region(krow, r1, kcol, c1, 0);
    assert j.p.v.inCh > 0 && j.f.kchs > 0 && j.p.v.inDil > 0;
    hide Job.Ok, Conv.Ok, TileState, InLayer, Target.Size;
    while kch < j.p.v.inCh
      invariant u.Valid() && kch >= 0 && g == Region(krow, r1, kcol, c1, Min(j.p.v.inCh, kch))
      invariant TileState(j, y, h, u.acc, u.dRow, u.cRow, s0, output[..], g, Complete(j.p.v, g))
    {
      CallSlice(u, j, y, output, krow, kcol, kch, g, h, s0);
      g := Next(j, g);
      kch := kch + j.f.kchs;
    }
  }

  function RegionAt(j: Job, krow: int, kcol: int): Region {
    Region(krow, krow + Min(j.p.v.kDim - krow, j.f.krows), kcol, kcol + Min(j.p.v.kDim - kcol, j.f.kcols), 0)
  }

  lemma NextColumn(j: GoodJob, g: Region)
    requires 0 <= g.c <= g.c1 && g.ch == j.p.v.inCh
    ensures forall f: Fn3 :: RegionSum(j.p.v, f, RegionAt(j, g.r, g.c1).(r1 := g.r1)) == RegionSum(j.p.v, f, g)
  {
    forall f: Fn3 ensures RegionSum(j.p.v, f, RegionAt(j, g.r, g.c1).(r1 := g.r1)) == RegionSum(j.p.v, f, g) {
      RegionNextColumns(j.p.v, f, g, RegionAt(j, g.r, g.c1).c1);
    }
  }

  lemma NextRow(j: GoodJob, g: Region)
    requires 0 <= g.r <= g.r1 && g.c == j.p.v.kDim && g.ch == 0
    ensures forall f: Fn3 :: RegionSum(j.p.v, f, RegionAt(j, g.r1, 0)) == RegionSum(j.p.v, f, g)
  {
    forall f: Fn3 ensures RegionSum(j.p.v, f, RegionAt(j, g.r1, 0)) == RegionSum(j.p.v, f, g) {
      RegionNextRows(j.p.v, f, g, RegionAt(j, g.r1, 0).r1, RegionAt(j, g.r1, 0).c1);
    }
  }

  lemma ColumnStep(j: GoodJob, y: Origin, h: int, m: LM.Mem, dRow: int, cRow: int, s0: seq<int>, s: seq<int>,
                   g: Region, finished: bool)
    requires TileState(j, y, h, m, dRow, cRow, s0, s, g, finished)
    requires 0 <= g.r && 0 <= g.c < g.c1 && g.ch == j.p.v.inCh && g.r1 == RegionAt(j, g.r, g.c1).r1
    ensures TileState(j, y, h, m, dRow, cRow, s0, s, RegionAt(j, g.r, g.c1), finished)
  {
    assert j.p.v.inCh > 0;
    hide Job.Ok, Conv.Ok, TileState, RegionSum;
    NextColumn(j, g);
    Rename(j, y, h, m, dRow, cRow, s0, s, g, RegionAt(j, g.r, g.c1), finished);
  }

  /** The kcol loop. */
  method ColumnSlices(u: ConvUnit, j: GoodJob, y: Origin, output: array<int>, krow: int, ghost h: int,
                      ghost s0: seq<int>)
    requires u.Valid() && InLayer(j, y) && 0 <= krow < j.p.v.kDim
    requires j.Output().Size() <= output.Length
    requires TileState(j, y, h, u.acc, u.dRow, u.cRow, s0, output[..], RegionAt(j, krow, 0), false)
    modifies u, output
    ensures u.Valid()
    ensures TileState(j, y, h, u.acc, u.dRow, u.cRow, s0, output[..], RegionAt(j, krow, j.p.v.kDim),
                      RegionAt(j, krow, 0).r1 == j.p.v.kDim)
  {
    var kcol := 0;
    ghost var r1 := RegionAt(j, krow, 0).r1;
    assert j.p.v.inCh > 0 && j.p.v.kDim > 0 && j.f.kcols > 0 && j.f.krows > 0 && j.p.v.inDil > 0;
    hide Job.Ok, Conv.Ok, TileState, InLayer, Target.Size, RegionSum;
    while kcol < j.p.v.kDim
      invariant u.Valid() && kcol >= 0
      invariant TileState(j, y, h, u.acc, u.dRow, u.cRow, s0, output[..], RegionAt(j, krow, Min(j.p.v.kDim, kcol)),
                          r1 == j.p.v.kDim && kcol >= j.p.v.kDim)
    {
      ghost var c1 := RegionAt(j, krow, kcol).c1;
      ChannelSlices(u, j, y, output, krow, kcol, r1, c1, h, s0);
      ColumnStep(j, y, h, u.acc, u.dRow, u.cRow, s0, output[..], Region(krow, r1, kcol, c1, j.p.v.inCh),
                 r1 == c1 == j.p.v.kDim);
      kcol := kcol + j.f.kcols;
    }
  }

  /** The krow loop. */
  method RowSlices(u: ConvUnit, j: GoodJob, y: Origin, output: array<int>, ghost h: int, ghost s0: seq<int>)
    requires u.Valid() && InLayer(j, y) && j.Output().Size() <= output.Length
    requires TileState(j, y, h, u.acc, u.dRow, u.cRow, s0, output[..], RegionAt(j, 0, 0), false)
    modifies u, output
    ensures u.Valid()
    ensures TileState(j, y, h, u.acc, u.dRow, u.cRow, s0, output[..], RegionAt(j, j.p.v.kDim, 0), true)
  {
    var krow := 0;
    assert j.p.v.inCh > 0 && j.p.v.kDim > 0 && j.f.kcols > 0 && j.f.krows > 0 && j.p.v.inDil > 0;
    hide Job.Ok, Conv.Ok, InLayer, Target.Size, RegionSum, TileState;
    while krow < j.p.v.kDim
      invariant u.Valid() && krow >= 0
      invariant TileState(j, y, h, u.acc, u.dRow, u.cRow, s0, output[..], RegionAt(j, Min(j.p.v.kDim, krow), 0),
                          krow >= j.p.v.kDim)
    {
      ghost var r1 := RegionAt(j, krow, 0).r1;
      ColumnSlices(u, j, y, output, krow, h, s0);
      ghost var g := RegionAt(j, krow, j.p.v.kDim);
      NextRow(j, g);
      Rename(j, y, h, u.acc, u.dRow, u.cRow, s0, output[..], g, RegionAt(j, r1, 0), r1 == j.p.v.kDim);
      krow := krow + j.f.krows;
    }
  }

  /** All calls of one output tile: its elements receive the layer's cells, and the next tile's
      bias and products go to the other half of the accumulator. */
  method OutputTile(u: ConvUnit, j: GoodJob, y: Origin, output: array<int>)
    requires u.Valid() && u.dRow == u.cRow && InLayer(j, y) && j.Output().Size() <= output.Length
    modifies u, output
    ensures u.Valid() && u.dRow == u.cRow == Flip(old(u.dRow)) != old(u.dRow)
    ensures Wrote(j.Output(), old(output[..]), output[..], y.BoxOf(PooledAt(j, y)))
  {
    ghost var h, s0 := u.dRow, output[..];
    assert j.p.v.kDim > 0;
    FlipHalf(h);
    Untouched(j, y, h, u.acc, s0);
    hide Job.Ok, Conv.Ok, InLayer, Target.Size, TileState, Wrote, Flip, SpotAt, PooledAt;
    RowSlices(u, j, y, output, h, s0);
    Finished(j, y, h, u.acc, u.dRow, u.cRow, s0, output[..], RegionAt(j, j.p.v.kDim, 0));
  }

  lemma Untouched(j: GoodJob, y: Origin, h: int, m: LM.Mem, s0: seq<int>)
    requires IsHalf(h)
    ensures TileState(j, y, h, m, h, h, s0, s0, RegionAt(j, 0, 0), false)
  {
    hide AccIs, Flip, Job.Ok;
  }

  lemma Finished(j: GoodJob, y: Origin, h: int, m: LM.Mem, dRow: int, cRow: int, s0: seq<int>, s: seq<int>, g: Region)
    requires TileState(j, y, h, m, dRow, cRow, s0, s, g, true) && Started(g)
    ensures dRow == cRow == Flip(h) && Wrote(j.Output(), s0, s, y.BoxOf(PooledAt(j, y)))
  {}

  // ---------- the loops over output tiles ----------

  /** The poch loop. */
  method ChannelTiles(u: ConvUnit, j: GoodJob, b: int, porow: int, pocol: int, output: array<int>)
    requires u.Valid() && u.dRow == u.cRow && j.Output().Size() <= output.Length
    requires 0 <= b < j.p.v.batch && 0 <= porow < j.Dim() && 0 <= pocol < j.Dim()
    modifies u, output
    ensures u.Valid() && u.dRow == u.cRow
    ensures var t := PooledAt(j, Origin(b, porow, pocol, 0));
      Wrote(j.Output(), old(output[..]), output[..],
            Box(b, b + t.nb, porow, porow + t.nr, pocol, pocol + t.nc, 0, j.p.v.outCh))
  {
    ghost var t, s0 := PooledAt(j, Origin(b, porow, pocol, 0)), output[..];
    var poch := 0;
    assert j.f.pochs > 0 && j.p.v.inDil > 0 && j.p.v.outCh >= 0;
    hide Job.Ok, Conv.Ok, Target.Size, Wrote, PoolDim, Flip;
    WroteNothing(j.Output(), s0, Box(b, b + t.nb, porow, porow + t.nr, pocol, pocol + t.nc, 0, 0));
    while poch < j.p.v.outCh
      invariant u.Valid() && u.dRow == u.cRow && poch >= 0
      invariant Wrote(j.Output(), s0, output[..],
                      Box(b, b + t.nb, porow, porow + t.nr, pocol, pocol + t.nc, 0, Min(j.p.v.outCh, poch)))
    {
      ghost var s1 := output[..];
      var y := Origin(b, porow, pocol, poch);
      OutputTile(u, j, y, output);
      WroteJoin(j.Output(), s0, s1, output[..], Box(b, b + t.nb, porow, porow + t.nr, pocol, pocol + t.nc, 0, poch),
                y.BoxOf(PooledAt(j, y)),
                Box(b, b + t.nb, porow, porow + t.nr, pocol, pocol + t.nc, 0, Min(j.p.v.outCh, poch + j.f.pochs)));
      poch := poch + j.f.pochs;
    }
  }

  /** The pocol loop. */
  method ColumnTiles(u: ConvUnit, j: GoodJob, b: int, porow: int, output: array<int>)
    requires u.Valid() && u.dRow == u.cRow && j.Output().Size() <= output.Length
    requires 0 <= b < j.p.v.batch && 0 <= porow < j.Dim()
    modifies u, output
    ensures u.Valid() && u.dRow == u.cRow
    ensures var t := PooledAt(j, Origin(b, porow, 0, 0));
      Wrote(j.Output(), old(output[..]), output[..],
            Box(b, b + t.nb, porow, porow + t.nr, 0, j.Dim(), 0, j.p.v.outCh))
  {
    ghost var t, s0 := PooledAt(j, Origin(b, porow, 0, 0)), output[..];
    var pocol := 0;
    assert j.f.pocols > 0 && j.p.v.inDil > 0;
    hide Job.Ok, Conv.Ok, Target.Size, Wrote, PoolDim;
    WroteNothing(j.Output(), s0, Box(b, b + t.nb, porow, porow + t.nr, 0, 0, 0, j.p.v.outCh));
    while pocol < j.Dim()
      invariant u.Valid() && u.dRow == u.cRow && pocol >= 0
      invariant Wrote(j.Output(), s0, output[..],
                      Box(b, b + t.nb, porow, porow + t.nr, 0, Min(j.Dim(), pocol), 0, j.p.v.outCh))
    {
      ghost var s1 := output[..];
      ghost var n := Min(j.Dim() - pocol, j.f.pocols);
      ChannelTiles(u, j, b, porow, pocol, output);
      WroteJoin(j.Output(), s0, s1, output[..], Box(b, b + t.nb, porow, porow + t.nr, 0, pocol, 0, j.p.v.outCh),
                Box(b, b + t.nb, porow, porow + t.nr, pocol, pocol + n, 0, j.p.v.outCh),
                Box(b, b + t.nb, porow, porow + t.nr, 0, Min(j.Dim(), pocol + j.f.pocols), 0, j.p.v.outCh));
      pocol := pocol + j.f.pocols;
    }
  }

  /** The porow loop. */
  method RowTiles(u: ConvUnit, j: GoodJob, b: int, output: array<int>)
    requires u.Valid() && u.dRow == u.cRow && j.Output().Size() <= output.Length && 0 <= b < j.p.v.batch
    modifies u, output
    ensures u.Valid() && u.dRow == u.cRow
    ensures Wrote(j.Output(), old(output[..]), output[..],
                  Box(b, b + Min(j.p.v.batch - b, j.f.batches), 0, j.Dim(), 0, j.Dim(), 0, j.p.v.outCh))
  {
    ghost var nb, s0 := Min(j.p.v.batch - b, j.f.batches), output[..];
    var v, porow := j.p.v, 0;
    assert j.f.porows > 0 && v.inDil > 0;
    hide Job.Ok, Conv.Ok, Target.Size, Wrote, PoolDim;
    WroteNothing(j.Output(), s0, Box(b, b + nb, 0, 0, 0, j.Dim(), 0, v.outCh));
    while porow < j.Dim()
      invariant u.Valid() && u.dRow == u.cRow && porow >= 0
      invariant Wrote(j.Output(), s0, output[..], Box(b, b + nb, 0, Min(j.Dim(), porow), 0, j.Dim(), 0, v.outCh))
    {
      ghost var s1 := output[..];
      ghost var n := Min(j.Dim() - porow, j.f.porows);
      ColumnTiles(u, j, b, porow, output);
      WroteJoin(j.Output(), s0, s1, output[..], Box(b, b + nb, 0, porow, 0, j.Dim(), 0, v.outCh),
                Box(b, b + nb, porow, porow + n, 0, j.Dim(), 0, v.outCh),
                Box(b, b + nb, 0, Min(j.Dim(), porow + j.f.porows), 0, j.Dim(), 0, v.outCh));
      porow := porow + j.f.porows;
    }
  }

  /** The whole layer, whatever the tile sizes: exactly what conv_cpu_without_pool leaves. The two
      static offsets end equal, ready for the next layer. */
  method TiledConvOuter(u: ConvUnit, j: GoodJob, output: array<int>)
    requires u.Valid() && u.dRow == u.cRow && j.Output().Size() <= output.Length
    modifies u, output
    ensures u.Valid() && u.dRow == u.cRow
    ensures Filled(j.Output(), old(output[..]), output[..])
  {
    ghost var s0 := output[..];
    var v, b := j.p.v, 0;
    assert j.f.batches > 0 && v.inDil > 0;
    hide Job.Ok, Conv.Ok, Target.Size, Wrote, PoolDim;
    WroteNothing(j.Output(), s0, Box(0, 0, 0, j.Dim(), 0, j.Dim(), 0, v.outCh));
    while b < v.batch
      invariant u.Valid() && u.dRow == u.cRow && b >= 0
      invariant Wrote(j.Output(), s0, output[..], Box(0, Min(v.batch, b), 0, j.Dim(), 0, j.Dim(), 0, v.outCh))
    {
      ghost var s1 := output[..];
      ghost var n := Min(v.batch - b, j.f.batches);
      RowTiles(u, j, b, output);
      WroteJoin(j.Output(), s0, s1, output[..], Box(0, b, 0, j.Dim(), 0, j.Dim(), 0, v.outCh),
                Box(b, b + n, 0, j.Dim(), 0, j.Dim(), 0, v.outCh),
                Box(0, Min(v.batch, b + j.f.batches), 0, j.Dim(), 0, j.Dim(), 0, v.outCh));
      b := b + j.f.batches;
    }
  }
}
