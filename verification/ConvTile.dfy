/** sp_tiled_conv_A_stride: one kernel and channel slice over one output tile. The work itself is
    done by the accelerator's convolution loop; its meaning is taken from the software loops the
    function documents it with. */
module ConvTile {
  import opened Arith
  import opened Config
  import opened ConvDirect
  import opened ConvPool
  import opened ConvSpec
  import opened Sums3
  import opened Tensor
  import G = Accelerator
  import LM = LocalMemory

  /** A tile of nb images, nr x nc pixels and no channels. Its accumulator rows hold DIM channels
      of one pixel each. */
  datatype TileShape = TileShape(nb: int, nr: int, nc: int, no: int) {
    predicate Ok() { nb > 0 && nr > 0 && nc > 0 && no > 0 }
    predicate In(b: int, r: int, c: int, o: int) { 0 <= b < nb && 0 <= r < nr && 0 <= c < nc && 0 <= o < no }
    function Rows(): int { CeilDiv(no, DIM) * nb * nr * nc }
    function RowAt(b: int, r: int, c: int, o: int): int { Ix4(nb, nr, nc, o / DIM, b, r, c) }
  }

  type GoodShape = t: TileShape | t.Ok() witness TileShape(1, 1, 1, 1)

  type TileFn = (int, int, int, int) -> int

  /** Accumulator cell of a tile element. */
  function Val(m: LM.Mem, t: TileShape, base: int, b: int, r: int, c: int, o: int): int {
    LM.Cell(m, base + t.RowAt(b, r, c, o), o % DIM)
  }

  /** Channel held by lane `lane` of accumulator row n of a tile. */
  function ChannelOf(t: GoodShape, n: int, lane: int): int { BlockAt(t, n) * DIM + lane }

  function BlockAt(t: GoodShape, n: int): int { n / t.nc / t.nr / t.nb }
  function BatchAt(t: GoodShape, n: int): int { n / t.nc / t.nr % t.nb }
  function RowAt(t: GoodShape, n: int): int { n / t.nc % t.nr }
  function ColAt(t: GoodShape, n: int): int { n % t.nc }

  predicate Hits(t: GoodShape, n: int, lane: int) { 0 <= n && ChannelOf(t, n, lane) < t.no }

  function ElementOf(t: GoodShape, f: TileFn, n: int, lane: int): int {
    f(BatchAt(t, n), RowAt(t, n), ColAt(t, n), ChannelOf(t, n, lane))
  }

  /** The accumulator after f is written to, or added to, every element of a tile. */
  function TileUpdate(m: LM.Mem, t: GoodShape, base: int, accumulate: bool, f: TileFn): (m': LM.Mem)
    ensures LM.Shape(m', ACC_ROWS)
  {
    LM.Build(ACC_ROWS, (row, lane) =>
      if Hits(t, row - base, lane)
      then (if accumulate then LM.Cell(m, row, lane) else 0) + ElementOf(t, f, row - base, lane)
      else LM.Cell(m, row, lane))
  }

  lemma Decode(t: GoodShape, f: TileFn, b: int, r: int, c: int, o: int)
    requires t.In(b, r, c, o)
    ensures var n, lane := t.RowAt(b, r, c, o), o % DIM;
      0 <= n < t.Rows() && Hits(t, n, lane) && ElementOf(t, f, n, lane) == f(b, r, c, o)
  {
    RowDigits(t, b, r, c, o);
    hide TileShape.RowAt, TileShape.Rows, BlockAt, BatchAt, RowAt, ColAt;
    Recompose(o);
  }

  lemma Recompose(o: int)
    ensures o / DIM * DIM + o % DIM == o
  {}

  lemma RowDigits(t: GoodShape, b: int, r: int, c: int, o: int)
    requires t.In(b, r, c, o)
    ensures var n := t.RowAt(b, r, c, o);
      && 0 <= n < t.Rows()
      && ColAt(t, n) == c && RowAt(t, n) == r && BatchAt(t, n) == b && BlockAt(t, n) == o / DIM
  {
    BlockBound(o, t.no);
    hide CeilDiv, Ix4;
    Ix4Bound(CeilDiv(t.no, DIM), t.nb, t.nr, t.nc, o / DIM, b, r, c);
    Ix4Digits(t.nb, t.nr, t.nc, o / DIM, b, r, c);
  }

  lemma BlockBound(o: int, no: int)
    requires 0 <= o < no
    ensures 0 <= o / DIM < CeilDiv(no, DIM)
  {
    DivMul(o, DIM);
    MulLtCancel(-1, o / DIM, DIM);
    MulLtCancel(o / DIM, CeilDiv(no, DIM), DIM);
  }

  lemma HitsInside(t: GoodShape, n: int, lane: int)
    requires Hits(t, n, lane) && 0 <= lane
    ensures n < t.Rows()
  {
    var k := n / t.nc / t.nr / t.nb;
    MulLtCancel(k, CeilDiv(t.no, DIM), DIM);
    hide CeilDiv;
    QuotientBound(n / t.nc / t.nr, t.nb, CeilDiv(t.no, DIM));
    QuotientBound(n / t.nc, t.nr, CeilDiv(t.no, DIM) * t.nb);
    QuotientBound(n, t.nc, CeilDiv(t.no, DIM) * t.nb * t.nr);
  }

  /** An update reaches exactly the elements of its tile. */
  lemma TileUpdateAt(m: LM.Mem, t: GoodShape, base: int, accumulate: bool, f: TileFn, b: int, r: int, c: int, o: int)
    requires 0 <= base && base + t.Rows() <= ACC_ROWS && t.In(b, r, c, o)
    ensures Val(TileUpdate(m, t, base, accumulate, f), t, base, b, r, c, o)
         == (if accumulate then Val(m, t, base, b, r, c, o) else 0) + f(b, r, c, o)
  {
    Decode(t, f, b, r, c, o);
    hide TileShape.RowAt, TileShape.Rows, Hits, ElementOf, TileShape.Ok;
  }

  /** Tiles in different halves of the accumulator do not meet. */
  lemma TileUpdateElsewhere(m: LM.Mem, t: GoodShape, base: int, other: int, accumulate: bool, f: TileFn,
                            b: int, r: int, c: int, o: int)
    requires 0 <= other && other + t.Rows() <= ACC_ROWS && t.In(b, r, c, o)
    requires base + t.Rows() <= other || other + t.Rows() <= base
    ensures Val(TileUpdate(m, t, base, accumulate, f), t, other, b, r, c, o) == Val(m, t, other, b, r, c, o)
  {
    Decode(t, f, b, r, c, o);
    hide TileShape.RowAt, TileShape.Rows, Hits, ElementOf, TileShape.Ok;
    var row := other + t.RowAt(b, r, c, o);
    if Hits(t, row - base, o % DIM) {
      HitsInside(t, row - base, o % DIM);
    }
  }

  // ---------- the arguments of one call ----------

  datatype BiasArg = Skip | Zeros | From(och: int)

  /** What a call computes. Pointers are element offsets into the layer's buffers. */
  datatype Tile = Tile(shape: TileShape, krows: int, kcols: int, kchs: int, lpad: int, rpad: int, upad: int, dpad: int,
                       input: int, weights: int, bias: BiasArg)
  {
    function Dilated(v: Layer, k: int): int { k + (v.kDil - 1) * (k - 1) }

    /** Image rows under the tile that are not padding; of a dilated image, those that hold pixels. */
    function IrowsUnpadded(v: Layer): int {
      Pixels(v, shape.nr * v.stride + Dilated(v, krows) - 1 - upad - dpad)
    }

    function IcolsUnpadded(v: Layer): int {
      Pixels(v, shape.nc * v.stride + Dilated(v, kcols) - 1 - lpad - rpad)
    }

    /** Input value at padded tile position (y, x). Positions between the pixels of a dilated image
        are skipped. */
    function Pixel(p: Conv, b: int, y: int, x: int, ch: int): int {
      var irow, icol := y - upad, x - lpad;
      if Hit(p.v, irow, IrowsUnpadded(p.v)) && Hit(p.v, icol, IcolsUnpadded(p.v))
      then At(p.input, input + p.v.InIx(b, Undilate(p.v, irow), Undilate(p.v, icol), ch)) else 0
    }

    function Rot(v: Layer, k: int, n: int): int { if v.wrot180 then n - k - 1 else k }

    function Tap(p: Conv, b: int, r: int, c: int, o: int): Fn3 {
      (kr, kc, ch) => At(p.weights, weights + p.v.WIx(Rot(p.v, kr, krows), Rot(p.v, kc, kcols), ch, o))
                      * Pixel(p, b, r * p.v.stride + kr * p.v.kDil, c * p.v.stride + kc * p.v.kDil, ch)
    }

    /** What the slice adds to an element. */
    function Slice(p: Conv): TileFn {
      (b, r, c, o) => Sum3(Tap(p, b, r, c, o), 0, krows, 0, kcols, 0, kchs)
    }

    function BiasFn(p: Conv): TileFn {
      (b, r, c, o) => if bias.From? && p.bias.Some? then At(p.bias.value, bias.och + o) else 0
    }
  }

  // ---------- input dilation, which the accelerator knows for a factor of two ----------

  function Undilate(v: Layer, y: int): int { if v.inDil == 2 then y / 2 else y }

  /** UNDILATED, where it rounds up. */
  function Pixels(v: Layer, n: int): int { if v.inDil == 2 then CDiv(n + 1, 2) else n }

  /** Position y, counted from the first pixel, is one of n pixels. */
  predicate Hit(v: Layer, y: int, n: int) { (v.inDil == 2 ==> y % 2 == 0) && 0 <= Undilate(v, y) < n }

  function Flip(row: int): int { (row + ACC_ROWS / 2) % ACC_ROWS }

  predicate IsHalf(row: int) { row == 0 || row == ACC_ROWS / 2 }

  lemma FlipHalf(row: int)
    requires IsHalf(row)
    ensures IsHalf(Flip(row)) && Flip(row) != row && Flip(Flip(row)) == row
  {
    HalfTurn(ACC_ROWS);
  }

  lemma HalfTurn(n: int)
    requires n > 0 && n % 2 == 0
    ensures (0 + n / 2) % n == n / 2 && (n / 2 + n / 2) % n == 0 && n / 2 != 0
  {
    var h := n / 2;
    assert h + h == n && h > 0;
    DivUnique(h, n, 0);
    DivUnique(h + h, n, 1);
  }

  // ---------- the results ----------

  /** How the results of a tile leave: the pooled tile they make, where its windows lie, and the
      side of the output image. Without pooling the window is 1 x 1. */
  datatype Leaving = Leaving(q: Pooling, noPool: bool, pooled: TileShape, up: int, left: int, dim: int)

  /** Position of a tile's first element in the output. */
  datatype Origin = Origin(b: int, r: int, c: int, o: int) {
    function BoxOf(t: TileShape): Box { Box(b, b + t.nb, r, r + t.nr, c, c + t.nc, o, o + t.no) }
    predicate Inside(v: Layer, dim: int, t: TileShape) {
      0 <= b && b + t.nb <= v.batch && 0 <= r && r + t.nr <= dim && 0 <= c && c + t.nc <= dim
      && 0 <= o && o + t.no <= v.outCh
    }
  }

  /** A pooling window over the tile in accumulator m; what lies outside the tile counts as zero. */
  function TileWindow(p: GoodConv, m: LM.Mem, t: TileShape, base: int, a: Leaving, b: int, r: int, c: int,
                      o: int): Window
  {
    (wr, wc) =>
      var y, x := r * a.q.stride + wr - a.up, c * a.q.stride + wc - a.left;
      if 0 <= y < t.nr && 0 <= x < t.nc then p.Out(Val(m, t, base, b, y, x, o)) else 0
  }

  /** One element as it leaves accumulator m. */
  function Drained(p: GoodConv, m: LM.Mem, t: TileShape, base: int, a: Leaving, b: int, r: int, c: int, o: int): int {
    if a.noPool then p.Out(Val(m, t, base, b, r, c, o))
    else WindowMax(TileWindow(p, m, t, base, a, b, r, c, o), a.q.size, a.q.size, ELEM_MIN)
  }

  /** The output array of a layer, dim pixels square. */
  function OutputOf(p: GoodConv, dim: int): Target { Target(p.v.batch, dim, dim, p.v.outCh, p.v.transOut, p.Cell()) }

  /** The output array with the elements of a tile as they leave the accumulator. */
  function DrainTarget(p: GoodConv, m: LM.Mem, t: TileShape, base: int, a: Leaving, x: Origin): Target {
    OutputOf(p, a.dim).(cell := (b, r, c, o) => Drained(p, m, t, base, a, b - x.b, r - x.r, c - x.c, o - x.o))
  }

  lemma DrainIndex(p: GoodConv, m: LM.Mem, t: TileShape, base: int, a: Leaving, x: Origin, b: int, r: int, c: int,
                   o: int)
    ensures OutputOf(p, a.dim).Ix(x.b, x.r, x.c, x.o) + OutputIndex(p.v.(outDim := a.dim), b, r, c, o)
         == DrainTarget(p, m, t, base, a, x).Ix(x.b + b, x.r + r, x.c + c, x.o + o)
  {
    var v := p.v;
    Ix4Flat(a.dim, v.batch, v.outCh, r, c, b, o);
    Ix4Flat(a.dim, a.dim, v.outCh, b, r, c, o);
    Ix4Linear(a.dim, v.batch, v.outCh, x.r, x.c, x.b, x.o, r, c, b, o);
    Ix4Linear(a.dim, a.dim, v.outCh, x.b, x.r, x.c, x.o, b, r, c, o);
    hide Ix4, Conv.Acc;
  }

  /** The tile's place in the output, and the pointer to its first element. */
  ghost predicate Placed(p: GoodConv, a: Leaving, out: int, output: seq<int>, x: Origin) {
    && x.Inside(p.v, a.dim, a.pooled) && out == OutputOf(p, a.dim).Ix(x.b, x.r, x.c, x.o)
    && OutputOf(p, a.dim).Size() <= |output|
  }

  method StoreElement(p: GoodConv, m: LM.Mem, t: GoodShape, base: int, a: Leaving, out: int, output: array<int>,
                      b: int, orow: int, ocol: int, och: int, ghost x: Origin)
    requires Placed(p, a, out, output[..], x) && a.pooled.In(b, orow, ocol, och)
    modifies output
    ensures Wrote(DrainTarget(p, m, t, base, a, x), old(output[..]), output[..],
                  Box(x.b + b, x.b + b + 1, x.r + orow, x.r + orow + 1, x.c + ocol, x.c + ocol + 1, x.o + och,
                      x.o + och + 1))
  {
    ghost var u := DrainTarget(p, m, t, base, a, x);
    assert u.Size() <= |output[..]| && u.In(x.b + b, x.r + orow, x.c + ocol, x.o + och);
    assert u.cell(x.b + b, x.r + orow, x.c + ocol, x.o + och) == Drained(p, m, t, base, a, b, orow, ocol, och);
    DrainIndex(p, m, t, base, a, x, b, orow, ocol, och);
    hide Conv.Ok, Target.Size, Target.Ix, Conv.Acc, OutputIndex, Drained, Wrote;
    WroteOne(u, output[..], x.b + b, x.r + orow, x.c + ocol, x.o + och);
    output[out + OutputIndex(p.v.(outDim := a.dim), b, orow, ocol, och)] := Drained(p, m, t, base, a, b, orow, ocol,
        och);
  }

  /** The elements of one row of the tile. */
  method StoreRow(p: GoodConv, m: LM.Mem, t: GoodShape, base: int, a: Leaving, out: int, output: array<int>, b: int,
                  orow: int, ghost x: Origin)
    requires Placed(p, a, out, output[..], x) && 0 <= b < a.pooled.nb && 0 <= orow < a.pooled.nr && a.pooled.Ok()
    modifies output
    ensures Wrote(DrainTarget(p, m, t, base, a, x), old(output[..]), output[..],
                  Box(x.b + b, x.b + b + 1, x.r + orow, x.r + orow + 1, x.c, x.c + a.pooled.nc, x.o, x.o + a.pooled.no))
  {
    ghost var u := DrainTarget(p, m, t, base, a, x);
    ghost var s0 := output[..];
    PlacedFits(p, m, t, base, a, out, s0, x);
    hide Conv.Ok, Target.Size, Target.Ix, Conv.Acc, DrainTarget, Wrote;
    WroteNothing(u, s0, Box(x.b + b, x.b + b + 1, x.r + orow, x.r + orow + 1, x.c, x.c, x.o, x.o + a.pooled.no));
    for ocol := 0 to a.pooled.nc
      invariant Wrote(u, s0, output[..], Box(x.b + b, x.b + b + 1, x.r + orow, x.r + orow + 1, x.c, x.c + ocol, x.o,
                                             x.o + a.pooled.no))
    {
      ghost var s1 := output[..];
      StorePixel(p, m, t, base, a, out, output, b, orow, ocol, x);
      WroteJoin(u, s0, s1, output[..],
                Box(x.b + b, x.b + b + 1, x.r + orow, x.r + orow + 1, x.c, x.c + ocol, x.o, x.o + a.pooled.no),
                Box(x.b + b, x.b + b + 1, x.r + orow, x.r + orow + 1, x.c + ocol, x.c + ocol + 1, x.o,
                    x.o + a.pooled.no),
                Box(x.b + b, x.b + b + 1, x.r + orow, x.r + orow + 1, x.c, x.c + ocol + 1, x.o, x.o + a.pooled.no));
    }
  }

  lemma PlacedFits(p: GoodConv, m: LM.Mem, t: GoodShape, base: int, a: Leaving, out: int, s: seq<int>, x: Origin)
    requires Placed(p, a, out, s, x)
    ensures DrainTarget(p, m, t, base, a, x).Size() <= |s|
  {}

  method StorePixel(p: GoodConv, m: LM.Mem, t: GoodShape, base: int, a: Leaving, out: int, output: array<int>, b: int,
                    orow: int, ocol: int, ghost x: Origin)
    requires Placed(p, a, out, output[..], x) && a.pooled.Ok()
    requires 0 <= b < a.pooled.nb && 0 <= orow < a.pooled.nr && 0 <= ocol < a.pooled.nc
    modifies output
    ensures Wrote(DrainTarget(p, m, t, base, a, x), old(output[..]), output[..],
                  Box(x.b + b, x.b + b + 1, x.r + orow, x.r + orow + 1, x.c + ocol, x.c + ocol + 1, x.o,
                      x.o + a.pooled.no))
  {
    ghost var u := DrainTarget(p, m, t, base, a, x);
    ghost var s1 := output[..];
    PlacedFits(p, m, t, base, a, out, s1, x);
    hide Conv.Ok, Target.Size, Target.Ix, Conv.Acc, DrainTarget, Wrote;
    WroteNothing(u, s1, Box(x.b + b, x.b + b + 1, x.r + orow, x.r + orow + 1, x.c + ocol, x.c + ocol + 1, x.o, x.o));
    for och := 0 to a.pooled.no
      invariant Wrote(u, s1, output[..], Box(x.b + b, x.b + b + 1, x.r + orow, x.r + orow + 1,
                                             x.c + ocol, x.c + ocol + 1, x.o, x.o + och))
    {
      ghost var s2 := output[..];
      StoreElement(p, m, t, base, a, out, output, b, orow, ocol, och, x);
      WroteJoin(u, s1, s2, output[..],
                Box(x.b + b, x.b + b + 1, x.r + orow, x.r + orow + 1, x.c + ocol, x.c + ocol + 1, x.o, x.o + och),
                Box(x.b + b, x.b + b + 1, x.r + orow, x.r + orow + 1, x.c + ocol, x.c + ocol + 1, x.o + och,
                    x.o + och + 1),
                Box(x.b + b, x.b + b + 1, x.r + orow, x.r + orow + 1, x.c + ocol, x.c + ocol + 1, x.o, x.o + och + 1));
    }
  }

  /** The elements of one image of the tile. */
  method StoreImage(p: GoodConv, m: LM.Mem, t: GoodShape, base: int, a: Leaving, out: int, output: array<int>, b: int,
                    ghost x: Origin)
    requires Placed(p, a, out, output[..], x) && a.pooled.Ok() && 0 <= b < a.pooled.nb
    modifies output
    ensures Wrote(DrainTarget(p, m, t, base, a, x), old(output[..]), output[..],
                  Box(x.b + b, x.b + b + 1, x.r, x.r + a.pooled.nr, x.c, x.c + a.pooled.nc, x.o, x.o + a.pooled.no))
    ensures Placed(p, a, out, output[..], x)
  {
    ghost var u := DrainTarget(p, m, t, base, a, x);
    ghost var s1 := output[..];
    var n := a.pooled;
    hide Conv.Ok, Target.Size, Target.Ix, Conv.Acc, DrainTarget, Wrote, Placed;
    PlacedFits(p, m, t, base, a, out, s1, x);
    WroteNothing(u, s1, Box(x.b + b, x.b + b + 1, x.r, x.r, x.c, x.c + n.nc, x.o, x.o + n.no));
    for orow := 0 to n.nr
      invariant Wrote(u, s1, output[..], Box(x.b + b, x.b + b + 1, x.r, x.r + orow, x.c, x.c + n.nc, x.o, x.o + n.no))
      invariant Placed(p, a, out, output[..], x)
    {
      ghost var s2 := output[..];
      StoreRow(p, m, t, base, a, out, output, b, orow, x);
      StillPlaced(p, a, out, s2, output[..], x);
      WroteJoin(u, s1, s2, output[..], Box(x.b + b, x.b + b + 1, x.r, x.r + orow, x.c, x.c + n.nc, x.o, x.o + n.no),
                Box(x.b + b, x.b + b + 1, x.r + orow, x.r + orow + 1, x.c, x.c + n.nc, x.o, x.o + n.no),
                Box(x.b + b, x.b + b + 1, x.r, x.r + orow + 1, x.c, x.c + n.nc, x.o, x.o + n.no));
    }
  }

  lemma StillPlaced(p: GoodConv, a: Leaving, out: int, s: seq<int>, s': seq<int>, x: Origin)
    requires Placed(p, a, out, s, x) && |s'| == |s|
    ensures Placed(p, a, out, s', x)
  {}

  /** The mvouts of a call, pooling or not. */
  method StoreTile(p: GoodConv, m: LM.Mem, t: GoodShape, base: int, a: Leaving, out: int, output: array<int>,
                   ghost x: Origin)
    requires Placed(p, a, out, output[..], x) && a.pooled.Ok()
    modifies output
    ensures Wrote(DrainTarget(p, m, t, base, a, x), old(output[..]), output[..], x.BoxOf(a.pooled))
  {
    ghost var u := DrainTarget(p, m, t, base, a, x);
    ghost var s0 := output[..];
    var n := a.pooled;
    hide Conv.Ok, Target.Size, Target.Ix, Conv.Acc, DrainTarget, Wrote, Placed;
    PlacedFits(p, m, t, base, a, out, s0, x);
    WroteNothing(u, s0, Box(x.b, x.b, x.r, x.r + n.nr, x.c, x.c + n.nc, x.o, x.o + n.no));
    for b := 0 to n.nb
      invariant Wrote(u, s0, output[..], Box(x.b, x.b + b, x.r, x.r + n.nr, x.c, x.c + n.nc, x.o, x.o + n.no))
      invariant Placed(p, a, out, output[..], x)
    {
      ghost var s1 := output[..];
      StoreImage(p, m, t, base, a, out, output, b, x);
      WroteJoin(u, s0, s1, output[..], Box(x.b, x.b + b, x.r, x.r + n.nr, x.c, x.c + n.nc, x.o, x.o + n.no),
                Box(x.b + b, x.b + b + 1, x.r, x.r + n.nr, x.c, x.c + n.nc, x.o, x.o + n.no),
                Box(x.b, x.b + b + 1, x.r, x.r + n.nr, x.c, x.c + n.nc, x.o, x.o + n.no));
    }
  }

  /** Value an element starts from: what the bias load put in its half, else what was there. */
  function StartVal(p: GoodConv, t: Tile, m: LM.Mem, dRow: int, cRow: int, b: int, r: int, c: int, o: int): int {
    if t.bias != Skip && dRow == cRow then t.BiasFn(p)(b, r, c, o) else Val(m, t.shape, cRow, b, r, c, o)
  }

  /** From m to m', the C half has gained the slice, on top of the bias if that was just loaded there. */
  ghost predicate Accumulated(p: GoodConv, t: Tile, m: LM.Mem, m': LM.Mem, dRow: int, cRow: int) {
    forall b, r, c, o :: t.shape.In(b, r, c, o) ==>
      Val(m', t.shape, cRow, b, r, c, o) == StartVal(p, t, m, dRow, cRow, b, r, c, o) + t.Slice(p)(b, r, c, o)
  }

  /** The accumulator and the two static row offsets of sp_tiled_conv_A_stride. */
  class ConvUnit {
    var acc: LM.Mem
    var dRow: int    // D_sp_addr_row
    var cRow: int    // C_sp_addr_row

    ghost predicate Valid()
      reads this
    {
      LM.Shape(acc, ACC_ROWS) && IsHalf(dRow) && IsHalf(cRow)
    }

    constructor ()
      ensures Valid() && dRow == cRow == 0
    {
      acc := LM.Build(ACC_ROWS, (r, c) => 0);
      dRow := 0;
      cRow := 0;
    }

    /** Bias and products, up to the mvouts. */
    method Accumulate(p: GoodConv, t: Tile)
      requires Valid() && t.shape.Ok() && t.shape.Rows() <= ACC_ROWS / 2
      modifies `acc, `dRow
      ensures Valid()
      ensures dRow == if t.bias == Skip then old(dRow) else Flip(old(dRow))
      ensures Accumulated(p, t, old(acc), acc, old(dRow), cRow)
    {
      var dAddr := 0x8000_0000 + dRow;
      var cAddr := 0xC000_0000 + cRow;
      Addresses(dRow, cRow);
      FlipHalf(dRow);
      Loaded(p, t, acc, dRow, cRow);
      hide Conv.Ok, TileShape.Rows, Val, Tile.Slice, Accumulated, G.RowOf, G.Accumulates, G.IsAcc;
      if t.bias != Skip {
        acc := TileUpdate(acc, t.shape, G.RowOf(dAddr), G.Accumulates(dAddr), t.BiasFn(p));
        dRow := (dRow + ACC_ROWS / 2) % ACC_ROWS;
      }
      acc := TileUpdate(acc, t.shape, G.RowOf(cAddr), G.Accumulates(cAddr), t.Slice(p));
    }

    /** One inner call; a null output is None. */
    method SpTiledConv(p: GoodConv, t: Tile, a: Leaving, out: Option<int>, output: array<int>, ghost x: Origin)
      requires Valid() && t.shape.Ok() && t.shape.Rows() <= ACC_ROWS / 2 && a.pooled.Ok()
      requires out.Some? ==> Placed(p, a, out.value, output[..], x)
      modifies this, output
      ensures Valid()
      ensures dRow == if t.bias == Skip then old(dRow) else Flip(old(dRow))
      ensures cRow == if out.None? then old(cRow) else Flip(old(cRow))
      ensures Accumulated(p, t, old(acc), acc, old(dRow), old(cRow))
      ensures if out.None? then output[..] == old(output[..])
              else Wrote(DrainTarget(p, acc, t.shape, old(cRow), a, x), old(output[..]), output[..], x.BoxOf(a.pooled))
    {
      hide Conv.Ok, TileShape.Rows, Accumulated, Wrote, Target.Size, Target.Ix, Placed, DrainTarget;
      Accumulate(p, t);
      if out.Some? {
        FlipHalf(cRow);
        StoreTile(p, acc, t.shape, cRow, a, out.value, output, x);
        cRow := (cRow + ACC_ROWS / 2) % ACC_ROWS;
      }
    }
  }

  lemma Addresses(dRow: int, cRow: int)
    requires IsHalf(dRow) && IsHalf(cRow)
    ensures G.IsAcc(0x8000_0000 + dRow) && G.RowOf(0x8000_0000 + dRow) == dRow && !G.Accumulates(0x8000_0000 + dRow)
    ensures G.IsAcc(0xC000_0000 + cRow) && G.RowOf(0xC000_0000 + cRow) == cRow && G.Accumulates(0xC000_0000 + cRow)
  {
    G.AccAddress(4, dRow);
    G.AccAddress(6, cRow);
  }

  function AfterBias(p: GoodConv, t: Tile, m: LM.Mem, dRow: int): LM.Mem
    requires t.shape.Ok()
  {
    if t.bias == Skip then m else TileUpdate(m, t.shape, dRow, false, t.BiasFn(p))
  }

  lemma Loaded(p: GoodConv, t: Tile, m: LM.Mem, dRow: int, cRow: int)
    requires t.shape.Ok() && t.shape.Rows() <= ACC_ROWS / 2 && IsHalf(dRow) && IsHalf(cRow)
    ensures Accumulated(p, t, m, TileUpdate(AfterBias(p, t, m, dRow), t.shape, cRow, true, t.Slice(p)), dRow, cRow)
  {
    HalfTurn(ACC_ROWS);
    forall b, r, c, o | t.shape.In(b, r, c, o)
      ensures Val(TileUpdate(AfterBias(p, t, m, dRow), t.shape, cRow, true, t.Slice(p)), t.shape, cRow, b, r, c, o)
        == StartVal(p, t, m, dRow, cRow, b, r, c, o) + t.Slice(p)(b, r, c, o)
    {
      hide TileUpdate, Val, TileShape.Rows, Tile.Slice, Tile.BiasFn, Conv.Ok;
      TileUpdateAt(AfterBias(p, t, m, dRow), t.shape, cRow, true, t.Slice(p), b, r, c, o);
      if dRow == cRow {
        TileUpdateAt(m, t.shape, dRow, false, t.BiasFn(p), b, r, c, o);
      } else {
        TileUpdateElsewhere(m, t.shape, dRow, cRow, false, t.BiasFn(p), b, r, c, o);
      }
    }
  }
}
