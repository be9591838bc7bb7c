/** tiled_conv_A_stride with its argument checks, and tiled_conv_A_stride_auto. */
module ConvAuto {
  import opened Config
  import opened Arith
  import opened ConvLayout
  import opened ConvPool
  import opened ConvRoom
  import opened ConvRows
  import opened ConvSearch
  import opened ConvSpec
  import opened ConvTile
  import opened Tensor
  import T = TiledConv

  datatype Status =
    | Done
    | BothWeightTransposes
    | UnsupportedOs
    | ScratchpadTooSmall
    | AccumulatorTooSmall
    | PaddingTooLarge
    | InputDilationTooLarge
    | InputDilationStrided
    | TransposedPoolOutput
    | BothTransposed

  /** The flag of the same name in tiled_conv_A_stride_auto. */
  predicate SearchDownsamples(v: Layer, q: Pooling) {
    v.stride == 2 && v.kDim == 1 && v.padding == 0 && q.stride == 0 && v.inDim % 2 == 0
  }

  /** The assertion blocks of tiled_conv_A_stride, in source order. */
  function Check(v: Layer, q: Pooling, f: T.Factors, kind: Kind): Status
    requires Sensible(v, q)
  {
    var g := GeometryOf(v, q, Downsamples(v, q));
    if v.transW1203 && v.transW0132 then BothWeightTransposes
    else if kind == CPU then Done
    else if kind == OS then UnsupportedOs
    else if TotalRows(false, g, Args(f)) > MAX_SPAD_ROWS then ScratchpadTooSmall
    else if TotalRows(true, g, Args(f)) > MAX_ACC_ROWS then AccumulatorTooSmall
    else LayerCheck(v, q)
  }

  /** The checks that do not depend on the tile sizes. */
  function LayerCheck(v: Layer, q: Pooling): Status {
    if v.kDim <= v.padding then PaddingTooLarge
    else if v.inDil > 2 then InputDilationTooLarge
    else if v.inDil > 1 && v.stride > 1 then InputDilationStrided
    else if v.transOut && q.stride != 0 then TransposedPoolOutput
    else if v.transIn && v.transW0132 then BothTransposed
    else Done
  }

  /** tiled_conv_A_stride runs: on the CPU unless the weights are transposed both ways, on the array if the
      tile also finds room and the layer is one the array can do. */
  ghost predicate Accepted(v: Layer, q: Pooling, f: T.Factors, kind: Kind) {
    && !(v.transW1203 && v.transW0132)
    && kind != OS
    && (kind == WS ==>
         && SpadRoom(v, q, f) && AccRoom(q, f)
         && v.padding < v.kDim
         && (v.inDil == 1 || (v.inDil == 2 && v.stride == 1))
         && (v.transOut ==> q.stride == 0)
         && !(v.transIn && v.transW0132))
  }

  /** The checks let through what is accepted and nothing else, and every refusal names a cause. */
  lemma CheckIs(v: Layer, q: Pooling, f: T.Factors, kind: Kind)
    requires Sensible(v, q) && f.Ok()
    ensures var r := Check(v, q, f, kind);
      && (r == Done <==> Accepted(v, q, f, kind))
      && (r == BothWeightTransposes <==> v.transW1203 && v.transW0132)
      && (r == UnsupportedOs ==> kind == OS)
      && (r == ScratchpadTooSmall && v.inDil <= 2 ==> kind == WS && !SpadRoom(v, q, f))
      && (r == AccumulatorTooSmall ==> kind == WS && !AccRoom(q, f))
      && (r == PaddingTooLarge ==> kind == WS && v.padding >= v.kDim)
      && (r == InputDilationTooLarge ==> kind == WS && v.inDil > 2)
      && (r == InputDilationStrided ==> kind == WS && v.inDil == 2 && v.stride > 1)
      && (r == TransposedPoolOutput ==> kind == WS && v.transOut && q.stride != 0)
      && (r == BothTransposed ==> kind == WS && v.transIn && v.transW0132)
  {
    if v.inDil <= 2 { SpadRoomIff(v, q, f); }
    AccRoomIff(v, q, f);
    hide SpadRoom, AccRoom, TotalRows, Downsamples, GeometryOf;
  }

  /** Pooling as conv_cpu is given it. */
  function CpuPooling(q: Pooling): Pooling {
    if q.size == 1 && q.stride == 1 && q.padding == 0 then q.(stride := 0) else q
  }

  /** The output a layer is meant to have, pooled or not. */
  function Expected(p: GoodConv, q: Pooling): Target
    requires q.stride >= 0
  {
    if q.stride == 0 then p.Output() else FusedOutput(p, q)
  }

  /** On the accelerator: a layer with something to sum, and pooling windows that reach into the image. */
  ghost predicate OnArray(p: Conv, q: Pooling) {
    && p.v.kDim >= 1 && p.v.inCh >= 1
    && (q.stride != 0 ==> 0 <= q.padding < q.size && p.v.outDim >= 1)
  }

  /** A tiling that passes the checks is one the loops can run with. */
  lemma CheckedJob(p: GoodConv, q: Pooling, f: T.Factors)
    requires Sensible(p.v, q) && f.Ok() && OnArray(p, q) && Check(p.v, q, f, WS) == Done
    ensures T.Job(p, PoolingOf(q), q.stride == 0, f).Ok()
  {
    CheckedRows(p.v, q, f);
    hide TileShape.Rows, TotalRows, Conv.Ok;
  }

  lemma CheckedRows(v: Layer, q: Pooling, f: T.Factors)
    requires Sensible(v, q)
    ensures f.Full(PoolingOf(q)).Rows() == TotalRows(true, GeometryOf(v, q, Downsamples(v, q)), Args(f))
  {}

  /** A 1 x 1 window leaves the convolution as it is. */
  lemma UnitPool(p: GoodConv, x: seq<int>, y: seq<int>)
    requires Filled(FusedOutput(p, T.NO_WINDOW), x, y)
    ensures Filled(p.Output(), x, y)
  {
    assert p.v.inDil > 0;
    hide Wrote, PoolDim, Conv.Cell, Conv.Ok, PoolCell;
    UnitDim(p);
    var t, u := FusedOutput(p, T.NO_WINDOW), p.Output();
    forall b, r, c, o | t.In(b, r, c, o) ensures t.cell(b, r, c, o) == u.cell(b, r, c, o) {
      UnitCell(p, b, r, c, o);
    }
    T.Rebox(t, u, x, y, t.Whole());
  }

  lemma UnitCell(p: GoodConv, b: int, r: int, c: int, o: int)
    requires 0 <= r < p.v.outDim && 0 <= c < p.v.outDim
    ensures PoolCell(p.Cell(), p.v.outDim, T.NO_WINDOW)(b, r, c, o) == p.Cell()(b, r, c, o)
  {
    var f := WindowOf(p.Cell(), p.v.outDim, T.NO_WINDOW, b, r, c, o);
    T.OneWindow(f);
    FusedElement(p, T.NO_WINDOW, b, r, c, o, 0, 0);
    hide Conv.Acc, WindowMax, Conv.Ok, WindowOf;
    assert PoolCell(p.Cell(), p.v.outDim, T.NO_WINDOW)(b, r, c, o) == WindowMax(f, 1, 1, ELEM_MIN);
  }

  lemma UnitDim(p: GoodConv)
    ensures PoolDim(p.v.outDim, T.NO_WINDOW) == p.v.outDim
    ensures FusedOutput(p, T.NO_WINDOW).Size() == p.Output().Size()
  {
    assert (p.v.outDim - 1) / 1 == p.v.outDim - 1;
  }

  /** Sizes and results by the layer's own account and by that of the loops. */
  lemma SameOutput(p: GoodConv, q: Pooling)
    requires q.stride >= 0
    ensures Expected(p, CpuPooling(q))
         == (if PoolingOf(q) == T.NO_WINDOW then p.Output() else FusedOutput(p, PoolingOf(q)))
  {}

  /** tiled_conv_A_stride. */
  method TiledConvAStride(u: ConvUnit, p: GoodConv, q: Pooling, f: T.Factors, kind: Kind, output: array<int>)
    returns (r: Status)
    requires u.Valid() && u.dRow == u.cRow && Sensible(p.v, q) && f.Ok()
    requires kind == WS ==> OnArray(p, q)
    requires Expected(p, CpuPooling(q)).Size() <= output.Length
    modifies u, output
    ensures u.Valid() && u.dRow == u.cRow
    ensures r == Check(p.v, q, f, kind)
    ensures r == Done <==> Accepted(p.v, q, f, kind)
    ensures if r == Done then Filled(Expected(p, CpuPooling(q)), old(output[..]), output[..])
            else output[..] == old(output[..])
  {
    r := Check(p.v, q, f, kind);
    CheckIs(p.v, q, f, kind);
    if r == Done {
      hide Accepted, Conv.Ok, Target.Size, Filled, TileShape.Rows, TotalRows, CpuPooling, Expected;
      if kind == CPU {
        RunCpu(p, q, output);
      } else {
        RunArray(u, p, q, f, output);
      }
    }
  }

  method RunCpu(p: GoodConv, q: Pooling, output: array<int>)
    requires Sensible(p.v, q) && Expected(p, CpuPooling(q)).Size() <= output.Length
    modifies output
    ensures Filled(Expected(p, CpuPooling(q)), old(output[..]), output[..])
  {
    hide Conv.Ok, Target.Size, Filled;
    ConvCpu(p, CpuPooling(q), output);
  }

  method RunArray(u: ConvUnit, p: GoodConv, q: Pooling, f: T.Factors, output: array<int>)
    requires u.Valid() && u.dRow == u.cRow && Sensible(p.v, q) && f.Ok() && OnArray(p, q)
    requires Check(p.v, q, f, WS) == Done && Expected(p, CpuPooling(q)).Size() <= output.Length
    modifies u, output
    ensures u.Valid() && u.dRow == u.cRow
    ensures Filled(Expected(p, CpuPooling(q)), old(output[..]), output[..])
  {
    ghost var s0 := output[..];
    CheckedJob(p, q, f);
    SameOutput(p, q);
    UnitDim(p);
    hide Conv.Ok, Target.Size, Filled, Expected, CpuPooling, Check, T.Job.Ok, FusedOutput, OnArray;
    T.TiledConvOuter(u, T.Job(p, PoolingOf(q), q.stride == 0, f), output);
    if PoolingOf(q) == T.NO_WINDOW { UnitPool(p, s0, output[..]); }
  }

  /** The search's tiling passes the capacity checks whenever the two downsample flags agree. */
  lemma SearchedTilingPasses(v: Layer, q: Pooling, f: T.Factors)
    requires Sensible(v, q) && SearchDownsamples(v, q) == Downsamples(v, q)
    requires Fits(GeometryOf(v, q, SearchDownsamples(v, q)), Args(f)) && !(v.transW1203 && v.transW0132)
    ensures Check(v, q, f, WS) == LayerCheck(v, q)
  {}

  /** They agree for undilated, untransposed input. */
  lemma FlagsAgree(v: Layer, q: Pooling)
    ensures SearchDownsamples(v, q) == Downsamples(v, q) <==>
      (v.inDil == 1 && !v.transIn) || !SearchDownsamples(v, q)
  {}

  function MaxArgs(v: Layer, q: Pooling): Sizes
    requires PoolingOf(q).stride > 0
  {
    var pooled := PoolDim(v.outDim, PoolingOf(q));
    [v.batch, pooled, pooled, v.outCh, v.kDim, v.kDim, v.inCh]
  }

  function FactorsOf(a: seq<int>): T.Factors
    requires |a| == 7
  {
    T.Factors(a[0], a[1], a[2], a[3], a[4], a[5], a[6])
  }

  /** The search's geometry. */
  function SearchGeometry(v: Layer, q: Pooling): GoodGeometry
    requires Sensible(v, q)
  {
    GeometryOf(v, q, SearchDownsamples(v, q))
  }

  /** The program runs exactly if what the search answers is accepted. */
  ghost predicate Decided(v: Layer, q: Pooling, kind: Kind, r: Status)
    requires Sensible(v, q)
  {
    exists a: Sizes :: Searched(SearchGeometry(v, q), MaxArgs(v, q), a)
                       && (r == Done <==> Accepted(v, q, FactorsOf(a), kind))
  }

  lemma DecidedBy(v: Layer, q: Pooling, kind: Kind, r: Status, a: Sizes)
    requires Sensible(v, q) && Searched(SearchGeometry(v, q), MaxArgs(v, q), a)
    requires r == Done <==> Accepted(v, q, FactorsOf(a), kind)
    ensures Decided(v, q, kind, r)
  {
    hide Searched, Accepted, SearchGeometry, MaxArgs;
  }

  /** tiled_conv_A_stride_auto: with flags that agree, only the layer's own checks can fail. */
  method TiledConvAStrideAuto(u: ConvUnit, p: GoodConv, q: Pooling, kind: Kind, output: array<int>) returns (r: Status)
    requires u.Valid() && u.dRow == u.cRow && Sensible(p.v, q) && Positive(MaxArgs(p.v, q))
    requires Fits(GeometryOf(p.v, q, SearchDownsamples(p.v, q)), Ones())
    requires kind == WS ==> OnArray(p, q)
    requires Expected(p, CpuPooling(q)).Size() <= output.Length
    modifies u, output
    ensures u.Valid() && u.dRow == u.cRow
    ensures if r == Done then Filled(Expected(p, CpuPooling(q)), old(output[..]), output[..])
            else output[..] == old(output[..])
    ensures Decided(p.v, q, kind, r)
    ensures SearchDownsamples(p.v, q) == Downsamples(p.v, q) && kind == WS && !(p.v.transW1203 && p.v.transW0132)
            ==> r == LayerCheck(p.v, q)
    ensures kind == WS && q.stride == 0 && p.v == Overflowing(SPAD_ROWS / 4) ==> r == ScratchpadTooSmall
  {
    hide Conv.Ok, Target.Size, Filled, TotalRows, Check, LayerCheck, Fits, PoolDim, OnArray, Expected, Overflowing,
         Maximal, Searched, Accepted, GeometryOf, Decided, Downsamples, SearchDownsamples, CpuPooling;
    var args := SearchTiling(SearchGeometry(p.v, q), MaxArgs(p.v, q));
    var f := FactorsOf(args[..]);
    assert Args(f) == args[..];
    if SearchDownsamples(p.v, q) == Downsamples(p.v, q) && !(p.v.transW1203 && p.v.transW0132) {
      SearchedTilingPasses(p.v, q, f);
    }
    if kind == WS && q.stride == 0 && p.v == Overflowing(SPAD_ROWS / 4) {
      DisagreementStopsTheProgram(q, p.v, args[..]);
    }
    ghost var a := args[..];
    r := TiledConvAStride(u, p, q, f, kind, output);
    DecidedBy(p.v, q, kind, r, a);
  }

  /** If not even the smallest tiling fits by the count of tiled_conv_A_stride, it refuses every tiling. */
  lemma NothingFits(v: Layer, q: Pooling, f: T.Factors)
    requires Sensible(v, q) && f.Ok() && !(v.transW1203 && v.transW0132)
    requires !Fits(GeometryOf(v, q, Downsamples(v, q)), Ones())
    ensures Check(v, q, f, WS) in {ScratchpadTooSmall, AccumulatorTooSmall}
  {
    hide TotalRows, LayerCheck;
    if Fits(GeometryOf(v, q, Downsamples(v, q)), Args(f)) {
      TilingExists(GeometryOf(v, q, Downsamples(v, q)), Args(f));
    }
  }

  // ---------- where the two flags differ ----------

  /** With dilated input they may differ, but then the program stops whatever the tiling. */
  lemma DilatedStopsAnyway(v: Layer, q: Pooling, f: T.Factors)
    requires Sensible(v, q) && SearchDownsamples(v, q) && v.inDil > 1
    ensures Check(v, q, f, WS) != Done
  {}

  /** If the whole layer fits, the search's answer is the whole layer. */
  lemma WholeLayer(g: GoodGeometry, a: seq<int>, max: seq<int>)
    requires Best(g, max, a) && Fits(g, max)
    ensures a == max
  {
    hide Fits;
    forall i | 0 <= i < 7 ensures a[i] == max[i] {
      assert Maximal(g, a, max, i) && a[i] <= max[i];
      if a[i] < max[i] {
        SmallerFits(g, a[i := a[i] + 1], max);
      }
    }
  }

  lemma ArgsBack(a: seq<int>)
    requires |a| == 7
    ensures Args(FactorsOf(a)) == a
  {}

  /** With transposed input they differ. A layer that fits whole by the search's count then passes the
      scratchpad check exactly if it also fits by the count of tiled_conv_A_stride. */
  lemma TransposedWholeLayer(v: Layer, q: Pooling, a: seq<int>)
    requires Sensible(v, q) && SearchDownsamples(v, q) && v.inDil == 1 && v.transIn && !(v.transW1203 && v.transW0132)
    requires Fits(GeometryOf(v, q, true), MaxArgs(v, q)) && Best(GeometryOf(v, q, true), MaxArgs(v, q), a)
    ensures Check(v, q, FactorsOf(a), WS) ==
      if TotalRows(false, GeometryOf(v, q, false), MaxArgs(v, q)) > MAX_SPAD_ROWS then ScratchpadTooSmall
      else LayerCheck(v, q)
  {
    hide TotalRows, Best, PoolDim, LayerCheck;
    WholeLayer(GeometryOf(v, q, true), a, MaxArgs(v, q));
    ArgsBack(a);
    AccRowsSame(GeometryOf(v, q, true), MaxArgs(v, q));
  }

  /** The accumulator count does not depend on the flag. */
  lemma AccRowsSame(g: GoodGeometry, a: seq<int>)
    requires |a| == 7
    ensures TotalRows(true, g.(downsample := false), a) == TotalRows(true, g, a)
  {}

  /** A transposed 2 x 2 input with n channels. */
  function Overflowing(n: int): Layer {
    Layer(1, 2, n, 1, 1, 2, 1, 1, 0, 1, false, false, true, false, false)
  }

  function OverflowArgs(n: int): seq<int> { [1, 1, 1, 1, 1, 1, n] }

  lemma OneBlock()
    ensures PerBank(1) == 1
  {}

  /** A single 1 x 1 stride-2 pixel of transposed input. */
  function PixelGeometry(downsample: bool): GoodGeometry { Geometry(2, 1, 1, downsample, false, true, 1, 1) }

  lemma PixelSpadRows(downsample: bool, n: int)
    ensures TotalRows(false, PixelGeometry(downsample), OverflowArgs(n)) == (if downsample then 2 * n else 5 * n)
  {
    OneBlock();
    PixelInRows(downsample);
    hide PerBank, Geometry.InRows, Geometry.OutRows;
  }

  lemma PixelInRows(downsample: bool)
    ensures PixelGeometry(downsample).InRows(1, 1) == if downsample then 1 else 2
  {
    var g := PixelGeometry(downsample);
    assert g.OutRows(1) == 1 && g.KDilated(1) == 1;
    hide Geometry.OutRows, Geometry.KDilated;
    UnitDivision(2);
  }

  lemma UnitDivision(x: int)
    ensures x / 1 == x && x % 1 == 0
  {}

  lemma PixelAccRows(downsample: bool, n: int)
    ensures TotalRows(true, PixelGeometry(downsample), OverflowArgs(n)) == 1
  {}

  lemma QuarterBounds()
    ensures var n := SPAD_ROWS / 4; n >= 1 && 2 * n <= MAX_SPAD_ROWS < 5 * n && MAX_ACC_ROWS >= 1
  {}

  /** The search answers with the whole layer. */
  lemma SearchAnswersWhole(n: int, a: seq<int>)
    requires n == SPAD_ROWS / 4 && Best(PixelGeometry(true), OverflowArgs(n), a)
    ensures a == OverflowArgs(n)
  {
    QuarterBounds();
    hide TotalRows, Best, PixelGeometry, OverflowArgs;
    PixelSpadRows(true, n);
    PixelAccRows(true, n);
    WholeLayer(PixelGeometry(true), a, OverflowArgs(n));
  }

  /** The whole layer does not pass the check. */
  lemma CheckStops(q: Pooling, n: int)
    requires q.stride == 0 && q.size >= 1 && n == SPAD_ROWS / 4
    ensures Sensible(Overflowing(n), q)
    ensures Check(Overflowing(n), q, FactorsOf(OverflowArgs(n)), WS) == ScratchpadTooSmall
  {
    OverflowFacts(q, n);
    OverflowFlags(q, n);
    QuarterBounds();
    ArgsBack(OverflowArgs(n));
    hide Overflowing, GeometryOf, TotalRows, Downsamples, Args, FactorsOf, Sensible, PixelGeometry, OverflowArgs;
    PixelSpadRows(false, n);
  }

  /** With a quarter of the scratchpad's rows as channels, the whole layer fits by the search's count,
      so the search answers with the whole layer, and the checks of tiled_conv_A_stride then stop the
      program. */
  lemma DisagreementStopsTheProgram(q: Pooling, v: Layer, a: seq<int>)
    requires q.stride == 0 && q.size >= 1 && v == Overflowing(SPAD_ROWS / 4)
    requires Sensible(v, q) && Best(GeometryOf(v, q, SearchDownsamples(v, q)), MaxArgs(v, q), a)
    ensures Check(v, q, FactorsOf(a), WS) == ScratchpadTooSmall
  {
    var n := SPAD_ROWS / 4;
    hide Overflowing, GeometryOf, TotalRows, Best, PoolDim, MaxArgs, Downsamples, SearchDownsamples, Args, FactorsOf,
         Sensible, PixelGeometry, OverflowArgs, Check;
    OverflowFacts(q, n);
    OverflowFlags(q, n);
    OverflowMax(q, n);
    SearchAnswersWhole(n, a);
    CheckStops(q, n);
  }

  lemma OverflowFacts(q: Pooling, n: int)
    requires q.stride == 0 && q.size >= 1
    ensures var v := Overflowing(n);
      && Sensible(v, q) && !v.transW1203
      && GeometryOf(v, q, true) == PixelGeometry(true) && GeometryOf(v, q, false) == PixelGeometry(false)
  {}

  lemma OverflowMax(q: Pooling, n: int)
    requires q.stride == 0
    ensures MaxArgs(Overflowing(n), q) == OverflowArgs(n)
  {}

  lemma OverflowFlags(q: Pooling, n: int)
    requires q.stride == 0
    ensures SearchDownsamples(Overflowing(n), q) && !Downsamples(Overflowing(n), q)
  {}

  // ---------- where room is missing ----------

  /** One pixel of a dilated image, with a border of one around it, under a 3 x 3 kernel. */
  function BorderedPixel(channels: int): Layer {
    Layer(1, 1, channels, 1, 1, 1, 2, 1, 1, 3, false, false, false, false, false)
  }

  function BorderedFactors(channels: int): T.Factors { T.Factors(1, 1, 1, 1, 3, 3, channels) }

  lemma BorderedCount(q: Pooling, m: int)
    requires q.stride == 0 && q.size >= 1 && m >= 1
    ensures var v, f := BorderedPixel(m * DIM), BorderedFactors(m * DIM);
      && f.Ok() && Sensible(v, q) && Downsamples(v, q) == false
      && CallSlab(v, Uncut(q, f), false) == Slab(1, 2, 2, m * DIM, false)
      && CallKernel(v, Uncut(q, f)) == Kernel(1, 3, 3, m * DIM, false)
      && f.Full(PoolingOf(q)) == TileShape(1, 1, 1, 1)
  {
    MulPos(m, DIM);
  }

  lemma BorderedRows(m: int, side: int)
    requires m >= 1
    ensures m * DIM >= 1 && Slab(1, side, side, m * DIM, false).Rows() == m * (side * side)
    ensures Kernel(1, 3, 3, m * DIM, false).Rows() == 9 * (m * DIM)
  {
    MulPos(m, DIM);
    BlocksOf(m);
    OneBlock();
    MulAssoc(m, side, side);
    hide PerBank;
  }

  lemma BlocksOf(m: int)
    ensures PerBank(m * DIM) == m
  {
    Distribute(m, -1, DIM);
    CeilDivUnique(m * DIM, DIM, m);
  }

  lemma BorderedCall(p: GoodConv, f: T.Factors, m: int)
    requires m >= 1 && p.v == BorderedPixel(m * DIM) && f == BorderedFactors(m * DIM)
    requires T.Job(p, T.NO_WINDOW, true, f).Ok()
    ensures var t := Call(T.Job(p, T.NO_WINDOW, true, f), Origin(0, 0, 0, 0), 0, 0, 0);
      && t.shape == TileShape(1, 1, 1, 1) && t.krows == 3 && t.kcols == 3 && t.kchs == m * DIM
      && t.upad == 1 && t.lpad == 1 && t.dpad == 1 && t.rpad == 1
  {
    var j: T.GoodJob := T.Job(p, T.NO_WINDOW, true, f);
    BorderedSpot(j, m);
    BorderedPads(p.v);
    CallFields(j, T.SpotAt(j, Origin(0, 0, 0, 0)), 0, 0, 0);
    hide T.PadBefore, T.PadBehind, T.SpotAt, T.CallTile, Conv.Ok, T.Job.Ok;
    MulPos(m, DIM);
  }

  lemma BorderedSpot(j: T.GoodJob, m: int)
    requires m >= 1 && j.p.v == BorderedPixel(m * DIM) && j.f == BorderedFactors(m * DIM) && j.q == T.NO_WINDOW
    ensures T.SpotAt(j, Origin(0, 0, 0, 0)) == T.Spot(0, 0, 0, 0, TileShape(1, 1, 1, 1))
  {
    OneTile(j);
    BorderedDim();
    BorderedStrip();
    SpotIs(j, Origin(0, 0, 0, 0));
    assert j.Dim() == PoolDim(1, T.NO_WINDOW) && j.p.v.outDim == 1;
    hide *;
  }

  lemma SpotIs(j: T.GoodJob, y: Origin)
    ensures var a := T.PooledAt(j, y);
      var r, c := T.StripOf(j.q, j.p.v.outDim, y.r, a.nr), T.StripOf(j.q, j.p.v.outDim, y.c, a.nc);
      T.SpotAt(j, y) == T.Spot(y.b, r.first, c.first, y.o, TileShape(a.nb, r.count, c.count, a.no))
  {
    hide T.StripOf, T.PooledAt, T.Job.Ok, Conv.Ok;
  }

  lemma BorderedDim()
    ensures PoolDim(1, T.NO_WINDOW) == 1
  {
    UnitDivision(0);
  }

  lemma BorderedStrip()
    ensures T.StripOf(T.NO_WINDOW, 1, 0, 1) == T.Strip(0, 1, 0, 0)
  {}

  lemma BorderedPads(v: Layer)
    requires v.inDil == 2 && v.inDim == 1
    ensures T.PadBefore(v, -1) == 1 && T.PadBehind(v, 2) == 1
  {}

  lemma BorderedAccepted(p: GoodConv, q: Pooling, f: T.Factors, m: int)
    requires q.stride == 0 && q.size >= 1 && m >= 1 && p.v == BorderedPixel(m * DIM) && f == BorderedFactors(m * DIM)
    requires m * 4 + 9 * (m * DIM) <= SPAD_ROWS / 2
    ensures Accepted(p.v, q, f, WS) && T.Job(p, T.NO_WINDOW, true, f).Ok()
  {
    hide *;
    BorderedSpad(q, m);
    BorderedJob(p, q, f, m);
  }

  lemma BorderedSpad(q: Pooling, m: int)
    requires q.stride == 0 && q.size >= 1 && m >= 1 && m * 4 + 9 * (m * DIM) <= SPAD_ROWS / 2
    ensures SpadRoom(BorderedPixel(m * DIM), q, BorderedFactors(m * DIM))
  {
    BorderedCount(q, m);
    BorderedRows(m, 2);
    SpadRoomIs(BorderedPixel(m * DIM), q, BorderedFactors(m * DIM));
    hide *;
    ApartIff(Slab(1, 2, 2, m * DIM, false), Kernel(1, 3, 3, m * DIM, false), SPAD_ROWS / 2);
  }

  lemma SpadRoomIs(v: Layer, q: Pooling, f: T.Factors)
    ensures SpadRoom(v, q, f) <==>
      Apart(CallSlab(v, Uncut(q, f), Downsamples(v, q)), CallKernel(v, Uncut(q, f)), SPAD_ROWS / 2)
  {}

  lemma BorderedJob(p: GoodConv, q: Pooling, f: T.Factors, m: int)
    requires q.stride == 0 && m >= 1 && p.v == BorderedPixel(m * DIM) && f == BorderedFactors(m * DIM)
    requires SpadRoom(p.v, q, f)
    ensures Accepted(p.v, q, f, WS) && T.Job(p, T.NO_WINDOW, true, f).Ok()
  {
    hide SpadRoom, AccRoom, Conv.Ok, TileShape.Rows;
    MulPos(m, DIM);
    assert PoolingOf(q) == T.NO_WINDOW && f.Full(T.NO_WINDOW) == TileShape(1, 1, 1, 1);
    PlainAcc(q, f);
    PlainRows(m);
  }

  /** With dilated input the check can pass although the first call's input and weights overlap: it counts
      2 x 2 rows for the 3 x 3 that the bordered pixel takes. With DIM 16 and 16384 scratchpad rows, m = 55 is
      such an input. */
  lemma DilatedOverlap(p: GoodConv, q: Pooling, f: T.Factors, m: int)
    requires q.stride == 0 && q.size >= 1 && m >= 1 && p.v == BorderedPixel(m * DIM) && f == BorderedFactors(m * DIM)
    requires m * 4 + 9 * (m * DIM) <= SPAD_ROWS / 2 < m * 9 + 9 * (m * DIM)
    ensures Accepted(p.v, q, f, WS) && T.Job(p, T.NO_WINDOW, true, f).Ok()
    ensures var t := Call(T.Job(p, T.NO_WINDOW, true, f), Origin(0, 0, 0, 0), 0, 0, 0);
      !Apart(CallSlab(p.v, t, Downsamples(p.v, q)), CallKernel(p.v, t), SPAD_ROWS / 2)
  {
    BorderedAccepted(p, q, f, m);
    BorderedCall(p, f, m);
    BorderedRows(m, 3);
    var t := Call(T.Job(p, T.NO_WINDOW, true, f), Origin(0, 0, 0, 0), 0, 0, 0);
    assert CallSlab(p.v, t, false) == Slab(1, 3, 3, m * DIM, false);
    assert CallKernel(p.v, t) == Kernel(1, 3, 3, m * DIM, false);
    hide Slab.Rows, Kernel.Rows, CallSlab, CallKernel, Accepted, Apart, T.Job.Ok, Call, Conv.Ok;
    ApartIff(Slab(1, 3, 3, m * DIM, false), Kernel(1, 3, 3, m * DIM, false), SPAD_ROWS / 2);
  }

  /** The loop unroller places the weights of a call DIM rows below the end of its half. There an accepted
      tile has room exactly if the count leaves these rows free. */
  lemma UnrollerRoom(v: Layer, q: Pooling, f: T.Factors)
    requires Sensible(v, q) && v.inDil <= 2 && f.Ok()
    ensures Apart(CallSlab(v, Uncut(q, f), Downsamples(v, q)), CallKernel(v, Uncut(q, f)), SPAD_ROWS / 2 - DIM)
        <==> TotalRows(false, GeometryOf(v, q, Downsamples(v, q)), Args(f)) <= SPAD_ROWS / 2 - DIM
  {
    SlabOk(v, q, f);
    UncutCount(v, q, f, Downsamples(v, q));
    ApartIff(CallSlab(v, Uncut(q, f), Downsamples(v, q)), CallKernel(v, Uncut(q, f)), SPAD_ROWS / 2 - DIM);
    hide *;
  }

  /** One pixel under a 1 x 1 kernel. */
  function PlainPixel(channels: int): Layer {
    Layer(1, 1, channels, 1, 1, 1, 1, 1, 0, 1, false, false, false, false, false)
  }

  function PlainFactors(channels: int): T.Factors { T.Factors(1, 1, 1, 1, 1, 1, channels) }

  lemma PlainCount(q: Pooling, m: int)
    requires q.stride == 0 && q.size >= 1 && m >= 1
    ensures var v, f := PlainPixel(m * DIM), PlainFactors(m * DIM);
      && f.Ok() && Sensible(v, q) && !Downsamples(v, q) && f.Full(PoolingOf(q)) == TileShape(1, 1, 1, 1)
      && CallSlab(v, Uncut(q, f), false) == Slab(1, 1, 1, m * DIM, false)
      && CallKernel(v, Uncut(q, f)) == Kernel(1, 1, 1, m * DIM, false)
  {
    MulPos(m, DIM);
  }

  lemma PlainRows(m: int)
    requires m >= 1
    ensures m * DIM >= 1 && Slab(1, 1, 1, m * DIM, false).Rows() == m
    ensures Kernel(1, 1, 1, m * DIM, false).Rows() == m * DIM && TileShape(1, 1, 1, 1).Rows() == 1
  {
    MulPos(m, DIM);
    BlocksOf(m);
    OneBlock();
    assert CeilDiv(1, DIM) == PerBank(1);
    hide PerBank, CeilDiv;
  }

  /** A tile can be accepted and have no room there. With DIM 16 and 16384 scratchpad rows, m = 481 is such an
      input. */
  lemma UnrollerOverlap(q: Pooling, v: Layer, f: T.Factors, m: int)
    requires q.stride == 0 && q.size >= 1 && m >= 1 && v == PlainPixel(m * DIM) && f == PlainFactors(m * DIM)
    requires SPAD_ROWS / 2 - DIM < m + m * DIM <= SPAD_ROWS / 2
    ensures Accepted(v, q, f, WS)
    ensures !Apart(CallSlab(v, Uncut(q, f), Downsamples(v, q)), CallKernel(v, Uncut(q, f)), SPAD_ROWS / 2 - DIM)
  {
    PlainCount(q, m);
    PlainRows(m);
    hide Slab.Rows, Kernel.Rows, TileShape.Rows, CallSlab, CallKernel, Uncut, Downsamples, Apart, AccRoom, TotalRows;
    ApartIff(Slab(1, 1, 1, m * DIM, false), Kernel(1, 1, 1, m * DIM, false), SPAD_ROWS / 2);
    ApartIff(Slab(1, 1, 1, m * DIM, false), Kernel(1, 1, 1, m * DIM, false), SPAD_ROWS / 2 - DIM);
    PlainAcc(q, f);
  }

  lemma PlainAcc(q: Pooling, f: T.Factors)
    requires f.Full(PoolingOf(q)) == TileShape(1, 1, 1, 1)
    ensures AccRoom(q, f)
  {
    BlockZero();
  }

  lemma BlockZero()
    ensures 0 / DIM == 0 && ACC_ROWS / 2 > 0
  {}

  // ---------- the whole layer as one tile ----------

  /** Every loop of tiled_conv_A_stride has one iteration exactly if no size is below the search's bound. */
  lemma OneCall(j: T.GoodJob, q: Pooling)
    requires PoolingOf(q) == j.q && Positive(MaxArgs(j.p.v, q))
    ensures Below(MaxArgs(j.p.v, q), Args(j.f)) <==>
      && T.PooledAt(j, Origin(0, 0, 0, 0)) == TileShape(j.p.v.batch, j.Dim(), j.Dim(), j.p.v.outCh)
      && T.IsLast(j, 0, 0, 0)
  {
    AtMost(j.p.v.batch, j.f.batches);
    AtMost(j.Dim(), j.f.porows);
    AtMost(j.Dim(), j.f.pocols);
    AtMost(j.p.v.outCh, j.f.pochs);
    OneTile(j);
    BelowIs(MaxArgs(j.p.v, q), Args(j.f));
    hide PoolDim, Conv.Ok, TileShape.Rows, T.PooledAt, T.IsLast, Below;
  }

  lemma OneTile(j: T.GoodJob)
    ensures T.PooledAt(j, Origin(0, 0, 0, 0)) == TileShape(Min(j.p.v.batch, j.f.batches), Min(j.Dim(), j.f.porows),
                                                           Min(j.Dim(), j.f.pocols), Min(j.p.v.outCh, j.f.pochs))
    ensures T.IsLast(j, 0, 0, 0) <==>
      j.p.v.kDim <= j.f.krows && j.p.v.kDim <= j.f.kcols && j.p.v.inCh <= j.f.kchs
  {
    hide T.Job.Ok, PoolDim;
  }

  lemma AtMost(x: int, y: int)
    ensures Min(x, y) == x <==> x <= y
  {}

  lemma BelowIs(a: Sizes, b: Sizes)
    ensures Below(a, b) <==>
      a[0] <= b[0] && a[1] <= b[1] && a[2] <= b[2] && a[3] <= b[3] && a[4] <= b[4] && a[5] <= b[5] && a[6] <= b[6]
  {}
}
