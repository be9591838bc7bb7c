/** tiled_global_average: per-channel sums in the accumulator, each stored through the accumulator's
    scale. */
module GlobalAverage {
  import opened Accelerator
  import opened Arith
  import opened Config
  import opened LocalMemory
  import opened Quantize
  import opened Sums

  datatype Avg = Avg(input: int, output: int, batches: int, channels: int, dim: int, scale: Scale) {
    predicate Ok() { input > 0 && output > 0 && batches >= 0 && channels > 0 && dim > 0 }
    function Pixels(): int { dim * dim }
  }

  type GoodAvg = x: Avg | x.Ok() witness Avg(1, 1, 0, 1, 1, y => y)

  /** Address of channel c of pixel p of an image. */
  function PixelAddr(x: Avg, batch: int, p: int, c: int): int { x.input + (batch * x.dim * x.dim + p) * x.channels + c }

  function OutAddr(x: Avg, batch: int, c: int): int { x.output + (batch * x.channels + c) }

  predicate InRange(x: Avg, batch: int, c: int) { 0 <= batch < x.batches && 0 <= c < x.channels }

  /** Images and output are in DRAM and do not meet. */
  ghost predicate Placed(d: Dram, x: Avg) {
    && (forall b, p, c :: InRange(x, b, c) && 0 <= p < x.Pixels() ==>
         PixelAddr(x, b, p, c) in d && !InOutput(x, PixelAddr(x, b, p, c)))
    && (forall b, c :: InRange(x, b, c) ==> OutAddr(x, b, c) in d)
  }

  predicate InOutput(x: Avg, a: int) { x.output <= a < x.output + x.batches * x.channels }

  function PixelFn(d: Dram, x: Avg, batch: int, c: int): int -> int { p => Get(d, PixelAddr(x, batch, p, c)) }

  /** The exact sum of a channel over an image. */
  function ChannelSum(d: Dram, x: Avg, batch: int, c: int): int { Sum(0, x.Pixels(), PixelFn(d, x, batch, c)) }

  function Average(d: Dram, x: Avg, batch: int, c: int): int {
    ScaleAndSat(ChannelSum(d, x, batch, c), NO_ACTIVATION, x.scale, 0)
  }

  // ---------- one accumulator row holds DIM channels ----------

  function ChannelVal(m: Mem, c: int): int { Cell(m, c / DIM, c % DIM) }

  lemma ChannelBlock(q: int, c: int)
    ensures c / DIM - q == (c - q * DIM) / DIM && c % DIM == (c - q * DIM) % DIM
    ensures c / DIM >= q <==> c >= q * DIM
    ensures (c / DIM - q) * DIM + c % DIM == c - q * DIM
  {
    var k, r := c / DIM, c % DIM;
    assert c == k * DIM + r;
    DivUnique(c - q * DIM, DIM, k - q);
    if k >= q { MulLe(q, k, DIM); } else { MulLe(k + 1, q, DIM); }
  }

  /** A one-row transfer to block q covers the channels from q * DIM on. */
  lemma RowWrite(m: Mem, q: int, cols: int, accumulate: bool, v: (int, int) -> int, c: int)
    requires q >= 0 && 0 <= c && c / DIM < ACC_ROWS
    ensures ChannelVal(BlockWrite(m, ACC_ROWS, q, 1, 1, cols, accumulate, v), c) ==
      if q * DIM <= c < q * DIM + cols then (if accumulate then ChannelVal(m, c) else 0) + v(0, c - q * DIM)
      else ChannelVal(m, c)
  {
    ChannelBlock(q, c);
    DivBounds(c, DIM);
    var r := c / DIM;
    assert (r - q) % 1 == 0 && (r - q) / 1 == r - q;
    assert BlockCol(q, 1, r, c % DIM) == c - q * DIM;
    hide BlockCol;
  }

  /** A chunk of the tile: whole blocks, or what is left. */
  function ChunkCols(tile: int, channel: int, blocks: int): int {
    if channel + blocks * DIM <= tile then blocks * DIM else tile - channel
  }

  /** A call of sp_tiled_global_average: channels c0 to c0 + tile of image `batch`. */
  datatype Call = Call(x: GoodAvg, batch: int, c0: int, tile: int) {
    predicate Ok() {
      0 <= batch < x.batches && 0 <= c0 && 0 < tile && c0 + tile <= x.channels && CeilDiv(tile, DIM) <= ACC_ROWS
    }
    function Input(): int { x.input + batch * x.dim * x.dim * x.channels + c0 }
    function Pointer(p: int, q: int): int { Input() + p * x.channels + q * DIM }
    function Out(): int { x.output + batch * x.channels + c0 }
  }

  type GoodCall = s: Call | s.Ok() ghost witness WitnessCall()

  ghost function WitnessCall(): Call
    ensures WitnessCall().Ok()
  {
    CeilDivUnique(1, DIM, 1);
    Call(Avg(1, 1, 1, 1, 1, y => y), 0, 0, 1)
  }

  function BlocksAtOnce(tile: int): (n: int)
    requires tile > 0
    ensures 0 < n <= MAX_BLOCK_LEN && n <= CeilDiv(tile, DIM)
  {
    MulLtCancel(0, CeilDiv(tile, DIM), DIM);
    if CeilDiv(tile, DIM) > MAX_BLOCK_LEN then MAX_BLOCK_LEN else CeilDiv(tile, DIM)
  }

  lemma ChunkFacts(s: GoodCall, q: int)
    requires q >= 0 && q * DIM < s.tile
    ensures var n := BlocksAtOnce(s.tile); var cols := ChunkCols(s.tile, q * DIM, n);
      0 < cols <= n * DIM && q * DIM + cols <= s.tile && q + CeilDiv(cols, DIM) <= CeilDiv(s.tile, DIM)
      && CeilDiv(cols, DIM) >= 1
  {
    var n := BlocksAtOnce(s.tile);
    var cols := ChunkCols(s.tile, q * DIM, n);
    var k := CeilDiv(cols, DIM);
    MulLe(1, n, DIM);
    MulLtCancel(0, k, DIM);
    assert (q + k - 1) * DIM == q * DIM + (k - 1) * DIM;
    MulLtCancel(q + k - 1, CeilDiv(s.tile, DIM), DIM);
  }

  lemma PixelPointer(s: GoodCall, p: int, q: int, c: int)
    ensures s.Pointer(p, q) + c == PixelAddr(s.x, s.batch, p, s.c0 + q * DIM + c)
  {}

  /** The configuration of tiled_global_average. */
  ghost predicate Set(g: Gemmini, x: Avg)
    reads g
  {
    g.Valid() && SetUp(g.stStride, g.ex, g.ld, x)
  }

  ghost predicate SetUp(stStride: int, ex: ExConfig, ld: seq<LoadConfig>, x: Avg) {
    && stStride == 0 && ex.act == NO_ACTIVATION && ex.accScale == x.scale && ex.relu6Shift == 0
    && |ld| == 3 && ld[0].stride == DIM && ld[0].shrunk && ld[0].blockStride == 1 && ld[0].scale == Identity()
  }

  lemma SetIs(g: Gemmini, x: Avg)
    ensures Set(g, x) <==> g.Valid() && SetUp(g.stStride, g.ex, g.ld, x)
  {}

  lemma StoreSetUp(stStride: int, ex: ExConfig, ld: seq<LoadConfig>, x: Avg)
    requires SetUp(stStride, ex, ld, x)
    ensures stStride == 0 && ex.act == NO_ACTIVATION && ex.accScale == x.scale && ex.relu6Shift == 0
  {}

  /** The first p pixels of channels q*DIM to q*DIM + cols are summed. */
  ghost predicate SummedTo(d: Dram, s: Call, m: Mem, q: int, cols: int, p: int) {
    forall c :: q * DIM <= c < q * DIM + cols ==> ChannelVal(m, c) == Sum(0, p, PixelFn(d, s.x, s.batch, s.c0 + c))
  }

  ghost predicate OthersSame(m: Mem, m': Mem, q: int, cols: int) {
    forall c :: 0 <= c && c / DIM < ACC_ROWS && !(q * DIM <= c < q * DIM + cols) ==>
      ChannelVal(m', c) == ChannelVal(m, c)
  }

  lemma PixelInDram(d: Dram, s: GoodCall, p: int, q: int, cols: int)
    requires Placed(d, s.x) && 0 <= p < s.x.Pixels() && q >= 0 && q * DIM + cols <= s.tile
    ensures forall r, c :: 0 <= r < 1 && 0 <= c < cols ==>
      ElemAddr(s.Pointer(p, q), DIM, SIZEOF_ELEM, r, c) in d
  {
    MulLe(0, q, DIM);
    forall r, c | 0 <= r < 1 && 0 <= c < cols
      ensures ElemAddr(s.Pointer(p, q), DIM, SIZEOF_ELEM, r, c) in d
    {
      PixelPointer(s, p, q, c);
      assert r == 0;
      hide PixelAddr, Call.Input, Call.Pointer, Avg.Pixels, InOutput;
      assert InRange(s.x, s.batch, s.c0 + q * DIM + c);
    }
  }

  /** What a one-row load brings in for channel c of the tile. */
  lemma LoadedPixel(d: Dram, ld: LoadConfig, s: GoodCall, addr: int, p: int, q: int, c: int)
    requires ld.shrunk && ld.scale == Identity() && s.Pointer(p, q) > 0
    ensures LoadFn(d, ld, s.Pointer(p, q), addr)(0, c - q * DIM) == PixelFn(d, s.x, s.batch, s.c0 + c)(p)
  {
    PixelPointer(s, p, q, c - q * DIM);
    hide PixelAddr, Call.Input, Call.Pointer, CeilDiv;
  }

  /** The accumulator after one more pixel. */
  lemma PixelAdded(d: Dram, ld: LoadConfig, s: GoodCall, m: Mem, addr: int, p: int, q: int, cols: int, accumulate: bool)
    requires ld.shrunk && ld.scale == Identity() && s.Pointer(p, q) > 0 && p >= 0
    requires accumulate == (p > 0) && q >= 0 && q * DIM + cols <= s.tile
    requires p > 0 ==> SummedTo(d, s, m, q, cols, p)
    ensures var m' := BlockWrite(m, ACC_ROWS, q, 1, 1, cols, accumulate, LoadFn(d, ld, s.Pointer(p, q), addr));
      SummedTo(d, s, m', q, cols, p + 1) && OthersSame(m, m', q, cols)
  {
    var v := LoadFn(d, ld, s.Pointer(p, q), addr);
    var m' := BlockWrite(m, ACC_ROWS, q, 1, 1, cols, accumulate, v);
    forall c | q * DIM <= c < q * DIM + cols
      ensures ChannelVal(m', c) == Sum(0, p + 1, PixelFn(d, s.x, s.batch, s.c0 + c))
    {
      MulLe(0, q, DIM);
      ChannelFits(s, c);
      RowWrite(m, q, cols, accumulate, v, c);
      LoadedPixel(d, ld, s, addr, p, q, c);
      hide PixelFn, LoadFn, BlockWrite, Call.Input, Call.Pointer, ChannelVal, CeilDiv;
    }
    forall c | 0 <= c && c / DIM < ACC_ROWS && !(q * DIM <= c < q * DIM + cols)
      ensures ChannelVal(m', c) == ChannelVal(m, c)
    {
      RowWrite(m, q, cols, accumulate, v, c);
      hide LoadFn, BlockWrite, Call.Input, Call.Pointer, ChannelVal, CeilDiv;
    }
  }

  lemma ChannelFits(s: GoodCall, c: int)
    requires 0 <= c < s.tile
    ensures c / DIM < ACC_ROWS
  {
    DivMul(c, DIM);
    MulLtCancel(c / DIM, CeilDiv(s.tile, DIM), DIM);
  }

  /** One mvin: the first pixel overwrites, the others accumulate. */
  method MvinPixel(g: Gemmini, s: GoodCall, row: int, col: int, channel: int, ghost q: int)
    requires Set(g, s.x) && Placed(g.dram, s.x) && 0 <= row < s.x.dim && 0 <= col < s.x.dim
    requires 0 <= q && channel == q * DIM && channel < s.tile
    requires row * s.x.dim + col > 0 ==>
      SummedTo(g.dram, s, g.acc, q, ChunkCols(s.tile, channel, BlocksAtOnce(s.tile)), row * s.x.dim + col)
    modifies g`spad, g`acc
    ensures Set(g, s.x)
    ensures SummedTo(g.dram, s, g.acc, q, ChunkCols(s.tile, channel, BlocksAtOnce(s.tile)), row * s.x.dim + col + 1)
    ensures OthersSame(old(g.acc), g.acc, q, ChunkCols(s.tile, channel, BlocksAtOnce(s.tile)))
  {
    var blocks := BlocksAtOnce(s.tile);
    var cols := ChunkCols(s.tile, channel, blocks);
    var p := row * s.x.dim + col;
    var addr := 0x8000_0000 + (if row != 0 || col != 0 then 0x4000_0000 else 0) + channel / DIM;
    var inp := s.Input() + p * s.x.channels + channel;
    ChunkFacts(s, q);
    PixelIndex(s.x, row, col);
    assert channel / DIM == q by { DivUnique(channel, DIM, q); }
    AccAddress(if row != 0 || col != 0 then 6 else 4, q);
    InputPositive(s, p, q);
    PixelInDram(g.dram, s, p, q, cols);
    PixelAdded(g.dram, g.ld[0], s, g.acc, addr, p, q, cols, p > 0);
    MulLe(1, blocks, DIM);
    MulLe(blocks, MAX_BLOCK_LEN, DIM);
    hide CeilDiv, ChunkCols, BlocksAtOnce, Call.Ok, Call.Input, SummedTo, OthersSame, Placed, BlockWrite, LoadFn,
         RowOf, IsAcc, Accumulates, FullWidth, ElemAddr, Avg.Ok, Avg.Pixels;
    g.Mvin(0, inp, addr, cols, 1);
  }

  lemma PixelIndex(x: GoodAvg, row: int, col: int)
    requires 0 <= row < x.dim && 0 <= col < x.dim
    ensures 0 <= row * x.dim + col < x.Pixels()
    ensures row * x.dim + col > 0 <==> row != 0 || col != 0
  {
    MulLe(row + 1, x.dim, x.dim);
    MulLe(0, row, x.dim);
    if row > 0 { MulLe(1, row, x.dim); }
    assert (row + 1) * x.dim == row * x.dim + x.dim;
  }

  lemma InputPositive(s: GoodCall, p: int, q: int)
    requires p >= 0 && q >= 0
    ensures s.Pointer(p, q) > 0
  {
    MulLe(0, p, s.x.channels);
    MulLe(0, q, DIM);
    MulLe(0, s.batch, s.x.dim);
    MulLe(0, s.batch * s.x.dim, s.x.dim);
    MulLe(0, s.batch * s.x.dim * s.x.dim, s.x.channels);
  }

  /** The two pixel loops: every channel of the chunk ends as the exact sum over the image. */
  method SumChunk(g: Gemmini, s: GoodCall, channel: int, ghost q: int)
    requires Set(g, s.x) && Placed(g.dram, s.x) && 0 <= q && channel == q * DIM && channel < s.tile
    modifies g`spad, g`acc
    ensures Set(g, s.x)
    ensures SummedTo(g.dram, s, g.acc, q, ChunkCols(s.tile, channel, BlocksAtOnce(s.tile)), s.x.Pixels())
    ensures OthersSame(old(g.acc), g.acc, q, ChunkCols(s.tile, channel, BlocksAtOnce(s.tile)))
  {
    ghost var cols, m := ChunkCols(s.tile, channel, BlocksAtOnce(s.tile)), g.acc;
    hide Call.Ok, ChunkCols, BlocksAtOnce, SummedTo, Placed, ChannelVal;
    for row := 0 to s.x.dim
      invariant Set(g, s.x) && OthersSame(m, g.acc, q, cols)
      invariant row > 0 ==> SummedTo(g.dram, s, g.acc, q, cols, row * s.x.dim)
    {
      for col := 0 to s.x.dim
        invariant Set(g, s.x) && OthersSame(m, g.acc, q, cols)
        invariant row > 0 || col > 0 ==> SummedTo(g.dram, s, g.acc, q, cols, row * s.x.dim + col)
      {
        MvinPixel(g, s, row, col, channel, q);
      }
      assert row * s.x.dim + s.x.dim == (row + 1) * s.x.dim;
    }
  }

  /** Channels below n of the tile hold their sums. */
  ghost predicate TileSummed(d: Dram, s: Call, m: Mem, n: int) {
    forall c :: 0 <= c < n ==> ChannelVal(m, c) == ChannelSum(d, s.x, s.batch, s.c0 + c)
  }

  lemma ChunkSummed(d: Dram, s: GoodCall, m: Mem, m': Mem, q: int, cols: int)
    requires TileSummed(d, s, m, q * DIM) && OthersSame(m, m', q, cols) && SummedTo(d, s, m', q, cols, s.x.Pixels())
    requires q >= 0 && q * DIM + cols <= s.tile && cols >= 0
    ensures TileSummed(d, s, m', q * DIM + cols)
  {
    forall c | 0 <= c < q * DIM + cols ensures ChannelVal(m', c) == ChannelSum(d, s.x, s.batch, s.c0 + c) {
      ChannelFits(s, c);
      hide ChannelVal, Call.Ok;
    }
  }

  /** All sums of one call. */
  method SumTile(g: Gemmini, s: GoodCall)
    requires Set(g, s.x) && Placed(g.dram, s.x)
    modifies g`spad, g`acc
    ensures Set(g, s.x) && TileSummed(g.dram, s, g.acc, s.tile)
  {
    var blocks := BlocksAtOnce(s.tile);
    var channel := 0;
    ghost var q := 0;
    assert s.tile > 0;
    hide Call.Ok, TileSummed, Placed, SummedTo, OthersSame, CeilDiv, ChannelSum, ChannelVal;
    NothingSummed(g.dram, s, g.acc);
    MulLe(1, blocks, DIM);
    while channel < s.tile
      invariant 0 <= q && channel == q * DIM && Set(g, s.x)
      invariant TileSummed(g.dram, s, g.acc, Reached(s.tile, channel))
    {
      ghost var m := g.acc;
      ChunkFacts(s, q);
      SumChunk(g, s, channel, q);
      ChunkSummed(g.dram, s, m, g.acc, q, ChunkCols(s.tile, channel, blocks));
      Distribute(q, blocks, DIM);
      channel := channel + blocks * DIM;
      q := q + blocks;
    }
  }

  function Reached(tile: int, channel: int): int { if channel < tile then channel else tile }

  lemma NothingSummed(d: Dram, s: GoodCall, m: Mem)
    ensures TileSummed(d, s, m, 0)
  {}

  // ---------- storing ----------

  /** Averages with linear index below n are stored; nothing else has changed. */
  ghost predicate StoredBelow(d: Dram, d': Dram, x: Avg, n: int) {
    && d'.Keys == d.Keys
    && (forall b, c :: InRange(x, b, c) && b * x.channels + c < n ==> Get(d', OutAddr(x, b, c)) == Average(d, x, b, c))
    && (forall a :: a in d && !(x.output <= a < x.output + n) ==> Get(d', a) == Get(d, a))
  }

  lemma SumsKept(d: Dram, d': Dram, x: GoodAvg, n: int, b: int, c: int)
    requires Placed(d, x) && StoredBelow(d, d', x, n) && n <= x.batches * x.channels && InRange(x, b, c)
    ensures ChannelSum(d', x, b, c) == ChannelSum(d, x, b, c)
  {
    forall p | 0 <= p < x.Pixels() ensures PixelFn(d', x, b, c)(p) == PixelFn(d, x, b, c)(p) {
      assert PixelAddr(x, b, p, c) in d && !InOutput(x, PixelAddr(x, b, p, c));
      hide PixelAddr, OutAddr, Avg.Pixels, Average;
    }
    hide PixelFn, Avg.Pixels;
    SumEq(0, x.Pixels(), PixelFn(d', x, b, c), PixelFn(d, x, b, c));
  }

  lemma PlacedKept(d: Dram, d': Dram, x: Avg)
    requires Placed(d, x) && d'.Keys == d.Keys
    ensures Placed(d', x)
  {}

  lemma OutLinear(x: Avg, b: int, c: int, b': int, c': int)
    requires InRange(x, b, c) && InRange(x, b', c') && b * x.channels + c == b' * x.channels + c'
    ensures b == b' && c == c'
  {
    MixedRadix(b, c, b', c', x.channels);
  }

  /** Storing the next run of averages. */
  lemma RunStored(d: Dram, d1: Dram, d2: Dram, x: GoodAvg, b: int, c0: int, cols: int, v: (int, int) -> int)
    requires Placed(d, x) && StoredBelow(d, d1, x, b * x.channels + c0) && 0 < cols
    requires InRange(x, b, c0) && c0 + cols <= x.channels
    requires RegionStored(d1, d2, OutAddr(x, b, c0), 0, SIZEOF_ELEM, 1, cols, v)
    requires forall k :: 0 <= k < cols ==> v(0, k) == Average(d, x, b, c0 + k)
    ensures StoredBelow(d, d2, x, b * x.channels + c0 + cols)
  {
    var n := b * x.channels + c0;
    hide Avg.Ok, Average, Placed;
    forall b', c | InRange(x, b', c) && b' * x.channels + c < n + cols
      ensures Get(d2, OutAddr(x, b', c)) == Average(d, x, b', c)
    {
      RunElement(d, d1, d2, x, b, c0, cols, v, b', c);
    }
    forall a | a in d && !(x.output <= a < x.output + n + cols) ensures Get(d2, a) == Get(d, a) {
      NotInRun(x, b, c0, cols, a);
      hide InMatrix, Average, OutAddr;
    }
  }

  lemma NotInRun(x: Avg, b: int, c0: int, cols: int, a: int)
    ensures InMatrix(a, OutAddr(x, b, c0), 0, SIZEOF_ELEM, 1, cols) ==>
              OutAddr(x, b, c0) <= a < OutAddr(x, b, c0) + cols
  {}

  lemma RunElement(d: Dram, d1: Dram, d2: Dram, x: GoodAvg, b: int, c0: int, cols: int, v: (int, int) -> int, b': int,
                   c: int)
    requires Placed(d, x) && StoredBelow(d, d1, x, b * x.channels + c0)
    requires InRange(x, b, c0) && c0 + cols <= x.channels && InRange(x, b', c)
             && b' * x.channels + c < b * x.channels + c0 + cols
    requires RegionStored(d1, d2, OutAddr(x, b, c0), 0, SIZEOF_ELEM, 1, cols, v)
    requires forall k :: 0 <= k < cols ==> v(0, k) == Average(d, x, b, c0 + k)
    ensures Get(d2, OutAddr(x, b', c)) == Average(d, x, b', c)
  {
    var n, i := b * x.channels + c0, b' * x.channels + c;
    if i >= n {
      OutLinear(x, b', c, b, c0 + (i - n));
      assert ElemAddr(OutAddr(x, b, c0), 0, SIZEOF_ELEM, 0, i - n) == OutAddr(x, b', c);
      hide Average;
    } else {
      NotInRun(x, b, c0, cols, OutAddr(x, b', c));
      assert OutAddr(x, b', c) in d;
      hide Average, InMatrix;
    }
  }

  /** The sums of a tile do not depend on which averages have been stored. */
  lemma SumsAsBefore(d: Dram, d1: Dram, s: GoodCall, m: Mem)
    requires Placed(d, s.x) && StoredBelow(d, d1, s.x, s.batch * s.x.channels + s.c0) && TileSummed(d1, s, m, s.tile)
    ensures TileSummed(d, s, m, s.tile)
  {
    LinearBelow(s, 0);
    forall c | 0 <= c < s.tile ensures ChannelVal(m, c) == ChannelSum(d, s.x, s.batch, s.c0 + c) {
      assert InRange(s.x, s.batch, s.c0 + c);
      hide Call.Ok, ChannelSum, ChannelVal, InRange, Placed, StoredBelow;
      SumsKept(d, d1, s.x, s.batch * s.x.channels + s.c0, s.batch, s.c0 + c);
    }
  }

  /** What an mvout stores for the run at block q. */
  lemma LeavingAverage(d: Dram, s: GoodCall, m: Mem, ex: ExConfig, addr: int, q: int, k: int)
    requires TileSummed(d, s, m, s.tile) && ex.act == NO_ACTIVATION && ex.accScale == s.x.scale && ex.relu6Shift == 0
    requires q >= 0 && 0 <= k < DIM && q * DIM + k < s.tile && IsAcc(addr) && !FullWidth(addr) && RowOf(addr) == q
    ensures StoreFn(m, ex, addr)(0, k) == Average(d, s.x, s.batch, s.c0 + q * DIM + k)
  {
    var c := q * DIM + k;
    MulLe(0, q, DIM);
    DivUnique(c, DIM, q);
    assert k / DIM == 0 && k % DIM == k by { DivUnique(k, DIM, 0); }
    hide ChannelSum, CeilDiv, RowOf, IsAcc, FullWidth, Call.Ok;
    assert ChannelVal(m, c) == ChannelSum(d, s.x, s.batch, s.c0 + c);
  }

  lemma LinearBelow(s: GoodCall, q: int)
    requires q * DIM < s.tile
    ensures s.batch * s.x.channels + s.c0 + q * DIM <= s.x.batches * s.x.channels
  {
    MulLe(s.batch + 1, s.x.batches, s.x.channels);
    Distribute(s.batch, 1, s.x.channels);
    hide CeilDiv;
  }

  /** One mvout: up to DIM channels of one accumulator row. */
  method MvoutRun(g: Gemmini, s: GoodCall, channel: int, ghost q: int, ghost d: Dram)
    requires Set(g, s.x) && Placed(d, s.x) && 0 <= q && channel == q * DIM && channel < s.tile
    requires StoredBelow(d, g.dram, s.x, s.batch * s.x.channels + (s.c0 + channel)) && TileSummed(d, s, g.acc, s.tile)
    modifies g`dram
    ensures Set(g, s.x)
    ensures StoredBelow(d, g.dram, s.x, s.batch * s.x.channels + (s.c0 + Reached(s.tile, channel + DIM)))
  {
    var cols := if channel + DIM <= s.tile then DIM else s.tile - channel;
    var addr := 0x8000_0000 + channel / DIM;
    hide *;
    SetIs(g, s.x);
    StoreSetUp(g.stStride, g.ex, g.ld, s.x);
    RunEffect(d, g.dram, s, g.acc, g.ex, addr, channel, q, cols, s.Out() + channel);
    g.Mvout(s.Out() + channel, addr, cols, 1);
    SetIs(g, s.x);
  }

  /** The move-out is in range, and stores the next run. */
  lemma RunEffect(d: Dram, d1: Dram, s: GoodCall, m: Mem, ex: ExConfig, addr: int, channel: int, q: int, cols: int,
                  out: int)
    requires Placed(d, s.x) && TileSummed(d, s, m, s.tile) && 0 <= q && channel == q * DIM && channel < s.tile
    requires out == s.Out() + channel
    requires ex.act == NO_ACTIVATION && ex.accScale == s.x.scale && ex.relu6Shift == 0
    requires StoredBelow(d, d1, s.x, s.batch * s.x.channels + (s.c0 + channel))
    requires cols == (if channel + DIM <= s.tile then DIM else s.tile - channel) && addr == 0x8000_0000 + channel / DIM
    ensures IsAcc(addr) && 0 < cols && 0 <= RowOf(addr) && RowOf(addr) + (CeilDiv(cols, DIM) - 1) * DIM + 1 <= ACC_ROWS
    ensures forall r, c :: 0 <= r < 1 && 0 <= c < cols ==> ElemAddr(out, 0, StoreSize(addr), r, c) in d1
    ensures StoredBelow(d, StoreInto(d1, out, 0, StoreSize(addr), 1, cols, StoreFn(m, ex, addr)), s.x,
                        s.batch * s.x.channels + (s.c0 + Reached(s.tile, channel + DIM)))
  {
    hide *;
    KeysKept(d, d1, s.x, s.batch * s.x.channels + (s.c0 + channel));
    RunReady(s, channel, q, cols, addr);
    RunInDram(d, d1, s.x, s.batch, s.c0 + channel, cols);
    StoreRun(d, d1, s, m, ex, addr, q, cols);
  }

  lemma KeysKept(d: Dram, d': Dram, x: Avg, n: int)
    requires StoredBelow(d, d', x, n)
    ensures d'.Keys == d.Keys
  {}

  lemma StoreRun(d: Dram, d1: Dram, s: GoodCall, m: Mem, ex: ExConfig, addr: int, q: int, cols: int)
    requires Placed(d, s.x) && TileSummed(d, s, m, s.tile)
    requires ex.act == NO_ACTIVATION && ex.accScale == s.x.scale && ex.relu6Shift == 0
    requires StoredBelow(d, d1, s.x, s.batch * s.x.channels + (s.c0 + q * DIM))
    requires q >= 0 && IsAcc(addr) && !FullWidth(addr) && RowOf(addr) == q && 0 < cols <= DIM
             && q * DIM + cols <= s.tile
    ensures StoredBelow(d, StoreInto(d1, OutAddr(s.x, s.batch, s.c0 + q * DIM), 0, SIZEOF_ELEM, 1, cols,
                                     StoreFn(m, ex, addr)),
                        s.x, s.batch * s.x.channels + (s.c0 + q * DIM + cols))
  {
    var c, v := s.c0 + q * DIM, StoreFn(m, ex, addr);
    hide *;
    RunRange(s, q, cols);
    forall k | 0 <= k < cols ensures v(0, k) == Average(d, s.x, s.batch, c + k) {
      LeavingAverage(d, s, m, ex, addr, q, k);
    }
    StoreIntoRun(d, d1, s.x, s.batch, c, cols, v);
  }

  lemma RunRange(s: GoodCall, q: int, cols: int)
    requires q >= 0 && 0 < cols && q * DIM + cols <= s.tile
    ensures InRange(s.x, s.batch, s.c0 + q * DIM) && s.c0 + q * DIM + cols <= s.x.channels
  {
    MulLe(0, q, DIM);
    hide CeilDiv;
  }

  lemma StoreIntoRun(d: Dram, d1: Dram, x: GoodAvg, b: int, c0: int, cols: int, v: (int, int) -> int)
    requires Placed(d, x) && StoredBelow(d, d1, x, b * x.channels + c0) && 0 < cols
    requires InRange(x, b, c0) && c0 + cols <= x.channels
    requires forall k :: 0 <= k < cols ==> v(0, k) == Average(d, x, b, c0 + k)
    ensures StoredBelow(d, StoreInto(d1, OutAddr(x, b, c0), 0, SIZEOF_ELEM, 1, cols, v), x,
                        b * x.channels + (c0 + cols))
  {
    hide *;
    ElemSize();
    KeysKept(d, d1, x, b * x.channels + c0);
    RunInDram(d, d1, x, b, c0, cols);
    StoreCells(d1, OutAddr(x, b, c0), 0, SIZEOF_ELEM, 1, cols, v);
    RunStored(d, d1, StoreInto(d1, OutAddr(x, b, c0), 0, SIZEOF_ELEM, 1, cols, v), x, b, c0, cols, v);
  }

  lemma ElemSize()
    ensures SIZEOF_ELEM > 0
  {}

  lemma RunReady(s: GoodCall, channel: int, q: int, cols: int, addr: int)
    requires 0 <= q && channel == q * DIM && channel < s.tile
    requires cols == (if channel + DIM <= s.tile then DIM else s.tile - channel) && addr == 0x8000_0000 + channel / DIM
    ensures IsAcc(addr) && !FullWidth(addr) && RowOf(addr) == q && q < ACC_ROWS && StoreSize(addr) == SIZEOF_ELEM
    ensures CeilDiv(cols, DIM) == 1 && 0 < cols <= DIM && channel + cols == Reached(s.tile, channel + DIM)
    ensures s.Out() + channel == OutAddr(s.x, s.batch, s.c0 + channel) && InRange(s.x, s.batch, s.c0 + channel)
    ensures s.c0 + channel + cols <= s.x.channels
  {
    MulLe(0, q, DIM);
    DivUnique(channel, DIM, q);
    ChannelFits(s, channel);
    AccAddress(4, q);
    CeilDivUnique(cols, DIM, 1);
    hide RowOf, IsAcc, FullWidth;
  }

  lemma RunInDram(d: Dram, d1: Dram, x: GoodAvg, b: int, c0: int, cols: int)
    requires Placed(d, x) && d1.Keys == d.Keys && InRange(x, b, c0) && c0 + cols <= x.channels
    ensures forall r, c :: 0 <= r < 1 && 0 <= c < cols ==> ElemAddr(OutAddr(x, b, c0), 0, SIZEOF_ELEM, r, c) in d1
  {
    forall r, c | 0 <= r < 1 && 0 <= c < cols ensures ElemAddr(OutAddr(x, b, c0), 0, SIZEOF_ELEM, r, c) in d1 {
      assert InRange(x, b, c0 + c) && ElemAddr(OutAddr(x, b, c0), 0, SIZEOF_ELEM, r, c) == OutAddr(x, b, c0 + c);
      hide OutAddr, ElemAddr;
    }
  }

  /** sp_tiled_global_average: when the mvouts start, every channel of the tile holds its exact sum,
      and they store its averages. */
  method SpTiledGlobalAverage(g: Gemmini, s: GoodCall, ghost d: Dram)
    requires Set(g, s.x) && Placed(d, s.x) && StoredBelow(d, g.dram, s.x, s.batch * s.x.channels + s.c0)
    modifies g`spad, g`acc, g`dram
    ensures Set(g, s.x) && StoredBelow(d, g.dram, s.x, s.batch * s.x.channels + (s.c0 + s.tile))
  {
    PlacedKept(d, g.dram, s.x);
    hide Call.Ok, Placed, TileSummed, Avg.Ok;
    ghost var d1 := g.dram;
    SumTile(g, s);
    SumsAsBefore(d, d1, s, g.acc);
    hide StoredBelow;
    StoreTile(g, s, d);
  }

  /** The mvout loop. */
  method StoreTile(g: Gemmini, s: GoodCall, ghost d: Dram)
    requires Set(g, s.x) && Placed(d, s.x) && TileSummed(d, s, g.acc, s.tile)
    requires StoredBelow(d, g.dram, s.x, s.batch * s.x.channels + s.c0)
    modifies g`dram
    ensures Set(g, s.x) && StoredBelow(d, g.dram, s.x, s.batch * s.x.channels + (s.c0 + s.tile))
  {
    var channel := 0;
    ghost var q := 0;
    assert s.tile > 0;
    hide Call.Ok, Placed, TileSummed, StoredBelow;
    while channel < s.tile
      invariant 0 <= q && channel == q * DIM && Set(g, s.x)
      invariant StoredBelow(d, g.dram, s.x, s.batch * s.x.channels + (s.c0 + Reached(s.tile, channel)))
    {
      MvoutRun(g, s, channel, q, d);
      Distribute(q, 1, DIM);
      channel := channel + DIM;
      q := q + 1;
    }
  }

  // ---------- all tiles ----------

  method TiledGlobalAverage(g: Gemmini, x: GoodAvg, channelTileSize: int)
    requires g.Valid() && Placed(g.dram, x) && 0 < channelTileSize && CeilDiv(channelTileSize, DIM) <= ACC_ROWS
    modifies g
    ensures g.Valid() && StoredBelow(old(g.dram), g.dram, x, x.batches * x.channels)
  {
    ghost var d := g.dram;
    g.ConfigLd(DIM * SIZEOF_ELEM, Identity(), true, 1, 0);
    g.ConfigEx(OUTPUT_STATIONARY, NO_ACTIVATION, 0, x.scale, 0, false, false);
    g.ConfigSt(0);
    assert StoredBelow(d, g.dram, x, 0) by { NothingStored(d, x); }
    hide StoredBelow, Placed;
    for batch := 0 to x.batches
      invariant Set(g, x) && StoredBelow(d, g.dram, x, batch * x.channels)
    {
      AverageBatch(g, x, channelTileSize, batch, d);
      Distribute(batch, 1, x.channels);
    }
  }

  lemma NothingStored(d: Dram, x: GoodAvg)
    ensures StoredBelow(d, d, x, 0)
  {}

  method AverageBatch(g: Gemmini, x: GoodAvg, channelTileSize: int, batch: int, ghost d: Dram)
    requires Set(g, x) && Placed(d, x) && 0 < channelTileSize && CeilDiv(channelTileSize, DIM) <= ACC_ROWS
    requires 0 <= batch < x.batches && StoredBelow(d, g.dram, x, batch * x.channels)
    modifies g`spad, g`acc, g`dram
    ensures Set(g, x) && StoredBelow(d, g.dram, x, batch * x.channels + x.channels)
  {
    var channel := 0;
    assert batch * x.channels + 0 == batch * x.channels;
    hide StoredBelow, Placed;
    while channel < x.channels
      invariant 0 <= channel && Set(g, x)
      invariant StoredBelow(d, g.dram, x, batch * x.channels + Reached(x.channels, channel))
    {
      var tile := if channel + channelTileSize <= x.channels then channelTileSize else x.channels - channel;
      CeilDivMono(tile, channelTileSize, DIM);
      SpTiledGlobalAverage(g, Call(x, batch, channel, tile), d);
      channel := channel + channelTileSize;
    }
  }

  // ---------- the tile size ----------

  function TileRows(tile: int): int { CeilDiv(tile, DIM) }

  lemma OneRow()
    ensures TileRows(1) == 1 <= ACC_ROWS
  {}

  /** The largest number of channels whose rows fit the accumulator. */
  method SearchTile(channels: int) returns (tile: int)
    requires channels > 0
    ensures 0 < tile <= channels && TileRows(tile) <= ACC_ROWS
    ensures tile == Min(channels, ACC_ROWS * DIM)
  {
    tile := channels;
    OneRow();
    RowsFit(channels);
    hide TileRows;
    while TileRows(tile) > ACC_ROWS
      invariant 0 < tile <= channels
      invariant tile == channels || tile >= ACC_ROWS * DIM
      decreases tile
    {
      RowsFit(tile);
      tile := tile - 1;
    }
    RowsFit(tile);
  }

  /** DIM channels to a row. */
  lemma RowsFit(tile: int)
    ensures TileRows(tile) <= ACC_ROWS <==> tile <= ACC_ROWS * DIM
  {
    var q := TileRows(tile);
    if q <= ACC_ROWS { MulLe(q, ACC_ROWS, DIM); } else { MulLe(ACC_ROWS, q - 1, DIM); }
  }
}
