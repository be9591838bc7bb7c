/** A convolution layer as the network programs run it without the tiled convolution: im2col,
    then one automatic multiply on a back end of their choice. */
module ConvByMatmul {
  import opened Accelerator
  import opened Arith
  import opened Config
  import opened ConvSpec
  import opened Im2col
  import opened Im2colMatmul
  import opened MatmulAuto
  import opened Quantize
  import opened Tensor
  import ConvReference
  import M = MatmulSpec

  /** Where the patch matrix, the weights, the bias and the result lie in DRAM. */
  datatype Buffers = Buffers(a: int, b: int, d: int, c: int)

  function Span(v: Layer): int { Flat(v, Patches(v), 0) }
  function WeightSpan(v: Layer): int { PatchSize(v) * v.outCh }
  function OutSpan(v: Layer): int { Patches(v) * v.outCh }

  /** Two byte ranges do not meet. */
  predicate Disjoint(x: int, n: int, y: int, m: int) { x + n <= y || y + m <= x }

  /** n elements from address a on are in DRAM. */
  ghost predicate Held(d: Dram, a: int, size: int, n: int) { forall i :: 0 <= i < n ==> a + i * size in d }

  /** The four buffers are in DRAM and apart. */
  ghost predicate Laid(d: Dram, v: Layer, m: Buffers) {
    && m.a > 0 && m.b > 0 && m.d > 0 && m.c > 0
    && Held(d, m.a, SIZEOF_ELEM, Span(v)) && Held(d, m.b, SIZEOF_ELEM, WeightSpan(v))
    && Held(d, m.d, SIZEOF_ACC, v.outCh) && Held(d, m.c, SIZEOF_ELEM, OutSpan(v))
    && Disjoint(m.a, Span(v), m.b, WeightSpan(v)) && Disjoint(m.a, Span(v), m.d, v.outCh * SIZEOF_ACC)
    && Disjoint(m.b, WeightSpan(v), m.d, v.outCh * SIZEOF_ACC)
    && Disjoint(m.a, Span(v), m.c, OutSpan(v)) && Disjoint(m.b, WeightSpan(v), m.c, OutSpan(v))
    && Disjoint(m.d, v.outCh * SIZEOF_ACC, m.c, OutSpan(v))
  }

  /** The multiply of tiled_matmul_nn_auto: unit strides, identity scales, a repeating bias. */
  function Call(p: Unrolled, m: Buffers): M.Args {
    M.Args(false, false, Patches(p.v), p.v.outCh, PatchSize(p.v), m.a, m.b, if p.bias.Some? then m.d else NULL, m.c,
           PatchSize(p.v), p.v.outCh, p.v.outCh, p.v.outCh, Identity(), Identity(), Identity(), p.act, p.scale,
           p.relu6Shift, true, false, false)
  }

  // ---------- host arrays in DRAM ----------

  /** d' is d with the first n elements of s at address a. */
  ghost predicate Written(d: Dram, d': Dram, a: int, size: int, s: seq<int>, n: int) {
    && d'.Keys == d.Keys && Loaded(d', a, size, s, n)
    && forall x :: x in d && !(a <= x < a + n * size) ==> Get(d', x) == Get(d, x)
  }

  /** The elements of a host array, as they lie in DRAM. */
  method Share(g: Gemmini, a: int, size: int, s: seq<int>, n: int)
    requires g.Valid() && size > 0 && 0 <= n <= |s|
    requires Held(g.dram, a, size, n)
    modifies g`dram
    ensures g.Valid() && Written(old(g.dram), g.dram, a, size, s, n)
  {
    ghost var d := g.dram;
    for i := 0 to n
      invariant g.Valid() && Written(d, g.dram, a, size, s, i)
    {
      ghost var d1 := g.dram;
      g.dram := g.dram[a + i * size := s[i]];
      WrittenStep(d, d1, a, size, s, i);
    }
  }

  lemma WrittenStep(d: Dram, d1: Dram, a: int, size: int, s: seq<int>, i: int)
    requires size > 0 && 0 <= i < |s| && Written(d, d1, a, size, s, i) && a + i * size in d
    ensures Written(d, d1[a + i * size := s[i]], a, size, s, i + 1)
  {
    var d' := d1[a + i * size := s[i]];
    Distribute(i, 1, size);
    forall k | 0 <= k < i + 1 ensures Get(d', a + k * size) == At(s, k) {
      if k < i { MulLt(k, i, size); }
    }
    MulLe(0, i, size);
    assert d'.Keys == d.Keys;
  }

  lemma StillThere(d: Dram, d': Dram, a: int, size: int, s: seq<int>, n: int, b: int, size': int, s': seq<int>, n': int)
    requires Written(d, d', a, size, s, n) && size' > 0
    requires Loaded(d, b, size', s', n') && Disjoint(b, n' * size', a, n * size)
    requires Held(d, b, size', n')
    ensures Loaded(d', b, size', s', n')
  {
    forall i | 0 <= i < n' ensures Get(d', b + i * size') == At(s', i) {
      MulLe(0, i, size');
      MulLt(i, n', size');
    }
  }

  // ---------- the call is well placed ----------

  lemma InRange(p: Unrolled, m: Buffers, x: int)
    requires M.InC(Call(p, m), x)
    ensures m.c <= x < m.c + OutSpan(p.v)
  {
    var q := Call(p, m);
    var i, j :| 0 <= i < q.dimI && 0 <= j < q.dimJ
                && x == ElemAddr(q.C, q.strideC * SizeofC(q.fullC), SizeofC(q.fullC), i, j);
    hide Patches, PatchSize;
    DigitBound(i, Patches(p.v), j, p.v.outCh);
  }

  lemma OperandIn(d: Dram, p: Unrolled, m: Buffers, x: int, n: int, rows: int, cols: int, i: int, j: int)
    requires Held(d, x, SIZEOF_ELEM, n) && Disjoint(x, n, m.c, OutSpan(p.v)) && n == rows * cols
    requires 0 <= i < rows && 0 <= j < cols
    ensures var a := ElemAddr(x, cols, 1, i, j); a in d && !M.InC(Call(p, m), a)
  {
    DigitBound(i, rows, j, cols);
    var a := ElemAddr(x, cols, 1, i, j);
    assert a == x + (i * cols + j) * SIZEOF_ELEM;
    if M.InC(Call(p, m), a) {
      InRange(p, m, a);
    }
    hide M.InC;
  }

  lemma BiasIn(d: Dram, p: Unrolled, m: Buffers, j: int)
    requires Laid(d, p.v, m) && 0 <= j < p.v.outCh
    ensures var a := m.d + j * SIZEOF_ACC; a in d && !M.InC(Call(p, m), a)
  {
    if M.InC(Call(p, m), m.d + j * SIZEOF_ACC) {
      InRange(p, m, m.d + j * SIZEOF_ACC);
    }
    hide M.InC, Call, OutSpan, Span, WeightSpan;
  }

  lemma ResultIn(d: Dram, p: Unrolled, m: Buffers, i: int, j: int)
    requires Held(d, m.c, SIZEOF_ELEM, OutSpan(p.v)) && 0 <= i < Patches(p.v) && 0 <= j < p.v.outCh
    ensures M.CAddr(Call(p, m), i, j) in d
  {
    hide Patches, PatchSize;
    DigitBound(i, Patches(p.v), j, p.v.outCh);
    assert M.CAddr(Call(p, m), i, j) == m.c + (i * p.v.outCh + j) * SIZEOF_ELEM;
  }

  lemma CallPlaced(d: Dram, p: Unrolled, m: Buffers)
    requires Laid(d, p.v, m)
    ensures M.WellPlaced(d, Call(p, m))
  {
    var q := Call(p, m);
    SizesPositive(p);
    Mul2(0, 0, p.v.batch, p.v.outDim);
    Mul2(0, 0, p.v.batch * p.v.outDim, p.v.outDim);
    hide Patches, PatchSize, M.InC, ElemAddr, Held, Disjoint, OutSpan;
    forall i, k | 0 <= i < q.dimI && 0 <= k < q.dimK ensures M.AAddr(q, i, k) in d && !M.InC(q, M.AAddr(q, i, k)) {
      OperandIn(d, p, m, m.a, Span(p.v), Patches(p.v), PatchSize(p.v), i, k);
    }
    forall k, j | 0 <= k < q.dimK && 0 <= j < q.dimJ ensures M.BAddr(q, k, j) in d && !M.InC(q, M.BAddr(q, k, j)) {
      OperandIn(d, p, m, m.b, WeightSpan(p.v), PatchSize(p.v), p.v.outCh, k, j);
    }
    if q.D != NULL {
      forall i, j | 0 <= i < q.dimI && 0 <= j < q.dimJ ensures M.DAddr(q, i, j) in d && !M.InC(q, M.DAddr(q, i, j)) {
        BiasIn(d, p, m, j);
        BiasAddr(p, m, i, j);
      }
    }
    forall i, j | 0 <= i < q.dimI && 0 <= j < q.dimJ ensures M.CAddr(q, i, j) in d {
      ResultIn(d, p, m, i, j);
    }
    hide Laid, M.AAddr, M.BAddr, M.CAddr, M.DAddr;
  }

  lemma BiasAddr(p: Unrolled, m: Buffers, i: int, j: int)
    requires p.bias.Some?
    ensures M.DAddr(Call(p, m), i, j) == m.d + j * SIZEOF_ACC
  {}

  // ---------- the layer ----------

  /** The layer with the flattened kernel the multiply reads. */
  function WithKernel(p: Unrolled, mat: seq<int>): (p': Unrolled)
    requires WeightSpan(p.v) <= |mat|
    ensures p'.v == p.v && p'.weights == mat
  {
    p.(weights := mat)
  }

  /** Patches, kernel and bias in DRAM. */
  ghost predicate Shared(d: Dram, p: Unrolled, patches: seq<int>, mat: seq<int>, m: Buffers) {
    && Loaded(d, m.a, SIZEOF_ELEM, patches, Span(p.v)) && Loaded(d, m.b, SIZEOF_ELEM, mat, WeightSpan(p.v))
    && (p.bias.Some? ==> Loaded(d, m.d, SIZEOF_ACC, p.bias.value, p.v.outCh))
  }

  /** The host arrays are where the multiply reads them. */
  method ShareAll(g: Gemmini, p: Unrolled, patches: seq<int>, mat: seq<int>, m: Buffers)
    requires g.Valid() && Laid(g.dram, p.v, m) && 0 <= Span(p.v) <= |patches| && 0 <= WeightSpan(p.v) <= |mat|
    modifies g`dram
    ensures g.Valid() && Laid(g.dram, p.v, m) && Shared(g.dram, p, patches, mat, m)
  {
    ghost var d0 := g.dram;
    hide Span, WeightSpan, OutSpan, Held, Loaded;
    Share(g, m.a, SIZEOF_ELEM, patches, Span(p.v));
    ghost var d1 := g.dram;
    LaidStill(d0, d1, p.v, m);
    Share(g, m.b, SIZEOF_ELEM, mat, WeightSpan(p.v));
    ghost var d2 := g.dram;
    LaidStill(d1, d2, p.v, m);
    StillThere(d1, d2, m.b, SIZEOF_ELEM, mat, WeightSpan(p.v), m.a, SIZEOF_ELEM, patches, Span(p.v));
    if p.bias.Some? {
      Share(g, m.d, SIZEOF_ACC, p.bias.value, p.v.outCh);
      LaidStill(d2, g.dram, p.v, m);
      StillThere(d2, g.dram, m.d, SIZEOF_ACC, p.bias.value, p.v.outCh, m.a, SIZEOF_ELEM, patches, Span(p.v));
      StillThere(d2, g.dram, m.d, SIZEOF_ACC, p.bias.value, p.v.outCh, m.b, SIZEOF_ELEM, mat, WeightSpan(p.v));
    }
  }

  lemma LaidStill(d: Dram, d': Dram, v: Layer, m: Buffers)
    requires Laid(d, v, m) && d'.Keys == d.Keys
    ensures Laid(d', v, m)
  {
    assert forall a :: a in d ==> a in d';
  }

  /** Layers the network programs run this way: plain layouts, not empty. */
  predicate Flattens(v: Layer) {
    !v.wrot180 && !v.transW1203 && !v.transW0132 && !v.transOut && v.batch > 0 && v.outCh > 0
  }

  /** im2col into a zeroed matrix, and flatten_weights. */
  method Prepare(p: Unrolled, w: seq<int>, patches: array<int>, mat: array<int>)
    requires Flattens(p.v) && ZeroUpTo(patches[..], Span(p.v)) && patches != mat
    requires ConvReference.KernelFits(p.v, w) && WeightSpan(p.v) <= mat.Length
    modifies patches, mat
    ensures ConvReference.SameWeights(WithKernel(p, mat[..]), w)
    ensures Filling(WithKernel(p, mat[..]), patches[..], Span(p.v))
  {
    ghost var mat0, before := mat[..], patches[..];
    FlattenWeights(p.v, w, mat);
    var p' := WithKernel(p, mat[..]);
    FlattenedIsHwio(p', w, mat0);
    hide ConvReference.SameWeights, ConvReference.KernelFits, Ix4, Conv.Ok, PatchSize, Patches, Unrolling, ZeroUpTo;
    var rows := Im2col.Im2col(p', patches);
    ZeroedFilling(p', before, patches[..], Span(p.v));
  }

  predicate InOutput(p: Unrolled, b: int, y: int, x: int, o: int) { p.Output().In(b, y, x, o) }
  function OutputIx(p: Unrolled, b: int, y: int, x: int, o: int): int { p.Output().Ix(b, y, x, o) }

  /** What conv_cpu_without_pool stores at (b, y, x, o). */
  function Wanted(p: Unrolled, b: int, y: int, x: int, o: int): int { p.Cell()(b, y, x, o) }

  /** C holds the layer's output. */
  ghost predicate Convolved(d: Dram, p: Unrolled, m: Buffers) {
    forall b, y, x, o :: InOutput(p, b, y, x, o) ==> Get(d, m.c + OutputIx(p, b, y, x, o)) == Wanted(p, b, y, x, o)
  }

  lemma CallIsMatmul(d: Dram, p: Unrolled, patches: seq<int>, m: Buffers)
    requires Flattens(p.v) && m.d > 0 && Shared(d, p, patches, p.weights, m)
    ensures MatmulOf(p, M.Problem(d, Call(p, m)), patches)
  {
    hide Patches, PatchSize, Loaded;
  }

  lemma ProductConvolves(d: Dram, p: Unrolled, patches: seq<int>, m: Buffers)
    requires Flattens(p.v) && Laid(d, p.v, m) && Shared(d, p, patches, p.weights, m)
    requires Filling(p, patches, Span(p.v))
    ensures Convolved(M.Product(d, Call(p, m)), p, m)
  {
    assert m.d > 0;
    hide *;
    CallPlaced(d, p, m);
    CallIsMatmul(d, p, patches, m);
    ResultAt(p, m);
    ConvolvedIf(d, p, patches, m);
  }

  lemma ConvolvedIf(d: Dram, p: Unrolled, patches: seq<int>, m: Buffers)
    requires M.WellPlaced(d, Call(p, m)) && MatmulOf(p, M.Problem(d, Call(p, m)), patches)
    requires Filling(p, patches, Span(p.v)) && Call(p, m).C == m.c
    ensures Convolved(M.Product(d, Call(p, m)), p, m)
  {
    hide M.WellPlaced, M.Product, Filling, Span, MatmulOf, Call, Get, InOutput, OutputIx, Wanted;
    forall b, y, x, o | InOutput(p, b, y, x, o)
      ensures Get(M.Product(d, Call(p, m)), m.c + OutputIx(p, b, y, x, o)) == Wanted(p, b, y, x, o)
    {
      hide *;
      ConvolvedAt(d, p, patches, m, b, y, x, o);
    }
  }

  lemma ConvolvedAt(d: Dram, p: Unrolled, patches: seq<int>, m: Buffers, b: int, y: int, x: int, o: int)
    requires M.WellPlaced(d, Call(p, m)) && MatmulOf(p, M.Problem(d, Call(p, m)), patches)
    requires Filling(p, patches, Span(p.v)) && Call(p, m).C == m.c && InOutput(p, b, y, x, o)
    ensures Get(M.Product(d, Call(p, m)), m.c + OutputIx(p, b, y, x, o)) == Wanted(p, b, y, x, o)
  {
    hide M.WellPlaced, M.Product, Filling, MatmulOf, Call, Target.Ix, M.After, Flat, Patches, PatchSize, Get,
         Unrollable, Conv.Acc, Conv.Out;
    Im2colMatmulIsConv(p, M.Problem(d, Call(p, m)), patches, b, y, x, o);
  }

  lemma ResultAt(p: Unrolled, m: Buffers)
    ensures Call(p, m).C == m.c
  {}

  lemma CallSizes(p: Unrolled, m: Buffers)
    requires Flattens(p.v)
    ensures Call(p, m).dimI == Patches(p.v) > 0 && Call(p, m).dimJ == p.v.outCh > 0 && Call(p, m).dimK > 0
    ensures !Call(p, m).transA && !Call(p, m).transB && !Call(p, m).lowD && !Call(p, m).fullC
  {
    SizesPositive(p);
    MulPos(p.v.batch, p.v.outDim);
    MulPos(p.v.batch * p.v.outDim, p.v.outDim);
  }

  /** The multiply of one layer, on any back end. */
  method Multiply(g: Gemmini, p: Unrolled, patches: seq<int>, m: Buffers, kind: Kind) returns (r: Status)
    requires g.Valid() && (kind == WS ==> DIM <= ACC_ROWS / 2) && Laid(g.dram, p.v, m)
    requires Flattens(p.v) && 0 <= Span(p.v) <= |patches| && Filling(p, patches, Span(p.v))
    modifies g
    ensures g.Valid() && (r == Done ==> Convolved(g.dram, p, m))
    ensures RoomForK(kind, Blocks(Patches(p.v)), Blocks(p.v.outCh)) && SPAD_ROWS <= 65535 * DIM ==> r == Done
  {
    KernelLong(p);
    CallSizes(p, m);
    hide Span, WeightSpan, Filling, Call, Laid, Shared, Convolved, M.WellPlaced, M.Product, RoomForK, MaxTileIJ,
         Patches, Flattens, Blocks;
    ShareAll(g, p, patches, p.weights, m);
    CallPlaced(g.dram, p, m);
    ProductConvolves(g.dram, p, patches, m);
    var q := Call(p, m);
    assert Effective(q, kind) == q;
    r := TiledMatmulAuto(g, q, kind);
  }

  lemma KernelLong(p: Unrolled)
    ensures 0 <= WeightSpan(p.v) <= |p.weights|
  {
    Mul2(0, 0, p.v.kDim, p.v.kDim);
    Mul2(0, 0, p.v.kDim * p.v.kDim, p.v.inCh);
    Mul2(0, 0, PatchSize(p.v), p.v.outCh);
  }

  /** im2col, flatten_weights and one multiply leave in C what conv_cpu_without_pool computes from the
      same weights, on every back end, whenever the multiply's checks let it run. */
  method ConvByMatmul(g: Gemmini, p: Unrolled, w: seq<int>, patches: array<int>, mat: array<int>, m: Buffers,
                      kind: Kind) returns (r: Status)
    requires g.Valid() && (kind == WS ==> DIM <= ACC_ROWS / 2) && Laid(g.dram, p.v, m)
    requires Flattens(p.v) && ZeroUpTo(patches[..], Span(p.v)) && patches != mat
    requires ConvReference.KernelFits(p.v, w) && WeightSpan(p.v) <= mat.Length
    modifies g, patches, mat
    ensures g.Valid() && ConvReference.SameWeights(WithKernel(p, mat[..]), w)
    ensures r == Done ==> Convolved(g.dram, WithKernel(p, mat[..]), m)
    ensures RoomForK(kind, Blocks(Patches(p.v)), Blocks(p.v.outCh)) && SPAD_ROWS <= 65535 * DIM ==> r == Done
  {
    SpanNatural(p);
    ZeroLong(patches[..], Span(p.v));
    hide Span, WeightSpan, Filling, Laid, Convolved, RoomForK, MaxTileIJ, Patches, Flattens, ZeroUpTo, Blocks,
         ConvReference.SameWeights, ConvReference.KernelFits;
    Prepare(p, w, patches, mat);
    r := Multiply(g, WithKernel(p, mat[..]), patches[..], m, kind);
  }

  lemma SpanNatural(p: Unrolled)
    ensures 0 <= Span(p.v)
  {
    Mul2(0, 0, p.v.batch, p.v.outDim);
    Mul2(0, 0, p.v.batch * p.v.outDim, p.v.outDim);
    SizesPositive(p);
    Mul2(0, 0, Patches(p.v), PatchSize(p.v));
  }

  lemma ZeroLong(s: seq<int>, n: int)
    requires ZeroUpTo(s, n)
    ensures n <= |s|
  {}
}
