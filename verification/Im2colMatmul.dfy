/** A convolution as im2col, flatten_weights and one matrix multiply. */
module Im2colMatmul {
  import opened Accelerator
  import opened Config
  import opened ConvSpec
  import opened Im2col
  import opened Quantize
  import opened Sums3
  import opened Tensor
  import M = MatmulSpec
  import ConvReference
  import S = Sums

  // ---------- flatten_weights ----------

  function FlatTarget(v: Layer, w: seq<int>): Target {
    Target(v.kDim, v.kDim, v.inCh, v.outCh, false, (kr, kc, ch, o) => At(w, Ix4(v.kDim, v.kDim, v.inCh, o, kr, kc, ch)))
  }

  /** weights_mat[krow, kcol, inc][outc] = weights[outc][krow][kcol][inc] */
  method FlattenRow(v: Layer, w: seq<int>, mat: array<int>, outc: int, krow: int)
    requires v.Ok() && ConvReference.KernelFits(v, w)
    requires FlatTarget(v, w).Size() <= mat.Length && 0 <= outc < v.outCh && 0 <= krow < v.kDim
    modifies mat
    ensures Wrote(FlatTarget(v, w), old(mat[..]), mat[..], Box(krow, krow + 1, 0, v.kDim, 0, v.inCh, outc, outc + 1))
  {
    ghost var t := FlatTarget(v, w);
    ghost var s0 := mat[..];
    for kcol := 0 to v.kDim
      invariant Wrote(t, s0, mat[..], Box(krow, krow + 1, 0, kcol, 0, v.inCh, outc, outc + 1))
    {
      ghost var s1 := mat[..];
      for inc := 0 to v.inCh
        invariant Wrote(t, s1, mat[..], Box(krow, krow + 1, kcol, kcol + 1, 0, inc, outc, outc + 1))
      {
        ghost var s2 := mat[..];
        var e := OhwiElement(v, w, outc, krow, kcol, inc);
        var wmatrow := krow * v.kDim * v.inCh + kcol * v.inCh + inc;
        MatIndex(v, w, krow, kcol, inc, outc);
        hide Ix4, Layer.Ok, ConvReference.KernelFits, Target.Size;
        WroteOne(t, s2, krow, kcol, inc, outc);
        mat[wmatrow * v.outCh + outc] := e;
        WroteJoin(t, s1, s2, mat[..], Box(krow, krow + 1, kcol, kcol + 1, 0, inc, outc, outc + 1),
                  Box(krow, krow + 1, kcol, kcol + 1, inc, inc + 1, outc, outc + 1),
                  Box(krow, krow + 1, kcol, kcol + 1, 0, inc + 1, outc, outc + 1));
      }
      WroteJoin(t, s0, s1, mat[..], Box(krow, krow + 1, 0, kcol, 0, v.inCh, outc, outc + 1),
                Box(krow, krow + 1, kcol, kcol + 1, 0, v.inCh, outc, outc + 1),
                Box(krow, krow + 1, 0, kcol + 1, 0, v.inCh, outc, outc + 1));
    }
  }

  method OhwiElement(v: Layer, w: seq<int>, outc: int, krow: int, kcol: int, inc: int) returns (e: int)
    requires v.Ok() && ConvReference.KernelFits(v, w) && FlatTarget(v, w).In(krow, kcol, inc, outc)
    ensures e == FlatTarget(v, w).cell(krow, kcol, inc, outc)
  {
    Ix4Bound(v.outCh, v.kDim, v.kDim, v.inCh, outc, krow, kcol, inc);
    var i := Ix4(v.kDim, v.kDim, v.inCh, outc, krow, kcol, inc);
    assert 0 <= i < |w|;
    hide Ix4, ConvReference.KernelFits, Target.Size;
    e := w[i];
    assert e == At(w, i);
  }

  lemma MatIndex(v: Layer, w: seq<int>, krow: int, kcol: int, inc: int, outc: int)
    ensures (krow * v.kDim * v.inCh + kcol * v.inCh + inc) * v.outCh + outc
              == FlatTarget(v, w).Ix(krow, kcol, inc, outc)
  {}

  method FlattenWeights(v: Layer, w: seq<int>, mat: array<int>)
    requires v.Ok() && ConvReference.KernelFits(v, w) && FlatTarget(v, w).Size() <= mat.Length
    modifies mat
    ensures Filled(FlatTarget(v, w), old(mat[..]), mat[..])
  {
    ghost var t := FlatTarget(v, w);
    ghost var s0 := mat[..];
    for outc := 0 to v.outCh
      invariant Wrote(t, s0, mat[..], Box(0, v.kDim, 0, v.kDim, 0, v.inCh, 0, outc))
    {
      ghost var s1 := mat[..];
      for krow := 0 to v.kDim
        invariant Wrote(t, s1, mat[..], Box(0, krow, 0, v.kDim, 0, v.inCh, outc, outc + 1))
      {
        ghost var s2 := mat[..];
        FlattenRow(v, w, mat, outc, krow);
        WroteJoin(t, s1, s2, mat[..], Box(0, krow, 0, v.kDim, 0, v.inCh, outc, outc + 1),
                  Box(krow, krow + 1, 0, v.kDim, 0, v.inCh, outc, outc + 1),
                  Box(0, krow + 1, 0, v.kDim, 0, v.inCh, outc, outc + 1));
      }
      WroteJoin(t, s0, s1, mat[..], Box(0, v.kDim, 0, v.kDim, 0, v.inCh, 0, outc),
                Box(0, v.kDim, 0, v.kDim, 0, v.inCh, outc, outc + 1),
                Box(0, v.kDim, 0, v.kDim, 0, v.inCh, 0, outc + 1));
    }
  }

  /** The flattened matrix is the HWIO kernel conv_cpu reads. */
  lemma FlattenedIsHwio(p: GoodConv, w: seq<int>, before: seq<int>)
    requires Filled(FlatTarget(p.v, w), before, p.weights) && ConvReference.KernelFits(p.v, w)
    requires !p.v.transW1203 && !p.v.transW0132
    ensures ConvReference.SameWeights(p, w)
  {
    var t := FlatTarget(p.v, w);
    hide Ix4, Target.Size, Conv.Ok, ConvReference.KernelFits;
    forall kr, kc, ch, o | 0 <= kr < p.v.kDim && 0 <= kc < p.v.kDim && 0 <= ch < p.v.inCh && 0 <= o < p.v.outCh
      ensures At(p.weights, p.v.WIx(kr, kc, ch, o)) == At(w, Ix4(p.v.kDim, p.v.kDim, p.v.inCh, o, kr, kc, ch))
    {
      assert At(p.weights, t.Ix(kr, kc, ch, o)) == t.cell(kr, kc, ch, o);
    }
  }

  // ---------- the multiply ----------

  /** s lies in DRAM from address a on, `size` bytes an element. */
  ghost predicate Loaded(d: Dram, a: int, size: int, s: seq<int>, n: int) {
    n <= |s| && forall i :: 0 <= i < n ==> Get(d, a + i * size) == At(s, i)
  }

  /** The multiply the network library issues for layer p: the patch matrix by the flattened
      weights, with a repeating bias. */
  ghost predicate MatmulOf(p: Unrolled, q: M.Problem, patches: seq<int>) {
    && !p.v.wrot180 && !p.v.transW1203 && !p.v.transW0132 && !p.v.transOut
    && q.p.dimI == Patches(p.v) && q.p.dimJ == p.v.outCh && q.p.dimK == PatchSize(p.v)
    && !q.p.transA && !q.p.transB && q.p.strideA == PatchSize(p.v) && q.p.strideB == p.v.outCh
       && q.p.strideC == p.v.outCh
    && q.p.scaleA == Identity() && q.p.scaleB == Identity()
    && q.p.act == p.act && q.p.scale == p.scale && q.p.relu6Shift == p.relu6Shift
    && q.p.repeatingBias && !q.p.fullC && !q.p.lowD && (q.p.D == NULL <==> p.bias.None?)
    && Loaded(q.d, q.p.A, SIZEOF_ELEM, patches, Flat(p.v, Patches(p.v), 0))
    && Loaded(q.d, q.p.B, SIZEOF_ELEM, p.weights, PatchSize(p.v) * p.v.outCh)
    && (p.bias.Some? ==> Loaded(q.d, q.p.D, SIZEOF_ACC, p.bias.value, p.v.outCh))
  }

  lemma TermIsTap(p: Unrolled, q: M.Problem, patches: seq<int>, b: int, r: int, c: int, o: int, kr: int, kc: int,
                  ch: int)
    requires MatmulOf(p, q, patches) && Filling(p, patches, Flat(p.v, Patches(p.v), 0))
    requires InPatch(p.v, b, r, c, kr, kc, ch) && 0 <= o < p.v.outCh
    ensures p.Tap(b, r, c, o)(kr, kc, ch)
         == M.Term(q.d, q.p, PatchRow(p.v, b, r, c), o)((kr * p.v.kDim + kc) * p.v.inCh + ch)
  {
    hide *;
    APatch(p, q, patches, b, r, c, kr, kc, ch);
    BWeight(p, q, patches, b, r, c, o, kr, kc, ch);
    TermUnfold(p, q, patches, b, r, c, o, kr, kc, ch);
  }

  lemma TermUnfold(p: Unrolled, q: M.Problem, patches: seq<int>, b: int, r: int, c: int, o: int, kr: int, kc: int,
                   ch: int)
    requires MatmulOf(p, q, patches)
    ensures var i, k := PatchRow(p.v, b, r, c), PatchCol(p.v, kr, kc, ch);
      && k == (kr * p.v.kDim + kc) * p.v.inCh + ch
      && M.Term(q.d, q.p, i, o)(k) == Get(q.d, M.AAddr(q.p, i, k)) * Get(q.d, M.BAddr(q.p, k, o))
      && p.Tap(b, r, c, o)(kr, kc, ch)
         == At(p.weights, p.v.WIx(kr, kc, ch, o)) * p.Pixel(b, p.v.Coord(r, kr), p.v.Coord(c, kc), ch)
  {
    hide M.AAddr, M.BAddr, Layer.WIx, Layer.Coord, Conv.Pixel, Loaded, PatchRow, PatchSize, Patches, Unrollable;
  }

  /** The element of A the multiply reads is the pixel under the tap. */
  lemma APatch(p: Unrolled, q: M.Problem, patches: seq<int>, b: int, r: int, c: int, kr: int, kc: int, ch: int)
    requires MatmulOf(p, q, patches) && Filling(p, patches, Flat(p.v, Patches(p.v), 0))
    requires InPatch(p.v, b, r, c, kr, kc, ch)
    ensures p.v.inDil > 0
    ensures Get(q.d, M.AAddr(q.p, PatchRow(p.v, b, r, c), PatchCol(p.v, kr, kc, ch)))
         == p.Pixel(b, p.v.Coord(r, kr), p.v.Coord(c, kc), ch)
  {
    var n := PatchIx(p.v, b, r, c, kr, kc, ch);
    PatchFits(p, b, r, c, kr, kc, ch);
    PatchElementIs(p, b, r, c, kr, kc, ch);
    hide PatchElement, OnImage, Conv.Pixel, Layer.Coord, PatchIx, Conv.Ok;
    assert M.AAddr(q.p, PatchRow(p.v, b, r, c), PatchCol(p.v, kr, kc, ch)) == q.p.A + n * SIZEOF_ELEM;
    hide Patches, PatchSize;
  }

  /** The element of B is the weight. */
  lemma BWeight(p: Unrolled, q: M.Problem, patches: seq<int>, b: int, r: int, c: int, o: int, kr: int, kc: int,
                ch: int)
    requires MatmulOf(p, q, patches) && 0 <= o < p.v.outCh && InPatch(p.v, b, r, c, kr, kc, ch)
    ensures Get(q.d, M.BAddr(q.p, PatchCol(p.v, kr, kc, ch), o)) == At(p.weights, p.v.WIx(kr, kc, ch, o))
  {
    var k := PatchCol(p.v, kr, kc, ch);
    ColBound(p.v, kr, kc, ch);
    DigitBound(k, PatchSize(p.v), o, p.v.outCh);
    assert p.v.WIx(kr, kc, ch, o) == k * p.v.outCh + o;
    hide PatchSize, Patches, PatchCol, Conv.Ok, Layer.WIx;
    assert M.BAddr(q.p, k, o) == q.p.B + (k * p.v.outCh + o) * SIZEOF_ELEM;
  }

  lemma BiasIs(p: Unrolled, q: M.Problem, patches: seq<int>, i: int, o: int)
    requires MatmulOf(p, q, patches) && 0 <= o < p.v.outCh
    ensures M.Bias(q.d, q.p, i, o) == p.Bias(o)
  {
    hide Filling, Conv.Ok, PatchSize, Patches, Flat;
    assert M.DAddr(q.p, i, o) == q.p.D + o * SIZEOF_ACC;
  }

  /** One row of the patch matrix times one column of the weights is the correlation. */
  lemma PartialIsAcc(p: Unrolled, q: M.Problem, patches: seq<int>, b: int, r: int, c: int, o: int)
    requires MatmulOf(p, q, patches) && Filling(p, patches, Flat(p.v, Patches(p.v), 0))
    requires p.Output().In(b, r, c, o)
    ensures M.Partial(q.d, q.p, PatchRow(p.v, b, r, c), o, PatchSize(p.v)) == p.Acc(b, r, c, o)
  {
    var f := M.Term(q.d, q.p, PatchRow(p.v, b, r, c), o);
    forall kr, kc, ch | 0 <= kr < p.v.kDim && 0 <= kc < p.v.kDim && 0 <= ch < p.v.inCh
      ensures p.Tap(b, r, c, o)(kr, kc, ch) == f((kr * p.v.kDim + kc) * p.v.inCh + ch)
    {
      TermIsTap(p, q, patches, b, r, c, o, kr, kc, ch);
    }
    BiasIs(p, q, patches, PatchRow(p.v, b, r, c), o);
    SumFlatten(p.v.kDim, p.v.kDim, p.v.inCh, f, p.Tap(b, r, c, o));
    hide MatmulOf, Filling, Conv.Tap, M.Term, S.Sum, Sum3, Conv.Ok, PatchRow, Conv.Bias;
  }

  /** After the multiply, C is the layer's output, laid out as conv_cpu_without_pool lays it out. */
  lemma Im2colMatmulIsConv(p: Unrolled, q: M.Placed, patches: seq<int>, b: int, r: int, c: int, o: int)
    requires MatmulOf(p, q, patches) && Filling(p, patches, Flat(p.v, Patches(p.v), 0))
    requires p.Output().In(b, r, c, o)
    ensures Get(M.Product(q.d, q.p), q.p.C + p.Output().Ix(b, r, c, o)) == p.Cell()(b, r, c, o)
  {
    hide Filling, Conv.Acc, Conv.Ok, M.Partial, M.Product, M.After, M.WellPlaced, PatchRow, Loaded, Ix4, M.CAddr,
         Target.Ix, Patches, PatchSize, Flat, ScaleAndSat, Get;
    var i := PatchRow(p.v, b, r, c);
    RowInRange(p, b, r, c);
    OutputAddress(p, q, patches, b, r, c, o);
    PartialIsAcc(p, q, patches, b, r, c, o);
    M.ProductCell(q, i, o);
  }

  lemma OutputAddress(p: Unrolled, q: M.Problem, patches: seq<int>, b: int, r: int, c: int, o: int)
    requires MatmulOf(p, q, patches)
    ensures M.CAddr(q.p, PatchRow(p.v, b, r, c), o) == q.p.C + p.Output().Ix(b, r, c, o)
  {
    hide Conv.Acc, Conv.Ok, Loaded, Patches, PatchSize, Flat;
  }

  lemma RowInRange(p: Unrolled, b: int, r: int, c: int)
    requires 0 <= b < p.v.batch && 0 <= r < p.v.outDim && 0 <= c < p.v.outDim
    ensures 0 <= PatchRow(p.v, b, r, c) < Patches(p.v)
  {
    DigitBound(b, p.v.batch, r, p.v.outDim);
    DigitBound(b * p.v.outDim + r, p.v.batch * p.v.outDim, c, p.v.outDim);
  }
}
