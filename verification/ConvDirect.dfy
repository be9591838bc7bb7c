/** conv_cpu_without_pool: the convolution written as seven nested loops. */
module ConvDirect {
  import opened Arith
  import opened ConvSpec
  import opened Sums
  import opened Sums3
  import opened Tensor

  /** The source's address of an input element. */
  function InputIndex(v: Layer, b: int, irow: int, icol: int, kch: int): int {
    if v.transIn then (kch * v.inDim * v.inDim + irow * v.inDim + icol) * v.batch + b
    else (b * v.inDim * v.inDim + irow * v.inDim + icol) * v.inCh + kch
  }

  function WeightIndex(v: Layer, krow_: int, kcol_: int, kch: int, och: int): int {
    if v.transW1203 then (kch * v.kDim * v.kDim + krow_ * v.kDim + kcol_) * v.outCh + och
    else if v.transW0132 then (krow_ * v.kDim * v.outCh + kcol_ * v.outCh + och) * v.inCh + kch
    else (krow_ * v.kDim * v.inCh + kcol_ * v.inCh + kch) * v.outCh + och
  }

  function OutputIndex(v: Layer, b: int, orow: int, ocol: int, och: int): int {
    if v.transOut then (orow * v.outDim * v.batch + ocol * v.batch + b) * v.outCh + och
    else (b * v.outDim * v.outDim + orow * v.outDim + ocol) * v.outCh + och
  }

  lemma IndexIs(p: GoodConv, b: int, r: int, c: int, x: int, y: int)
    ensures InputIndex(p.v, b, r, c, x) == p.v.InIx(b, r, c, x)
    ensures WeightIndex(p.v, r, c, x, y) == p.v.WIx(r, c, x, y)
    ensures OutputIndex(p.v, b, r, c, x) == p.Output().Ix(b, r, c, x)
  {
    var v := p.v;
    Ix4Flat(v.inDim, v.inDim, v.batch, x, r, c, b);
    Ix4Flat(v.inDim, v.inDim, v.inCh, b, r, c, x);
    Ix4Flat(v.kDim, v.kDim, v.outCh, x, r, c, y);
    Ix4Flat(v.kDim, v.outCh, v.inCh, r, c, y, x);
    Ix4Flat(v.kDim, v.inCh, v.outCh, r, c, x, y);
    Ix4Flat(v.outDim, v.batch, v.outCh, r, c, b, x);
    Ix4Flat(v.outDim, v.outDim, v.outCh, b, r, c, x);
    hide Ix4;
  }

  ghost predicate InOutput(v: Layer, b: int, orow: int, ocol: int, och: int) {
    0 <= b < v.batch && 0 <= orow < v.outDim && 0 <= ocol < v.outDim && 0 <= och < v.outCh
  }

  /** The kch loop. */
  method ChannelTaps(p: GoodConv, b: int, orow: int, ocol: int, och: int, krow: int, kcol: int,
                     irow: int, icol: int, start: int) returns (opixel: int)
    requires InOutput(p.v, b, orow, ocol, och) && 0 <= krow < p.v.kDim && 0 <= kcol < p.v.kDim
    requires p.v.Coord(orow, krow) % p.v.inDil == 0 && irow == p.v.Coord(orow, krow) / p.v.inDil
    requires p.v.Coord(ocol, kcol) % p.v.inDil == 0 && icol == p.v.Coord(ocol, kcol) / p.v.inDil
    ensures opixel == start + Sum(0, p.v.inCh, Leaf(p.Tap(b, orow, ocol, och), krow, kcol))
  {
    var v := p.v;
    opixel := start;
    hide Layer.InIx, Layer.WIx, Layer.Coord;
    for kch := 0 to v.inCh
      invariant opixel == start + Sum(0, kch, Leaf(p.Tap(b, orow, ocol, och), krow, kcol))
    {
      var ipixel := 0;
      if !(irow < 0 || irow >= v.inDim || icol < 0 || icol >= v.inDim) {
        InIxBound(p, b, irow, icol, kch);
        IndexIs(p, b, irow, icol, kch, och);
        ipixel := p.input[InputIndex(v, b, irow, icol, kch)];
      }
      var krow_ := if v.wrot180 then v.kDim - krow - 1 else krow;
      var kcol_ := if v.wrot180 then v.kDim - kcol - 1 else kcol;
      WIxBound(p, krow_, kcol_, kch, och);
      IndexIs(p, b, krow_, kcol_, kch, och);
      var weight := p.weights[WeightIndex(v, krow_, kcol_, kch, och)];
      hide InputIndex, WeightIndex;
      assert weight * ipixel == Leaf(p.Tap(b, orow, ocol, och), krow, kcol)(kch);
      opixel := opixel + weight * ipixel;
    }
  }

  /** A tap that falls between the grid points of the dilated image adds nothing. */
  lemma OffGridColumn(p: GoodConv, b: int, r: int, c: int, o: int, kr: int, kc: int)
    requires p.v.Coord(c, kc) % p.v.inDil != 0 || p.v.Coord(r, kr) % p.v.inDil != 0
    ensures Col(p.Tap(b, r, c, o), 0, p.v.inCh, kr)(kc) == 0
  {
    hide Layer.InIx, Layer.Coord;
    forall ch ensures Leaf(p.Tap(b, r, c, o), kr, kc)(ch) == 0 {}
    SumZero(0, p.v.inCh, Leaf(p.Tap(b, r, c, o), kr, kc));
  }

  lemma OffGridRow(p: GoodConv, b: int, r: int, c: int, o: int, kr: int)
    requires p.v.Coord(r, kr) % p.v.inDil != 0
    ensures Row(p.Tap(b, r, c, o), 0, p.v.kDim, 0, p.v.inCh)(kr) == 0
  {
    forall kc ensures Col(p.Tap(b, r, c, o), 0, p.v.inCh, kr)(kc) == 0 {
      OffGridColumn(p, b, r, c, o, kr, kc);
    }
    hide Layer.Coord;
    SumZero(0, p.v.kDim, Col(p.Tap(b, r, c, o), 0, p.v.inCh, kr));
  }

  /** The kcol loop. */
  method RowTaps(p: GoodConv, b: int, orow: int, ocol: int, och: int, krow: int, irow: int, start: int)
    returns (opixel: int)
    requires InOutput(p.v, b, orow, ocol, och) && 0 <= krow < p.v.kDim
    requires p.v.Coord(orow, krow) % p.v.inDil == 0 && irow == p.v.Coord(orow, krow) / p.v.inDil
    ensures opixel == start + Row(p.Tap(b, orow, ocol, och), 0, p.v.kDim, 0, p.v.inCh)(krow)
  {
    var v := p.v;
    opixel := start;
    for kcol := 0 to v.kDim
      invariant opixel == start + Sum(0, kcol, Col(p.Tap(b, orow, ocol, och), 0, v.inCh, krow))
    {
      var x := ocol * v.stride + kcol * v.kDil - v.padding;
      CDivExact(x, v.inDil);
      if CRem(x, v.inDil) != 0 {
        OffGridColumn(p, b, orow, ocol, och, krow, kcol);
        continue;
      }
      opixel := ChannelTaps(p, b, orow, ocol, och, krow, kcol, irow, CDiv(x, v.inDil), opixel);
    }
  }

  /** The three kernel loops: one accumulated output pixel. */
  method AccumulatePixel(p: GoodConv, b: int, orow: int, ocol: int, och: int) returns (opixel: int)
    requires InOutput(p.v, b, orow, ocol, och)
    ensures opixel == p.Acc(b, orow, ocol, och)
  {
    var v := p.v;
    opixel := if p.bias.Some? then p.bias.value[och] else 0;
    for krow := 0 to v.kDim
      invariant opixel == p.Bias(och) + Sum(0, krow, Row(p.Tap(b, orow, ocol, och), 0, v.kDim, 0, v.inCh))
    {
      var y := orow * v.stride + krow * v.kDil - v.padding;
      CDivExact(y, v.inDil);
      if CRem(y, v.inDil) != 0 {
        OffGridRow(p, b, orow, ocol, och, krow);
        continue;
      }
      opixel := RowTaps(p, b, orow, ocol, och, krow, CDiv(y, v.inDil), opixel);
    }
  }

  /** The ocol and och loops. */
  method OutputRow(p: GoodConv, output: array<int>, b: int, orow: int)
    requires p.Output().Size() <= output.Length && 0 <= b < p.v.batch && 0 <= orow < p.v.outDim
    modifies output
    ensures Wrote(p.Output(), old(output[..]), output[..], Box(b, b + 1, orow, orow + 1, 0, p.v.outDim, 0, p.v.outCh))
  {
    var v, t := p.v, p.Output();
    ghost var s0 := output[..];
    for ocol := 0 to v.outDim
      invariant Wrote(t, s0, output[..], Box(b, b + 1, orow, orow + 1, 0, ocol, 0, v.outCh))
    {
      ghost var s1 := output[..];
      for och := 0 to v.outCh
        invariant Wrote(t, s1, output[..], Box(b, b + 1, orow, orow + 1, ocol, ocol + 1, 0, och))
      {
        ghost var s2 := output[..];
        var opixel := AccumulatePixel(p, b, orow, ocol, och);
        IndexIs(p, b, orow, ocol, och, 0);
        WroteOne(t, s2, b, orow, ocol, och);
        output[OutputIndex(v, b, orow, ocol, och)] := p.Out(opixel);
        WroteJoin(t, s1, s2, output[..], Box(b, b + 1, orow, orow + 1, ocol, ocol + 1, 0, och),
                  Box(b, b + 1, orow, orow + 1, ocol, ocol + 1, och, och + 1),
                  Box(b, b + 1, orow, orow + 1, ocol, ocol + 1, 0, och + 1));
      }
      WroteJoin(t, s0, s1, output[..], Box(b, b + 1, orow, orow + 1, 0, ocol, 0, v.outCh),
                Box(b, b + 1, orow, orow + 1, ocol, ocol + 1, 0, v.outCh),
                Box(b, b + 1, orow, orow + 1, 0, ocol + 1, 0, v.outCh));
    }
  }

  /** Every output element receives its cell of the layer; no other element changes. */
  method ConvCpuWithoutPool(p: GoodConv, output: array<int>)
    requires p.Output().Size() <= output.Length
    modifies output
    ensures Filled(p.Output(), old(output[..]), output[..])
  {
    var v, t := p.v, p.Output();
    ghost var s0 := output[..];
    for b := 0 to v.batch
      invariant Wrote(t, s0, output[..], Box(0, b, 0, v.outDim, 0, v.outDim, 0, v.outCh))
    {
      ghost var s1 := output[..];
      for orow := 0 to v.outDim
        invariant Wrote(t, s1, output[..], Box(b, b + 1, 0, orow, 0, v.outDim, 0, v.outCh))
      {
        ghost var s2 := output[..];
        OutputRow(p, output, b, orow);
        WroteJoin(t, s1, s2, output[..], Box(b, b + 1, 0, orow, 0, v.outDim, 0, v.outCh),
                  Box(b, b + 1, orow, orow + 1, 0, v.outDim, 0, v.outCh),
                  Box(b, b + 1, 0, orow + 1, 0, v.outDim, 0, v.outCh));
      }
      WroteJoin(t, s0, s1, output[..], Box(0, b, 0, v.outDim, 0, v.outDim, 0, v.outCh),
                Box(b, b + 1, 0, v.outDim, 0, v.outDim, 0, v.outCh),
                Box(0, b + 1, 0, v.outDim, 0, v.outDim, 0, v.outCh));
    }
  }
}
