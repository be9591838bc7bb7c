/** The reference convolutions of the convolution tests, which materialise the zero-stuffed
    input, the zero-stuffed kernel or the rotated kernel, against conv_cpu_without_pool. */
module ConvReference {
  import opened Arith
  import opened ConvSpec
  import opened Dilation
  import opened Quantize
  import opened Sums
  import opened Sums3
  import opened Tensor

  /** A plain convolution: NHWC image, OHWI kernel, no dilation, clipped result. */
  datatype Plain = Plain(batch: int, inCh: int, imageDim: int, outCh: int, kernelDim: int, outDim: int,
                         stride: int, padding: int, image: seq<int>, kernel: seq<int>, bias: seq<int>)
  {
    ghost predicate Ok() {
      && batch >= 0 && inCh >= 0 && imageDim >= 0 && outCh >= 0 && kernelDim >= 0 && outDim >= 0
      && |image| >= batch * imageDim * imageDim * inCh
      && |kernel| >= outCh * kernelDim * kernelDim * inCh
      && |bias| >= outCh
    }

    function Pixel(b: int, y: int, x: int, ch: int): int {
      if 0 <= y < imageDim && 0 <= x < imageDim then At(image, Ix4(imageDim, imageDim, inCh, b, y, x, ch)) else 0
    }

    function Tap(b: int, r: int, c: int, o: int): Fn3 {
      (kr, kc, ch) => At(kernel, Ix4(kernelDim, kernelDim, inCh, o, kr, kc, ch))
                      * Pixel(b, r * stride + kr - padding, c * stride + kc - padding, ch)
    }

    function Acc(b: int, r: int, c: int, o: int): int {
      At(bias, o) + Sum3(Tap(b, r, c, o), 0, kernelDim, 0, kernelDim, 0, inCh)
    }

    function Output(): Target {
      Target(batch, outDim, outDim, outCh, false, (b, r, c, o) => Clip(Acc(b, r, c, o)))
    }
  }

  type GoodPlain = x: Plain | x.Ok() ghost witness Plain(0, 0, 0, 0, 0, 0, 0, 0, [], [], [])

  method PlainChannels(x: GoodPlain, b: int, orow: int, ocol: int, och: int, krow: int, kcol: int, start: int)
    returns (result: int)
    requires 0 <= b < x.batch && 0 <= och < x.outCh && 0 <= krow < x.kernelDim && 0 <= kcol < x.kernelDim
    ensures result == start + Sum(0, x.inCh, Leaf(x.Tap(b, orow, ocol, och), krow, kcol))
  {
    result := start;
    for kch := 0 to x.inCh
      invariant result == start + Sum(0, kch, Leaf(x.Tap(b, orow, ocol, och), krow, kcol))
    {
      var irow := orow * x.stride + krow - x.padding;
      var icol := ocol * x.stride + kcol - x.padding;
      var pixel := 0;
      if !(irow < 0 || irow >= x.imageDim || icol < 0 || icol >= x.imageDim) {
        Ix4Bound(x.batch, x.imageDim, x.imageDim, x.inCh, b, irow, icol, kch);
        pixel := x.image[Ix4(x.imageDim, x.imageDim, x.inCh, b, irow, icol, kch)];
      }
      Ix4Bound(x.outCh, x.kernelDim, x.kernelDim, x.inCh, och, krow, kcol, kch);
      var w := x.kernel[Ix4(x.kernelDim, x.kernelDim, x.inCh, och, krow, kcol, kch)];
      hide Ix4, Plain.Ok;
      assert w * pixel == Leaf(x.Tap(b, orow, ocol, och), krow, kcol)(kch);
      result := result + w * pixel;
    }
  }

  method PlainPixel(x: GoodPlain, b: int, orow: int, ocol: int, och: int) returns (result: int)
    requires 0 <= b < x.batch && 0 <= och < x.outCh
    ensures result == x.Acc(b, orow, ocol, och)
  {
    hide Plain.Pixel;
    result := x.bias[och];
    for krow := 0 to x.kernelDim
      invariant result == At(x.bias, och) + Sum(0, krow, Row(x.Tap(b, orow, ocol, och), 0, x.kernelDim, 0, x.inCh))
    {
      ghost var start := result;
      for kcol := 0 to x.kernelDim
        invariant result == start + Sum(0, kcol, Col(x.Tap(b, orow, ocol, och), 0, x.inCh, krow))
      {
        result := PlainChannels(x, b, orow, ocol, och, krow, kcol, result);
      }
    }
  }

  method PlainRow(x: GoodPlain, output: array<int>, b: int, orow: int)
    requires x.Output().Size() <= output.Length && 0 <= b < x.batch && 0 <= orow < x.outDim
    modifies output
    ensures Wrote(x.Output(), old(output[..]), output[..], Box(b, b + 1, orow, orow + 1, 0, x.outDim, 0, x.outCh))
  {
    ghost var t := x.Output();
    ghost var s0 := output[..];
    for ocol := 0 to x.outDim
      invariant Wrote(t, s0, output[..], Box(b, b + 1, orow, orow + 1, 0, ocol, 0, x.outCh))
    {
      ghost var s1 := output[..];
      for och := 0 to x.outCh
        invariant Wrote(t, s1, output[..], Box(b, b + 1, orow, orow + 1, ocol, ocol + 1, 0, och))
      {
        ghost var s2 := output[..];
        var result := PlainPixel(x, b, orow, ocol, och);
        WroteOne(t, s2, b, orow, ocol, och);
        output[Ix4(x.outDim, x.outDim, x.outCh, b, orow, ocol, och)] := Clip(result);
        WroteJoin(t, s1, s2, output[..], Box(b, b + 1, orow, orow + 1, ocol, ocol + 1, 0, och),
                  Box(b, b + 1, orow, orow + 1, ocol, ocol + 1, och, och + 1),
                  Box(b, b + 1, orow, orow + 1, ocol, ocol + 1, 0, och + 1));
      }
      WroteJoin(t, s0, s1, output[..], Box(b, b + 1, orow, orow + 1, 0, ocol, 0, x.outCh),
                Box(b, b + 1, orow, orow + 1, ocol, ocol + 1, 0, x.outCh),
                Box(b, b + 1, orow, orow + 1, 0, ocol + 1, 0, x.outCh));
    }
  }

  /** The main loops of the reference convolutions. */
  method PlainConv(x: GoodPlain, output: array<int>)
    requires x.Output().Size() <= output.Length
    modifies output
    ensures Filled(x.Output(), old(output[..]), output[..])
  {
    ghost var t := x.Output();
    ghost var s0 := output[..];
    for b := 0 to x.batch
      invariant Wrote(t, s0, output[..], Box(0, b, 0, x.outDim, 0, x.outDim, 0, x.outCh))
    {
      ghost var s1 := output[..];
      for orow := 0 to x.outDim
        invariant Wrote(t, s1, output[..], Box(b, b + 1, 0, orow, 0, x.outDim, 0, x.outCh))
      {
        ghost var s2 := output[..];
        PlainRow(x, output, b, orow);
        WroteJoin(t, s1, s2, output[..], Box(b, b + 1, 0, orow, 0, x.outDim, 0, x.outCh),
                  Box(b, b + 1, orow, orow + 1, 0, x.outDim, 0, x.outCh),
                  Box(b, b + 1, 0, orow + 1, 0, x.outDim, 0, x.outCh));
      }
      WroteJoin(t, s0, s1, output[..], Box(0, b, 0, x.outDim, 0, x.outDim, 0, x.outCh),
                Box(b, b + 1, 0, x.outDim, 0, x.outDim, 0, x.outCh),
                Box(0, b + 1, 0, x.outDim, 0, x.outDim, 0, x.outCh));
    }
  }

  // ---------- the layer a reference convolution computes ----------

  ghost predicate KernelFits(v: Layer, w: seq<int>) { |w| >= v.outCh * v.kDim * v.kDim * v.inCh }

  /** w, in OHWI order, holds the weights of layer p, whatever p's layout. */
  ghost predicate SameWeights(p: GoodConv, w: seq<int>) {
    && KernelFits(p.v, w)
    && forall kr, kc, ch, o :: 0 <= kr < p.v.kDim && 0 <= kc < p.v.kDim && 0 <= ch < p.v.inCh && 0 <= o < p.v.outCh ==>
         At(p.weights, p.v.WIx(kr, kc, ch, o)) == At(w, Ix4(p.v.kDim, p.v.kDim, p.v.inCh, o, kr, kc, ch))
  }

  /** p is the layer of a reference run: NHWC image and output, biased, neither scaled nor activated. */
  ghost predicate ReferenceLayer(p: GoodConv, w: seq<int>) {
    && !p.v.transIn && !p.v.transOut && p.bias.Some? && p.act == NO_ACTIVATION && p.scale == Identity()
    && p.v.inDim >= 1 && p.v.kDim >= 1 && p.v.kDil >= 1
    && SameWeights(p, w)
  }

  function InputStuffing(p: GoodConv): Stuffing { Stuffing(p.input, p.v.batch, p.v.inDim, p.v.inCh, p.v.inDil) }

  lemma GridRange(n: int, d: int, y: int)
    requires n >= 1 && d >= 1 && y % d == 0
    ensures 0 <= y < Stuffed(n, d) <==> 0 <= y / d < n
  {
    var q := y / d;
    assert y == q * d;
    assert Stuffed(n, d) == (n - 1) * d + 1;
    if 0 <= q < n { MulLe(q, n - 1, d); MulLe(0, q, d); }
    if q < 0 { MulLe(q, -1, d); }
    if q >= n { MulLe(n, q, d); }
  }

  /** The materialised image has the layer's pixels. */
  lemma PixelSame(p: GoodConv, x: GoodPlain, b: int, y: int, z: int, ch: int)
    requires p.v.inDim >= 1 && !p.v.transIn && Holds(InputStuffing(p).Result(), x.image)
    requires x.imageDim == Stuffed(p.v.inDim, p.v.inDil) && x.inCh == p.v.inCh
    requires 0 <= b < p.v.batch && 0 <= ch < p.v.inCh
    ensures x.Pixel(b, y, z, ch) == p.Pixel(b, y, z, ch)
  {
    var t := InputStuffing(p).Result();
    if y % p.v.inDil == 0 { GridRange(p.v.inDim, p.v.inDil, y); }
    if z % p.v.inDil == 0 { GridRange(p.v.inDim, p.v.inDil, z); }
    hide Ix4, Stuffed, Conv.Ok, Layer.Ok, Plain.Ok;
    if 0 <= y < x.imageDim && 0 <= z < x.imageDim {
      assert t.In(b, y, z, ch);
      assert At(x.image, t.Ix(b, y, z, ch)) == t.cell(b, y, z, ch);
    }
  }

  /** The kernel of x is the layer's, dilated. */
  ghost predicate KernelIs(p: GoodConv, x: GoodPlain)
    requires p.v.kDil >= 1
  {
    forall kr, kc, ch, o :: 0 <= kr < x.kernelDim && 0 <= kc < x.kernelDim && 0 <= ch < x.inCh && 0 <= o < x.outCh ==>
      At(x.kernel, Ix4(x.kernelDim, x.kernelDim, x.inCh, o, kr, kc, ch)) ==
        if kr % p.v.kDil == 0 && kc % p.v.kDil == 0 then p.Weight(kr / p.v.kDil, kc / p.v.kDil, ch, o) else 0
  }

  /** x is layer p with input and kernel materialised. */
  ghost predicate Materialised(p: GoodConv, x: GoodPlain) {
    && p.v.inDim >= 1 && p.v.kDim >= 1 && p.v.kDil >= 1 && !p.v.transIn && p.bias == Some(x.bias)
    && x.batch == p.v.batch && x.inCh == p.v.inCh && x.outCh == p.v.outCh && x.outDim == p.v.outDim
    && x.stride == p.v.stride && x.padding == p.v.padding
    && x.imageDim == Stuffed(p.v.inDim, p.v.inDil) && x.kernelDim == Stuffed(p.v.kDim, p.v.kDil)
    && Holds(InputStuffing(p).Result(), x.image) && KernelIs(p, x)
  }

  ghost predicate InBounds(p: GoodConv, b: int, o: int) { 0 <= b < p.v.batch && 0 <= o < p.v.outCh }

  /** One tap of the dilated kernel: zero off its grid, the layer's tap on it. */
  lemma TapSame(p: GoodConv, x: GoodPlain, b: int, r: int, c: int, o: int, kr: int, kc: int, ch: int)
    requires Materialised(p, x) && InBounds(p, b, o)
    requires 0 <= kr < x.kernelDim && 0 <= kc < x.kernelDim && 0 <= ch < x.inCh
    ensures x.Tap(b, r, c, o)(kr, kc, ch) ==
      if kr % p.v.kDil == 0 && kc % p.v.kDil == 0 then p.Tap(b, r, c, o)(kr / p.v.kDil, kc / p.v.kDil, ch) else 0
  {
    hide Holds, Stuffed, Ix4, Conv.Ok, Plain.Ok, Plain.Pixel, Conv.Pixel, Conv.Weight;
    PixelSame(p, x, b, r * x.stride + kr - x.padding, c * x.stride + kc - x.padding, ch);
    DivExact(kr, p.v.kDil);
    DivExact(kc, p.v.kDil);
  }

  lemma DivExact(k: int, d: int)
    requires d > 0
    ensures k % d == 0 ==> k / d * d == k
  {}

  lemma OnKernelGrid(p: GoodConv, k: int)
    requires p.v.kDil >= 1 && 0 <= k < p.v.kDim
    ensures 0 <= k * p.v.kDil < Stuffed(p.v.kDim, p.v.kDil)
    ensures k * p.v.kDil % p.v.kDil == 0 && k * p.v.kDil / p.v.kDil == k
  {
    hide Conv.Ok, Stuffed;
    StuffedIs(p.v.kDim, p.v.kDil);
    MulLe(k, p.v.kDim - 1, p.v.kDil);
    MulLe(0, k, p.v.kDil);
    DivUnique(k * p.v.kDil, p.v.kDil, k);
  }

  lemma StuffedIs(n: int, d: int)
    ensures Stuffed(n, d) == (n - 1) * d + 1
  {}

  lemma ColSame(p: GoodConv, x: GoodPlain, b: int, r: int, c: int, o: int, kr: int, kc: int)
    requires Materialised(p, x) && InBounds(p, b, o)
    requires 0 <= kr < x.kernelDim && 0 <= kc < x.kernelDim
    ensures Col(x.Tap(b, r, c, o), 0, x.inCh, kr)(kc) ==
      if kr % p.v.kDil == 0 && kc % p.v.kDil == 0
      then Col(p.Tap(b, r, c, o), 0, x.inCh, kr / p.v.kDil)(kc / p.v.kDil) else 0
  {
    var f := Leaf(x.Tap(b, r, c, o), kr, kc);
    forall ch | 0 <= ch < x.inCh
      ensures f(ch) == if kr % p.v.kDil == 0 && kc % p.v.kDil == 0
                       then p.Tap(b, r, c, o)(kr / p.v.kDil, kc / p.v.kDil, ch) else 0
    {
      TapSame(p, x, b, r, c, o, kr, kc, ch);
    }
    hide Materialised, Conv.Tap, Plain.Tap, Conv.Ok;
    if kr % p.v.kDil == 0 && kc % p.v.kDil == 0 {
      SumEq(0, x.inCh, f, Leaf(p.Tap(b, r, c, o), kr / p.v.kDil, kc / p.v.kDil));
    } else {
      SumZero(0, x.inCh, f);
    }
  }

  lemma RowSame(p: GoodConv, x: GoodPlain, b: int, r: int, c: int, o: int, kr: int)
    requires Materialised(p, x) && InBounds(p, b, o) && 0 <= kr < x.kernelDim
    ensures Row(x.Tap(b, r, c, o), 0, x.kernelDim, 0, x.inCh)(kr) ==
      if kr % p.v.kDil == 0 then Row(p.Tap(b, r, c, o), 0, p.v.kDim, 0, x.inCh)(kr / p.v.kDil) else 0
  {
    var f := Col(x.Tap(b, r, c, o), 0, x.inCh, kr);
    forall kc | 0 <= kc < x.kernelDim
      ensures f(kc) == if kr % p.v.kDil == 0 && kc % p.v.kDil == 0
                       then Col(p.Tap(b, r, c, o), 0, x.inCh, kr / p.v.kDil)(kc / p.v.kDil) else 0
    {
      ColSame(p, x, b, r, c, o, kr, kc);
    }
    hide Conv.Tap, Plain.Tap, Conv.Ok, Plain.Ok, Holds, KernelIs, Stuffed;
    if kr % p.v.kDil == 0 {
      var g := Col(p.Tap(b, r, c, o), 0, x.inCh, kr / p.v.kDil);
      forall i | 0 <= i < p.v.kDim ensures g(i) == f(i * p.v.kDil) {
        OnKernelGrid(p, i);
      }
      SumSparse(p.v.kDim, p.v.kDil, f, g);
    } else {
      SumZero(0, x.kernelDim, f);
    }
  }

  lemma AccSame(p: GoodConv, x: GoodPlain, b: int, r: int, c: int, o: int)
    requires Materialised(p, x) && InBounds(p, b, o)
    ensures x.Acc(b, r, c, o) == p.Acc(b, r, c, o)
  {
    var f := Row(x.Tap(b, r, c, o), 0, x.kernelDim, 0, x.inCh);
    var g := Row(p.Tap(b, r, c, o), 0, p.v.kDim, 0, x.inCh);
    forall kr | 0 <= kr < x.kernelDim ensures f(kr) == if kr % p.v.kDil == 0 then g(kr / p.v.kDil) else 0 {
      RowSame(p, x, b, r, c, o, kr);
    }
    hide Conv.Tap, Plain.Tap, Conv.Ok, Plain.Ok, Holds, KernelIs, Stuffed, Row;
    forall i | 0 <= i < p.v.kDim ensures g(i) == f(i * p.v.kDil) {
      OnKernelGrid(p, i);
    }
    SumSparse(p.v.kDim, p.v.kDil, f, g);
  }

  /** Materialising changes nothing: the reference loops fill the layer's output. */
  lemma ReferenceFills(p: GoodConv, x: GoodPlain, w: seq<int>, before: seq<int>, after: seq<int>)
    requires ReferenceLayer(p, w) && Materialised(p, x) && Filled(x.Output(), before, after)
    ensures Filled(p.Output(), before, after)
  {
    var t, u := x.Output(), p.Output();
    forall b, r, c, o | t.In(b, r, c, o) ensures t.cell(b, r, c, o) == u.cell(b, r, c, o) {
      AccSame(p, x, b, r, c, o);
      hide Plain.Acc, Conv.Acc;
      assert p.scale(p.Acc(b, r, c, o)) == p.Acc(b, r, c, o);
    }
    hide Materialised;
    Refill(t, u, before, after);
  }

  lemma Refill(t: Target, u: Target, x: seq<int>, y: seq<int>)
    requires Filled(t, x, y) && u == t.(cell := u.cell)
    requires forall a, b, c, d :: t.In(a, b, c, d) ==> t.cell(a, b, c, d) == u.cell(a, b, c, d)
    ensures Filled(u, x, y)
  {}

  // ---------- conv() of conv_with_kernel_dilation.c ----------

  function KernelStuffing(p: GoodConv, w: seq<int>): Stuffing { Stuffing(w, p.v.outCh, p.v.kDim, p.v.inCh, p.v.kDil) }

  lemma InputFits(p: GoodConv, w: seq<int>)
    requires ReferenceLayer(p, w)
    ensures InputStuffing(p).Ok() && KernelStuffing(p, w).Ok()
  {}

  lemma StuffedKernelIs(p: GoodConv, w: seq<int>, x: GoodPlain)
    requires ReferenceLayer(p, w) && !p.v.wrot180 && Holds(KernelStuffing(p, w).Result(), x.kernel)
    requires x.kernelDim == Stuffed(p.v.kDim, p.v.kDil) && x.inCh == p.v.inCh && x.outCh == p.v.outCh
    ensures KernelIs(p, x)
  {
    var t := KernelStuffing(p, w).Result();
    forall kr, kc, ch, o | 0 <= kr < x.kernelDim && 0 <= kc < x.kernelDim && 0 <= ch < x.inCh && 0 <= o < x.outCh
      ensures At(x.kernel, Ix4(x.kernelDim, x.kernelDim, x.inCh, o, kr, kc, ch)) ==
        if kr % p.v.kDil == 0 && kc % p.v.kDil == 0 then p.Weight(kr / p.v.kDil, kc / p.v.kDil, ch, o) else 0
    {
      assert t.In(o, kr, kc, ch);
      assert At(x.kernel, t.Ix(o, kr, kc, ch)) == t.cell(o, kr, kc, ch);
      if kr % p.v.kDil == 0 { GridRange(p.v.kDim, p.v.kDil, kr); }
      if kc % p.v.kDil == 0 { GridRange(p.v.kDim, p.v.kDil, kc); }
      hide Ix4, Layer.WIx, Stuffed, Holds, Conv.Ok, Plain.Ok;
    }
  }

  /** The reference of the kernel-dilation test computes layer p, hence exactly what
      conv_cpu_without_pool computes. */
  method ConvKernelDilated(v: Layer, input: seq<int>, w: seq<int>, bias: seq<int>, output: array<int>,
                           ghost p: GoodConv)
    requires p.v == v && p.input == input && p.bias == Some(bias)
    requires ReferenceLayer(p, w) && !v.wrot180 && p.Output().Size() <= output.Length
    modifies output
    ensures Filled(p.Output(), old(output[..]), output[..])
  {
    InputFits(p, w);
    var dilated := Dilate(Stuffing(input, v.batch, v.inDim, v.inCh, v.inDil));
    var weights_dilated := Dilate(Stuffing(w, v.outCh, v.kDim, v.inCh, v.kDil));
    GridStep(InputStuffing(p), 0);
    GridStep(KernelStuffing(p, w), 0);
    var x := Plain(v.batch, v.inCh, Stuffed(v.inDim, v.inDil), v.outCh, Stuffed(v.kDim, v.kDil), v.outDim,
                   v.stride, v.padding, dilated[..], weights_dilated[..], bias);
    hide Ix4, Stuffed, Holds, SameWeights;
    StuffedKernelIs(p, w, x);
    PlainConv(x, output);
    ReferenceFills(p, x, w, old(output[..]), output[..]);
  }

  // ---------- conv() of conv_with_input_dilation_and_rot180.c ----------

  function RotatedTarget(v: Layer, w: seq<int>): Target {
    Target(v.outCh, v.kDim, v.kDim, v.inCh, false,
           (o, kr, kc, ch) => At(w, Ix4(v.kDim, v.kDim, v.inCh, o, v.kDim - kr - 1, v.kDim - kc - 1, ch)))
  }

  method RotatedElement(v: Layer, w: seq<int>, och: int, krow: int, kcol: int, kch: int) returns (e: int)
    requires v.Ok() && KernelFits(v, w) && RotatedTarget(v, w).In(och, krow, kcol, kch)
    ensures e == RotatedTarget(v, w).cell(och, krow, kcol, kch)
  {
    Ix4Bound(v.outCh, v.kDim, v.kDim, v.inCh, och, v.kDim - krow - 1, v.kDim - kcol - 1, kch);
    var i := Ix4(v.kDim, v.kDim, v.inCh, och, v.kDim - krow - 1, v.kDim - kcol - 1, kch);
    assert 0 <= i < |w|;
    hide Ix4, KernelFits, Target.Size;
    e := w[i];
    assert e == At(w, i);
  }

  method RotateRow(v: Layer, w: seq<int>, a: array<int>, och: int, krow: int)
    requires v.Ok() && KernelFits(v, w)
    requires a.Length == RotatedTarget(v, w).Size() && 0 <= och < v.outCh && 0 <= krow < v.kDim
    modifies a
    ensures Wrote(RotatedTarget(v, w), old(a[..]), a[..], Box(och, och + 1, krow, krow + 1, 0, v.kDim, 0, v.inCh))
  {
    ghost var t := RotatedTarget(v, w);
    ghost var s0 := a[..];
    for kcol := 0 to v.kDim
      invariant Wrote(t, s0, a[..], Box(och, och + 1, krow, krow + 1, 0, kcol, 0, v.inCh))
    {
      ghost var s1 := a[..];
      for kch := 0 to v.inCh
        invariant Wrote(t, s1, a[..], Box(och, och + 1, krow, krow + 1, kcol, kcol + 1, 0, kch))
      {
        ghost var s2 := a[..];
        var e := RotatedElement(v, w, och, krow, kcol, kch);
        hide Ix4, Layer.Ok, KernelFits;
        WroteOne(t, s2, och, krow, kcol, kch);
        a[Ix4(v.kDim, v.kDim, v.inCh, och, krow, kcol, kch)] := e;
        WroteJoin(t, s1, s2, a[..], Box(och, och + 1, krow, krow + 1, kcol, kcol + 1, 0, kch),
                  Box(och, och + 1, krow, krow + 1, kcol, kcol + 1, kch, kch + 1),
                  Box(och, och + 1, krow, krow + 1, kcol, kcol + 1, 0, kch + 1));
      }
      WroteJoin(t, s0, s1, a[..], Box(och, och + 1, krow, krow + 1, 0, kcol, 0, v.inCh),
                Box(och, och + 1, krow, krow + 1, kcol, kcol + 1, 0, v.inCh),
                Box(och, och + 1, krow, krow + 1, 0, kcol + 1, 0, v.inCh));
    }
  }

  method Rotate(v: Layer, w: seq<int>) returns (a: array<int>)
    requires v.Ok() && KernelFits(v, w)
    ensures fresh(a) && a.Length == RotatedTarget(v, w).Size() && Holds(RotatedTarget(v, w), a[..])
  {
    ghost var t := RotatedTarget(v, w);
    Mul2(0, 0, v.outCh, v.kDim);
    Mul2(0, 0, v.outCh * v.kDim, v.kDim);
    Mul2(0, 0, v.outCh * v.kDim * v.kDim, v.inCh);
    a := new int[v.outCh * v.kDim * v.kDim * v.inCh];
    ghost var s0 := a[..];
    for och := 0 to v.outCh
      invariant Wrote(t, s0, a[..], Box(0, och, 0, v.kDim, 0, v.kDim, 0, v.inCh))
    {
      ghost var s1 := a[..];
      for krow := 0 to v.kDim
        invariant Wrote(t, s1, a[..], Box(och, och + 1, 0, krow, 0, v.kDim, 0, v.inCh))
      {
        ghost var s2 := a[..];
        RotateRow(v, w, a, och, krow);
        WroteJoin(t, s1, s2, a[..], Box(och, och + 1, 0, krow, 0, v.kDim, 0, v.inCh),
                  Box(och, och + 1, krow, krow + 1, 0, v.kDim, 0, v.inCh),
                  Box(och, och + 1, 0, krow + 1, 0, v.kDim, 0, v.inCh));
      }
      WroteJoin(t, s0, s1, a[..], Box(0, och, 0, v.kDim, 0, v.kDim, 0, v.inCh),
                Box(och, och + 1, 0, v.kDim, 0, v.kDim, 0, v.inCh), Box(0, och + 1, 0, v.kDim, 0, v.kDim, 0, v.inCh));
    }
    FilledHolds(t, s0, a[..]);
  }

  /** The kernel chosen by the reference is the layer's, rotated or not. */
  lemma ChosenKernelIs(p: GoodConv, w: seq<int>, rotated: seq<int>, x: GoodPlain)
    requires ReferenceLayer(p, w) && p.v.kDil == 1 && Holds(RotatedTarget(p.v, w), rotated)
    requires x.kernel == if p.v.wrot180 then rotated else w
    requires x.kernelDim == p.v.kDim && x.inCh == p.v.inCh && x.outCh == p.v.outCh
    ensures KernelIs(p, x)
  {
    var t := RotatedTarget(p.v, w);
    forall kr, kc, ch, o | 0 <= kr < x.kernelDim && 0 <= kc < x.kernelDim && 0 <= ch < x.inCh && 0 <= o < x.outCh
      ensures At(x.kernel, Ix4(x.kernelDim, x.kernelDim, x.inCh, o, kr, kc, ch)) ==
        if kr % p.v.kDil == 0 && kc % p.v.kDil == 0 then p.Weight(kr / p.v.kDil, kc / p.v.kDil, ch, o) else 0
    {
      assert t.In(o, kr, kc, ch);
      assert p.v.wrot180 ==> At(x.kernel, t.Ix(o, kr, kc, ch)) == t.cell(o, kr, kc, ch);
      hide Ix4, Layer.WIx, Holds, Conv.Ok, Plain.Ok;
    }
  }

  /** The reference of the input-dilation and rotation test computes layer p. */
  method ConvRotated(v: Layer, input: seq<int>, w: seq<int>, bias: seq<int>, output: array<int>, ghost p: GoodConv)
    requires p.v == v && p.input == input && p.bias == Some(bias)
    requires ReferenceLayer(p, w) && v.kDil == 1 && p.Output().Size() <= output.Length
    modifies output
    ensures Filled(p.Output(), old(output[..]), output[..])
  {
    InputFits(p, w);
    var dilated := Dilate(Stuffing(input, v.batch, v.inDim, v.inCh, v.inDil));
    var weights_rot180 := Rotate(v, w);
    GridStep(InputStuffing(p), 0);
    var x := Plain(v.batch, v.inCh, Stuffed(v.inDim, v.inDil), v.outCh, v.kDim, v.outDim, v.stride, v.padding,
                   dilated[..], if v.wrot180 then weights_rot180[..] else w, bias);
    assert Stuffed(v.kDim, 1) == v.kDim;
    hide Ix4, Stuffed, Holds, SameWeights;
    ChosenKernelIs(p, w, weights_rot180[..], x);
    PlainConv(x, output);
    ReferenceFills(p, x, w, old(output[..]), output[..]);
  }
}
