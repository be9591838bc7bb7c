/** What a convolution layer computes, independently of how: the correlation of a zero-padded,
    zero-stuffed image with a kernel, plus bias, scaled and saturated. */
module ConvSpec {
  import opened Quantize
  import opened Sums3
  import opened Tensor

  datatype Option<T> = None | Some(value: T)

  /** A layer's shape, with the layouts of its operands. */
  datatype Layer = Layer(
    batch: int, inDim: int, inCh: int, outCh: int, outDim: int,
    stride: int, inDil: int, kDil: int, padding: int, kDim: int,
    wrot180: bool, transOut: bool, transIn: bool, transW1203: bool, transW0132: bool)
  {
    predicate Ok() {
      batch >= 0 && inDim >= 0 && inCh >= 0 && outCh >= 0 && outDim >= 0 && kDim >= 0 && inDil > 0
    }

    /** NHWC, or CHWN when transIn. */
    function InIx(b: int, r: int, c: int, ch: int): int {
      if transIn then Ix4(inDim, inDim, batch, ch, r, c, b) else Ix4(inDim, inDim, inCh, b, r, c, ch)
    }

    /** HWIO, or IHWO when transW1203, or HWOI when transW0132. */
    function WIx(kr: int, kc: int, ch: int, o: int): int {
      if transW1203 then Ix4(kDim, kDim, outCh, ch, kr, kc, o)
      else if transW0132 then Ix4(kDim, outCh, inCh, kr, kc, o, ch)
      else Ix4(kDim, inCh, outCh, kr, kc, ch, o)
    }

    function Rot(k: int): int { if wrot180 then kDim - k - 1 else k }

    /** Dilated coordinate under tap k of output coordinate x. */
    function Coord(x: int, k: int): int { x * stride + k * kDil - padding }

    /** Coordinate y of the zero-stuffed image carries a pixel. */
    predicate OnGrid(y: int) requires inDil > 0 { y % inDil == 0 && 0 <= y / inDil < inDim }
  }

  datatype Conv = Conv(v: Layer, input: seq<int>, weights: seq<int>, bias: Option<seq<int>>,
                       act: int, scale: Scale, relu6Shift: nat)
  {
    /** The buffers are at least as long as the shape says. */
    ghost predicate Ok() {
      && v.Ok()
      && |input| >= v.batch * v.inDim * v.inDim * v.inCh
      && |weights| >= v.kDim * v.kDim * v.inCh * v.outCh
      && (bias.Some? ==> |bias.value| >= v.outCh)
    }

    function Bias(o: int): int { if bias.Some? then At(bias.value, o) else 0 }

    function Pixel(b: int, y: int, x: int, ch: int): int requires v.inDil > 0 {
      if v.OnGrid(y) && v.OnGrid(x) then At(input, v.InIx(b, y / v.inDil, x / v.inDil, ch)) else 0
    }

    function Weight(kr: int, kc: int, ch: int, o: int): int { At(weights, v.WIx(v.Rot(kr), v.Rot(kc), ch, o)) }

    function Tap(b: int, r: int, c: int, o: int): Fn3 requires v.inDil > 0 {
      (kr, kc, ch) => Weight(kr, kc, ch, o) * Pixel(b, v.Coord(r, kr), v.Coord(c, kc), ch)
    }

    /** The accumulated value of an output element. */
    function Acc(b: int, r: int, c: int, o: int): int requires v.inDil > 0 {
      Bias(o) + Sum3(Tap(b, r, c, o), 0, v.kDim, 0, v.kDim, 0, v.inCh)
    }

    function Out(x: int): int { ScaleAndSat(x, act, scale, relu6Shift) }

    function Cell(): (int, int, int, int) -> int requires v.inDil > 0 {
      (b, r, c, o) => Out(Acc(b, r, c, o))
    }

    /** The output array: NHWC, or HWNC when transOut. */
    function Output(): Target requires v.inDil > 0 {
      Target(v.batch, v.outDim, v.outDim, v.outCh, v.transOut, Cell())
    }
  }

  /** Of the elements its activation lets through, a layer stores the one nearest to the scaled value. */
  lemma OutNearest(p: Conv, x: int, e: int)
    requires Passes(e, p.act, p.relu6Shift)
    ensures Passes(p.Out(x), p.act, p.relu6Shift)
    ensures e != p.Out(x) ==> Distance(p.Out(x), p.scale(x)) < Distance(e, p.scale(x))
  {
    NearestPassing(x, p.act, p.scale, p.relu6Shift, e);
  }

  type GoodConv = p: Conv | p.Ok()
    ghost witness Conv(Layer(0, 0, 0, 0, 0, 0, 1, 0, 0, 0, false, false, false, false, false), [], [], None, 0,
                       x => x, 0)

  lemma Reorder(a: int, b: int, c: int, d: int)
    ensures a * b * c * d == d * b * c * a
  {}

  lemma Reorder3(a: int, b: int, c: int)
    ensures a * b * c == b * c * a == a * c * b
  {}

  lemma InIxBound(p: GoodConv, b: int, r: int, c: int, ch: int)
    requires 0 <= b < p.v.batch && 0 <= r < p.v.inDim && 0 <= c < p.v.inDim && 0 <= ch < p.v.inCh
    ensures 0 <= p.v.InIx(b, r, c, ch) < |p.input|
  {
    var v := p.v;
    if v.transIn {
      Ix4Bound(v.inCh, v.inDim, v.inDim, v.batch, ch, r, c, b);
      Reorder(v.inCh, v.inDim, v.inDim, v.batch);
    } else {
      Ix4Bound(v.batch, v.inDim, v.inDim, v.inCh, b, r, c, ch);
    }
    hide Ix4;
  }

  lemma WIxBound(p: GoodConv, kr: int, kc: int, ch: int, o: int)
    requires 0 <= kr < p.v.kDim && 0 <= kc < p.v.kDim && 0 <= ch < p.v.inCh && 0 <= o < p.v.outCh
    ensures 0 <= p.v.WIx(kr, kc, ch, o) < |p.weights|
  {
    var v := p.v;
    if v.transW1203 {
      Ix4Bound(v.inCh, v.kDim, v.kDim, v.outCh, ch, kr, kc, o);
      Reorder3(v.inCh, v.kDim, v.kDim);
    } else if v.transW0132 {
      Ix4Bound(v.kDim, v.kDim, v.outCh, v.inCh, kr, kc, o, ch);
      Reorder3(v.kDim * v.kDim, v.outCh, v.inCh);
    } else {
      Ix4Bound(v.kDim, v.kDim, v.inCh, v.outCh, kr, kc, ch, o);
    }
    hide Ix4;
  }
}
