/** im2col followed by a matrix multiply, as the network library runs its convolutions. */
module Im2col {
  import opened Arith
  import opened ConvSpec
  import opened Tensor

  /** Columns of the patch matrix. */
  function PatchSize(v: Layer): int { v.kDim * v.kDim * v.inCh }

  /** Index of the patch-matrix element for output pixel (b, r, c) and tap (kr, kc, ch). */
  function PatchIx(v: Layer, b: int, r: int, c: int, kr: int, kc: int, ch: int): int {
    Ix4(v.outDim, v.outDim, PatchSize(v), b, r, c, (kr * v.kDim + kc) * v.inCh + ch)
  }

  function Patches(v: Layer): int { v.batch * v.outDim * v.outDim }

  /** A layer im2col is meant for: positive sizes, no dilation, and an output dimension that
      counts the window positions. */
  ghost predicate Unrollable(v: Layer) {
    && v.Ok() && v.inCh > 0 && v.kDim > 0 && v.stride > 0 && v.inDil == 1 && v.kDil == 1 && !v.transIn
    && v.inDim + 2 * v.padding >= v.kDim
    && v.outDim == (v.inDim + 2 * v.padding - v.kDim) / v.stride + 1
  }

  type Unrolled = p: GoodConv | Unrollable(p.v)
    ghost witness Conv(Layer(0, 1, 1, 0, 1, 1, 1, 1, 0, 1, false, false, false, false, false), [], [], None, 0,
                       x => x, 0)

  /** Image coordinates under the patch element with linear index i, by its digits. */
  function ImageRow(p: Unrolled, i: int): int
    requires p.v.outDim > 0 && PatchSize(p.v) > 0
  {
    var row, col := i / PatchSize(p.v), i % PatchSize(p.v);
    p.v.Coord(row / p.v.outDim % p.v.outDim, col / p.v.inCh / p.v.kDim)
  }

  function ImageCol(p: Unrolled, i: int): int
    requires p.v.outDim > 0 && PatchSize(p.v) > 0
  {
    var row, col := i / PatchSize(p.v), i % PatchSize(p.v);
    p.v.Coord(row % p.v.outDim, col / p.v.inCh % p.v.kDim)
  }

  /** The element falls on the image, not on the padding around it. */
  predicate OnImage(p: Unrolled, i: int)
    requires p.v.outDim > 0 && PatchSize(p.v) > 0
  {
    0 <= ImageRow(p, i) < p.v.inDim && 0 <= ImageCol(p, i) < p.v.inDim
  }

  function PatchElement(p: Unrolled, i: int): int
    requires p.v.outDim > 0 && PatchSize(p.v) > 0
  {
    p.Pixel(i / PatchSize(p.v) / p.v.outDim / p.v.outDim, ImageRow(p, i), ImageCol(p, i), i % PatchSize(p.v) % p.v.inCh)
  }

  ghost predicate InPatch(v: Layer, b: int, r: int, c: int, kr: int, kc: int, ch: int) {
    && 0 <= b < v.batch && 0 <= r < v.outDim && 0 <= c < v.outDim
    && 0 <= kr < v.kDim && 0 <= kc < v.kDim && 0 <= ch < v.inCh
  }

  lemma ColBound(v: Layer, kr: int, kc: int, ch: int)
    requires 0 <= kr < v.kDim && 0 <= kc < v.kDim && 0 <= ch < v.inCh
    ensures 0 <= (kr * v.kDim + kc) * v.inCh + ch < PatchSize(v)
  {
    DigitBound(kr, v.kDim, kc, v.kDim);
    DigitBound(kr * v.kDim + kc, v.kDim * v.kDim, ch, v.inCh);
  }

  lemma SizesPositive(p: Unrolled)
    ensures p.v.outDim > 0 && PatchSize(p.v) > 0
  {
    DivBounds(p.v.inDim + 2 * p.v.padding - p.v.kDim, p.v.stride);
    MulPos(p.v.kDim, p.v.kDim);
    MulPos(p.v.kDim * p.v.kDim, p.v.inCh);
  }

  lemma PatchDigits(p: Unrolled, b: int, r: int, c: int, kr: int, kc: int, ch: int)
    requires InPatch(p.v, b, r, c, kr, kc, ch)
    ensures p.v.outDim > 0 && PatchSize(p.v) > 0
    ensures var i := PatchIx(p.v, b, r, c, kr, kc, ch); var row, col := i / PatchSize(p.v), i % PatchSize(p.v);
      && row % p.v.outDim == c && row / p.v.outDim % p.v.outDim == r && row / p.v.outDim / p.v.outDim == b
      && col % p.v.inCh == ch && col / p.v.inCh % p.v.kDim == kc && col / p.v.inCh / p.v.kDim == kr
  {
    var v := p.v;
    SizesPositive(p);
    ColBound(v, kr, kc, ch);
    var col := (kr * v.kDim + kc) * v.inCh + ch;
    hide PatchSize, Conv.Ok;
    Ix4Digits(v.outDim, v.outDim, PatchSize(v), b, r, c, col);
    DivUnique(col, v.inCh, kr * v.kDim + kc);
    DivUnique(kr * v.kDim + kc, v.kDim, kr);
    hide Ix4;
  }

  /** The counters of the loops name the image coordinates, and the pixel, under an element. */
  lemma PatchElementIs(p: Unrolled, b: int, r: int, c: int, kr: int, kc: int, ch: int)
    requires InPatch(p.v, b, r, c, kr, kc, ch)
    ensures p.v.outDim > 0 && PatchSize(p.v) > 0
    ensures PatchElement(p, PatchIx(p.v, b, r, c, kr, kc, ch)) == p.Pixel(b, p.v.Coord(r, kr), p.v.Coord(c, kc), ch)
    ensures OnImage(p, PatchIx(p.v, b, r, c, kr, kc, ch)) <==>
              0 <= p.v.Coord(r, kr) < p.v.inDim && 0 <= p.v.Coord(c, kc) < p.v.inDim
  {
    PatchDigits(p, b, r, c, kr, kc, ch);
    hide Conv.Pixel, Layer.Coord, PatchSize, Conv.Ok, PatchIx;
  }

  /** Of the first n elements, those on the image hold their pixels; all others are untouched. */
  ghost predicate Unrolling(p: Unrolled, before: seq<int>, s: seq<int>, n: int) {
    && p.v.outDim > 0 && PatchSize(p.v) > 0
    && |s| == |before|
    && (forall i :: 0 <= i < n ==> At(s, i) == if OnImage(p, i) then PatchElement(p, i) else At(before, i))
    && (forall i :: n <= i < |s| ==> At(s, i) == At(before, i))
  }

  /** The first n elements hold their pixels, zeros on the padding included. */
  ghost predicate Filling(p: Unrolled, s: seq<int>, n: int) {
    && p.v.outDim > 0 && PatchSize(p.v) > 0
    && forall i :: 0 <= i < n ==> At(s, i) == PatchElement(p, i)
  }

  ghost predicate ZeroUpTo(s: seq<int>, n: int) { n <= |s| && forall i :: 0 <= i < n ==> At(s, i) == 0 }

  /** A matrix that was zero at the start ends up holding every pixel, the padding's zeros included. */
  lemma ZeroedFilling(p: Unrolled, before: seq<int>, s: seq<int>, n: int)
    requires ZeroUpTo(before, n) && Unrolling(p, before, s, n)
    ensures Filling(p, s, n)
  {
    hide ImageRow, ImageCol, PatchSize;
  }

  /** The body of the innermost loop. */
  method Im2colElement(p: Unrolled, output: array<int>, b: int, ghost r: int, ghost c: int, kr: int, kc: int, ch: int,
                       imRow: int, imCol: int, at: int, ghost before: seq<int>)
    requires InPatch(p.v, b, r, c, kr, kc, ch) && at == PatchIx(p.v, b, r, c, kr, kc, ch) && 0 <= at < output.Length
    requires imRow == r * p.v.stride - p.v.padding && imCol == c * p.v.stride - p.v.padding
    requires Unrolling(p, before, output[..], at)
    modifies output
    ensures Unrolling(p, before, output[..], at + 1)
  {
    var v := p.v;
    ghost var s := output[..];
    PatchElementIs(p, b, r, c, kr, kc, ch);
    var pixelRow := imRow + kr;
    var pixelCol := imCol + kc;
    assert v.Coord(r, kr) == pixelRow && v.Coord(c, kc) == pixelCol;
    assert At(output[..], at) == At(before, at);
    hide PatchIx, PatchElement, OnImage, Conv.Ok, PatchSize, Layer.Coord;
    if pixelRow < 0 || pixelRow >= v.inDim || pixelCol < 0 || pixelCol >= v.inDim {
      assert output[..] == s;
    } else {
      InIxBound(p, b, pixelRow, pixelCol, ch);
      hide Ix4;
      output[at] := p.input[Ix4(v.inDim, v.inDim, v.inCh, b, pixelRow, pixelCol, ch)];
      assert output[..] == s[at := p.Pixel(b, pixelRow, pixelCol, ch)];
    }
  }

  /** Matrix row of output pixel (b, r, c). */
  function PatchRow(v: Layer, b: int, r: int, c: int): int { (b * v.outDim + r) * v.outDim + c }

  lemma PatchFits(p: Unrolled, b: int, r: int, c: int, kr: int, kc: int, ch: int)
    requires InPatch(p.v, b, r, c, kr, kc, ch)
    ensures PatchIx(p.v, b, r, c, kr, kc, ch)
         == PatchRow(p.v, b, r, c) * PatchSize(p.v) + ((kr * p.v.kDim + kc) * p.v.inCh + ch)
    ensures 0 <= PatchIx(p.v, b, r, c, kr, kc, ch) < Flat(p.v, Patches(p.v), 0)
  {
    ColBound(p.v, kr, kc, ch);
    Ix4Bound(p.v.batch, p.v.outDim, p.v.outDim, PatchSize(p.v), b, r, c, (kr * p.v.kDim + kc) * p.v.inCh + ch);
  }

  lemma Carry(a: int, n: int)
    ensures a * n + n == (a + 1) * n + 0
  {}

  function Flat(v: Layer, patchRow: int, patchCol: int): int { patchRow * PatchSize(v) + patchCol }

  function PatchCol(v: Layer, kr: int, kc: int, ch: int): int { (kr * v.kDim + kc) * v.inCh + ch }

  lemma PatchCarry(v: Layer, kr: int, kc: int)
    ensures PatchCol(v, kr, kc, v.inCh) == PatchCol(v, kr, kc + 1, 0)
    ensures PatchCol(v, kr, v.kDim, 0) == PatchCol(v, kr + 1, 0, 0)
    ensures PatchCol(v, 0, 0, 0) == 0
    ensures PatchCol(v, v.kDim, 0, 0) == PatchSize(v)
  {}

  lemma FlatCarry(v: Layer, row: int)
    ensures Flat(v, row, PatchSize(v)) == Flat(v, row + 1, 0)
  {}

  /** The channels of one tap. */
  method Im2colChannels(p: Unrolled, output: array<int>, b: int, ghost r: int, ghost c: int,
                        filterRow: int, filterCol: int, imRow: int, imCol: int, patchRow: int, start: int,
                        ghost before: seq<int>)
    returns (patchCol: int)
    requires 0 <= b < p.v.batch && 0 <= r < p.v.outDim && 0 <= c < p.v.outDim
    requires 0 <= filterRow < p.v.kDim && 0 <= filterCol < p.v.kDim && start == PatchCol(p.v, filterRow, filterCol, 0)
    requires imRow == r * p.v.stride - p.v.padding && imCol == c * p.v.stride - p.v.padding
    requires patchRow == PatchRow(p.v, b, r, c) && Flat(p.v, Patches(p.v), 0) <= |before|
    requires Unrolling(p, before, output[..], Flat(p.v, patchRow, start))
    modifies output
    ensures patchCol == PatchCol(p.v, filterRow, filterCol, p.v.inCh)
    ensures Unrolling(p, before, output[..], Flat(p.v, patchRow, patchCol))
  {
    patchCol := start;
    for imChannel := 0 to p.v.inCh
      invariant patchCol == PatchCol(p.v, filterRow, filterCol, imChannel)
      invariant Unrolling(p, before, output[..], Flat(p.v, patchRow, patchCol))
    {
      PatchFits(p, b, r, c, filterRow, filterCol, imChannel);
      assert PatchIx(p.v, b, r, c, filterRow, filterCol, imChannel) == Flat(p.v, patchRow, patchCol);
      hide Unrolling, Conv.Ok, PatchSize, PatchRow, Patches, PatchIx;
      InBuffer(p, before, output[..], Flat(p.v, patchRow, patchCol), Flat(p.v, patchRow, patchCol));
      Im2colElement(p, output, b, r, c, filterRow, filterCol, imChannel, imRow, imCol, Flat(p.v, patchRow, patchCol),
                    before);
      patchCol := patchCol + 1;
    }
  }

  /** One patch: the three filter loops. */
  method Im2colPatch(p: Unrolled, output: array<int>, b: int, ghost r: int, ghost c: int, imRow: int, imCol: int,
                     patchRow: int,
                     ghost before: seq<int>)
    requires 0 <= b < p.v.batch && 0 <= r < p.v.outDim && 0 <= c < p.v.outDim
    requires imRow == r * p.v.stride - p.v.padding && imCol == c * p.v.stride - p.v.padding
    requires patchRow == PatchRow(p.v, b, r, c) && Flat(p.v, Patches(p.v), 0) <= |before|
    requires Unrolling(p, before, output[..], Flat(p.v, patchRow, 0))
    modifies output
    ensures Unrolling(p, before, output[..], Flat(p.v, patchRow + 1, 0))
  {
    var v := p.v;
    var patchCol := 0;
    hide Unrolling, Conv.Ok, PatchSize, PatchRow, Patches, PatchIx, PatchCol, Flat;
    PatchCarry(v, 0, 0);
    for filterRow := 0 to v.kDim
      invariant patchCol == PatchCol(v, filterRow, 0, 0)
      invariant Unrolling(p, before, output[..], Flat(v, patchRow, patchCol))
    {
      for filterCol := 0 to v.kDim
        invariant patchCol == PatchCol(v, filterRow, filterCol, 0)
        invariant Unrolling(p, before, output[..], Flat(v, patchRow, patchCol))
      {
        patchCol := Im2colChannels(p, output, b, r, c, filterRow, filterCol, imRow, imCol, patchRow, patchCol, before);
        PatchCarry(v, filterRow, filterCol);
      }
      PatchCarry(v, filterRow, 0);
    }
    PatchCarry(v, 0, 0);
    FlatCarry(v, patchRow);
  }

  lemma InBuffer(p: Unrolled, before: seq<int>, s: seq<int>, n: int, at: int)
    requires Unrolling(p, before, s, n) && at < Flat(p.v, Patches(p.v), 0) <= |before|
    ensures at < |s|
  {}

  /** The window positions the stride loops visit are the output pixels. */
  lemma WindowCount(v: Layer, r: int)
    requires Unrollable(v)
    ensures r * v.stride - v.padding < v.inDim - v.kDim + v.padding + 1 <==> r < v.outDim
  {
    var m := v.inDim + 2 * v.padding - v.kDim;
    DivMul(m, v.stride);
    if r < v.outDim {
      MulLe(r, m / v.stride, v.stride);
    } else {
      MulLe(m / v.stride + 1, r, v.stride);
    }
  }

  /** The columns of one output row. */
  method Im2colRow(p: Unrolled, output: array<int>, b: int, ghost r: int, imRow: int, firstRow: int,
                   ghost before: seq<int>)
    returns (patchRow: int)
    requires 0 <= b < p.v.batch && 0 <= r < p.v.outDim && imRow == r * p.v.stride - p.v.padding
    requires firstRow == PatchRow(p.v, b, r, 0) && Flat(p.v, Patches(p.v), 0) <= |before|
    requires Unrolling(p, before, output[..], Flat(p.v, firstRow, 0))
    modifies output
    ensures patchRow == PatchRow(p.v, b, r + 1, 0) && Unrolling(p, before, output[..], Flat(p.v, patchRow, 0))
  {
    var v := p.v;
    patchRow := firstRow;
    var imCol := -v.padding;
    ghost var c := 0;
    while imCol < v.inDim - v.kDim + v.padding + 1
      invariant 0 <= c <= v.outDim && imCol == c * v.stride - v.padding
      invariant patchRow == PatchRow(v, b, r, c) && Unrolling(p, before, output[..], Flat(v, patchRow, 0))
    {
      WindowCount(v, c);
      hide Unrolling, Conv.Ok, PatchSize, Patches, Flat;
      Im2colPatch(p, output, b, r, c, imRow, imCol, patchRow, before);
      patchRow := patchRow + 1;
      imCol := imCol + v.stride;
      c := c + 1;
    }
    WindowCount(v, c);
    Carry(b * v.outDim + r, v.outDim);
  }

  /** im2col: every element on the image receives its pixel, and the elements never written are
      exactly those that fall on the padding; the row counter ends at the number of patches. */
  method Im2col(p: Unrolled, output: array<int>) returns (patchRow: int)
    requires Flat(p.v, Patches(p.v), 0) <= output.Length
    modifies output
    ensures patchRow == Patches(p.v)
    ensures Unrolling(p, old(output[..]), output[..], Flat(p.v, Patches(p.v), 0))
  {
    var v := p.v;
    SizesPositive(p);
    patchRow := 0;
    ghost var before := output[..];
    for b := 0 to v.batch
      invariant patchRow == PatchRow(v, b, 0, 0) && Unrolling(p, before, output[..], Flat(v, patchRow, 0))
    {
      var imRow := -v.padding;
      ghost var r := 0;
      while imRow < v.inDim - v.kDim + v.padding + 1
        invariant 0 <= r <= v.outDim && imRow == r * v.stride - v.padding
        invariant patchRow == PatchRow(v, b, r, 0) && Unrolling(p, before, output[..], Flat(v, patchRow, 0))
      {
        WindowCount(v, r);
        hide Unrolling, Conv.Ok, PatchSize, Patches, PatchRow;
        patchRow := Im2colRow(p, output, b, r, imRow, patchRow, before);
        imRow := imRow + v.stride;
        r := r + 1;
      }
      WindowCount(v, r);
      PlaneCarry(v, b);
    }
    assert PatchRow(v, v.batch, 0, 0) == Patches(v);
  }

  lemma PlaneCarry(v: Layer, b: int)
    ensures PatchRow(v, b, v.outDim, 0) == PatchRow(v, b + 1, 0, 0)
  {}
}
