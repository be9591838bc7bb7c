/** tiled_conv_downsample: a stride-2, kernel-1 convolution as one matrix multiply per even row. */
module Downsample {
  import opened Accelerator
  import opened Arith
  import opened Config
  import opened ConvSpec
  import opened Quantize
  import opened Sums3
  import opened Tensor
  import A = MatmulAuto
  import M = MatmulSpec
  import S = Sums

  datatype Ds = Ds(batch: int, inDim: int, inCh: int, outCh: int, outDim: int,
                   input: int, weights: int, bias: int, output: int,
                   act: int, scale: Scale, relu6Shift: nat)
  {
    /** Shapes are positive, in_dim is even and out_dim is its half. */
    predicate Ok() {
      batch >= 0 && inDim > 0 && inDim % 2 == 0 && inCh > 0 && outCh > 0 && outDim == inDim / 2
      && input > 0 && weights > 0 && bias >= 0 && output > 0
    }

    function InSize(): int { batch * inDim * inDim * inCh }
    function WSize(): int { inCh * outCh }
    function OutSize(): int { batch * outDim * outDim * outCh }

    /** The multiply of batch b, image row irow. */
    function Row(b: int, irow: int): M.Args {
      M.Args(false, false, inDim / 2, outCh, inCh,
             input + (b * inDim + irow) * inDim * inCh, weights, bias,
             output + (b * outDim + irow / 2) * outDim * outCh,
             inCh * 2, outCh, outCh, outCh,
             Identity(), Identity(), Identity(),
             act, scale, relu6Shift, true, false, false)
    }
  }

  type GoodDs = x: Ds | x.Ok() ghost witness Ds(0, 2, 1, 1, 1, 1, 1, 0, 1, 0, x => x, 0)

  /** n elements of DRAM from address a on. */
  function Elements(d: Dram, a: int, size: int, n: int): (s: seq<int>)
    ensures |s| == (if n < 0 then 0 else n)
    ensures forall i :: 0 <= i < n ==> At(s, i) == Get(d, a + i * size)
  {
    seq(if n < 0 then 0 else n, i => Get(d, a + i * size))
  }

  /** The buffers are in DRAM and the output shares no address with the operands. */
  ghost predicate Placed(d: Dram, x: Ds) {
    && (forall a :: x.input <= a < x.input + x.InSize() ==> a in d && !InOutput(x, a))
    && (forall a :: x.weights <= a < x.weights + x.WSize() ==> a in d && !InOutput(x, a))
    && (x.bias != NULL ==> forall i :: 0 <= i < x.outCh ==> BiasAddr(x, i) in d && !InOutput(x, BiasAddr(x, i)))
    && (forall a :: InOutput(x, a) ==> a in d)
  }

  function BiasAddr(x: Ds, i: int): int { x.bias + i * SIZEOF_ACC }

  predicate InOutput(x: Ds, a: int) { x.output <= a < x.output + x.OutSize() }

  /** The convolution layer found in DRAM. */
  function LayerIn(d: Dram, x: Ds): Conv {
    Conv(Layer(x.batch, x.inDim, x.inCh, x.outCh, x.outDim, 2, 1, 1, 0, 1, false, false, false, false, false),
         Elements(d, x.input, SIZEOF_ELEM, x.InSize()), Elements(d, x.weights, SIZEOF_ELEM, x.WSize()),
         if x.bias == NULL then None else Some(Elements(d, x.bias, SIZEOF_ACC, x.outCh)),
         x.act, x.scale, x.relu6Shift)
  }

  function OutputIn(d: Dram, x: Ds): seq<int> { Elements(d, x.output, SIZEOF_ELEM, x.OutSize()) }

  /** From d to d', only the output buffer has changed. */
  ghost predicate OnlyOutput(x: Ds, d: Dram, d': Dram) {
    d'.Keys == d.Keys && forall a :: a in d && !InOutput(x, a) ==> Get(d', a) == Get(d, a)
  }

  lemma LayerOk(d: Dram, x: GoodDs)
    ensures LayerIn(d, x).Ok()
  {}

  // ---------- addresses of one multiply ----------

  lemma HalfDim(x: GoodDs)
    ensures x.inDim == 2 * x.outDim && x.outDim > 0
  {}

  lemma RowAddresses(x: GoodDs, b: int, orow: int, i: int, j: int, k: int)
    ensures M.AAddr(x.Row(b, 2 * orow), i, k) == x.input + Ix4(x.inDim, x.inDim, x.inCh, b, 2 * orow, 2 * i, k)
    ensures M.BAddr(x.Row(b, 2 * orow), k, j) == x.weights + (k * x.outCh + j)
    ensures M.DAddr(x.Row(b, 2 * orow), i, j) == BiasAddr(x, j)
    ensures M.CAddr(x.Row(b, 2 * orow), i, j) == x.output + Ix4(x.outDim, x.outDim, x.outCh, b, orow, i, j)
  {
    assert 2 * orow / 2 == orow;
    RowAlgebra(b * x.inDim + 2 * orow, x.inDim, x.inCh, 2 * i);
    RowAlgebra(b * x.outDim + orow, x.outDim, x.outCh, i);
    assert i * (x.inCh * 2) == 2 * i * x.inCh;
  }

  lemma RowAlgebra(q: int, n: int, m: int, i: int)
    ensures (q * n + i) * m == q * n * m + i * m
  {}

  ghost predicate InRow(x: Ds, b: int, orow: int, i: int) {
    0 <= b < x.batch && 0 <= orow < x.outDim && 0 <= i < x.outDim
  }

  lemma OperandBounds(x: GoodDs, b: int, orow: int, i: int, j: int, k: int)
    requires InRow(x, b, orow, i) && 0 <= j < x.outCh && 0 <= k < x.inCh
    ensures 0 <= Ix4(x.inDim, x.inDim, x.inCh, b, 2 * orow, 2 * i, k) < x.InSize()
    ensures 0 <= k * x.outCh + j < x.WSize()
    ensures 0 <= Ix4(x.outDim, x.outDim, x.outCh, b, orow, i, j) < x.OutSize()
  {
    HalfDim(x);
    Ix4Bound(x.batch, x.inDim, x.inDim, x.inCh, b, 2 * orow, 2 * i, k);
    Ix4Bound(x.batch, x.outDim, x.outDim, x.outCh, b, orow, i, j);
    DigitBound(k, x.inCh, j, x.outCh);
  }

  lemma RowInOutput(x: GoodDs, b: int, orow: int, a: int)
    requires 0 <= b < x.batch && 0 <= orow < x.outDim && M.InC(x.Row(b, 2 * orow), a)
    ensures InOutput(x, a)
  {
    var p := x.Row(b, 2 * orow);
    var i, j :| 0 <= i < p.dimI && 0 <= j < p.dimJ
                && a == ElemAddr(p.C, p.strideC * SizeofC(p.fullC), SizeofC(p.fullC), i, j);
    assert a == M.CAddr(p, i, j);
    RowAddresses(x, b, orow, i, j, 0);
    OperandBounds(x, b, orow, i, j, 0);
    hide Ix4, Ds.OutSize, ElemAddr;
  }

  lemma RowPlaced(d0: Dram, d: Dram, x: GoodDs, b: int, orow: int)
    requires Placed(d0, x) && OnlyOutput(x, d0, d) && 0 <= b < x.batch && 0 <= orow < x.outDim
    ensures M.WellPlaced(d, x.Row(b, 2 * orow))
  {
    var p := x.Row(b, 2 * orow);
    RowPointers(x, b, orow);
    forall a | M.InC(p, a) ensures InOutput(x, a) { RowInOutput(x, b, orow, a); }
    hide M.InC, InOutput, Ix4, Ds.InSize, Ds.WSize, Ds.OutSize, M.AAddr, M.BAddr, M.DAddr, M.CAddr;
    forall i, k | 0 <= i < p.dimI && 0 <= k < p.dimK ensures M.AAddr(p, i, k) in d && !M.InC(p, M.AAddr(p, i, k)) {
      RowAddresses(x, b, orow, i, 0, k);
      OperandBounds(x, b, orow, i, 0, k);
    }
    forall k, j | 0 <= k < p.dimK && 0 <= j < p.dimJ ensures M.BAddr(p, k, j) in d && !M.InC(p, M.BAddr(p, k, j)) {
      RowAddresses(x, b, orow, 0, j, k);
      OperandBounds(x, b, orow, 0, j, k);
    }
    forall i, j | 0 <= i < p.dimI && 0 <= j < p.dimJ
      ensures M.CAddr(p, i, j) in d && (p.D != NULL ==> M.DAddr(p, i, j) in d && !M.InC(p, M.DAddr(p, i, j)))
    {
      RowAddresses(x, b, orow, i, j, 0);
      OperandBounds(x, b, orow, i, j, 0);
      CellInOutput(x, Ix4(x.outDim, x.outDim, x.outCh, b, orow, i, j));
    }
  }

  lemma CellInOutput(x: GoodDs, i: int)
    ensures InOutput(x, x.output + i) <==> 0 <= i < x.OutSize()
  {}

  lemma RowPointers(x: GoodDs, b: int, orow: int)
    requires 0 <= b < x.batch && 0 <= orow < x.outDim
    ensures x.Row(b, 2 * orow).A > 0 && x.Row(b, 2 * orow).C > 0
  {
    Mul2(0, 0, b, x.inDim);
    Mul2(0, 0, b * x.inDim + 2 * orow, x.inDim);
    Mul2(0, 0, (b * x.inDim + 2 * orow) * x.inDim, x.inCh);
    Mul2(0, 0, b, x.outDim);
    Mul2(0, 0, b * x.outDim + orow, x.outDim);
    Mul2(0, 0, (b * x.outDim + orow) * x.outDim, x.outCh);
    assert 2 * orow / 2 == orow;
  }

  // ---------- one row computes one row of the layer ----------

  function InputAt(x: Ds, b: int, orow: int, i: int, k: int): int {
    x.input + Ix4(x.inDim, x.inDim, x.inCh, b, 2 * orow, 2 * i, k)
  }
  function WeightAt(x: Ds, k: int, o: int): int { x.weights + (k * x.outCh + o) }

  lemma PixelIs(d: Dram, x: GoodDs, b: int, orow: int, i: int, k: int)
    requires InRow(x, b, orow, i) && 0 <= k < x.inCh
    ensures LayerIn(d, x).Pixel(b, 2 * orow, 2 * i, k) == Get(d, InputAt(x, b, orow, i, k))
  {
    OperandBounds(x, b, orow, i, 0, k);
    HalfDim(x);
    hide Ds.InSize, Ix4;
  }

  lemma WeightIs(d: Dram, x: GoodDs, k: int, o: int)
    requires 0 <= o < x.outCh && 0 <= k < x.inCh
    ensures LayerIn(d, x).Weight(0, 0, k, o) == Get(d, WeightAt(x, k, o))
  {
    DigitBound(k, x.inCh, o, x.outCh);
    assert LayerIn(d, x).v.WIx(0, 0, k, o) == k * x.outCh + o;
    hide Ix4;
  }

  lemma TapIs(d: Dram, x: GoodDs, b: int, orow: int, i: int, o: int, k: int)
    requires InRow(x, b, orow, i) && 0 <= o < x.outCh && 0 <= k < x.inCh
    ensures LayerIn(d, x).Tap(b, orow, i, o)(0, 0, k) == Get(d, WeightAt(x, k, o)) * Get(d, InputAt(x, b, orow, i, k))
  {
    PixelIs(d, x, b, orow, i, k);
    WeightIs(d, x, k, o);
    var v := LayerIn(d, x).v;
    assert v.Coord(orow, 0) == 2 * orow && v.Coord(i, 0) == 2 * i;
    hide Conv.Pixel, Conv.Weight, Layer.Coord, InputAt, WeightAt;
  }

  lemma TermIs(d: Dram, x: GoodDs, b: int, orow: int, i: int, o: int, k: int)
    ensures M.Term(d, x.Row(b, 2 * orow), i, o)(k) == Get(d, WeightAt(x, k, o)) * Get(d, InputAt(x, b, orow, i, k))
  {
    RowAddresses(x, b, orow, i, o, k);
    RowScales(x, b, orow);
    hide Ds.Row, M.AAddr, M.BAddr, Ix4;
  }

  lemma OperandsKept(d0: Dram, d: Dram, x: GoodDs, b: int, orow: int, i: int, o: int, k: int)
    requires Placed(d0, x) && OnlyOutput(x, d0, d) && InRow(x, b, orow, i) && 0 <= o < x.outCh && 0 <= k < x.inCh
    ensures Get(d, InputAt(x, b, orow, i, k)) == Get(d0, InputAt(x, b, orow, i, k))
    ensures Get(d, WeightAt(x, k, o)) == Get(d0, WeightAt(x, k, o))
    ensures x.bias != NULL ==> Get(d, BiasAddr(x, o)) == Get(d0, BiasAddr(x, o))
  {
    OperandBounds(x, b, orow, i, o, k);
    hide Ds.InSize, Ds.WSize, Ds.OutSize, Ix4;
  }

  lemma BiasIs(d0: Dram, d: Dram, x: GoodDs, b: int, orow: int, i: int, o: int)
    requires Placed(d0, x) && OnlyOutput(x, d0, d) && InRow(x, b, orow, i) && 0 <= o < x.outCh
    ensures M.Bias(d, x.Row(b, 2 * orow), i, o) == LayerIn(d0, x).Bias(o)
  {
    OperandsKept(d0, d, x, b, orow, i, o, 0);
    RowAddresses(x, b, orow, i, o, 0);
    RowScales(x, b, orow);
    hide Ds.Row, M.DAddr, Ds.InSize, Ds.WSize, Ds.OutSize, Placed, OnlyOutput, Ix4;
  }

  lemma SingleTap(f: Fn3, n: int)
    ensures Sum3(f, 0, 1, 0, 1, 0, n) == S.Sum(0, n, Leaf(f, 0, 0))
  {}

  lemma PartialIsAcc(d0: Dram, d: Dram, x: GoodDs, b: int, orow: int, i: int, o: int)
    requires Placed(d0, x) && OnlyOutput(x, d0, d) && InRow(x, b, orow, i) && 0 <= o < x.outCh
    ensures M.Partial(d, x.Row(b, 2 * orow), i, o, x.inCh) == LayerIn(d0, x).Acc(b, orow, i, o)
  {
    var f, g := M.Term(d, x.Row(b, 2 * orow), i, o), LayerIn(d0, x).Tap(b, orow, i, o);
    forall k | 0 <= k < x.inCh ensures f(k) == Leaf(g, 0, 0)(k) {
      TermIs(d, x, b, orow, i, o, k);
      TapIs(d0, x, b, orow, i, o, k);
      OperandsKept(d0, d, x, b, orow, i, o, k);
    }
    hide InputAt, WeightAt, M.Term, Conv.Tap, Placed, OnlyOutput, S.Sum, Sum3, M.Bias, Conv.Bias, Ds.Row;
    S.SumEq(0, x.inCh, f, Leaf(g, 0, 0));
    SingleTap(g, x.inCh);
    BiasIs(d0, d, x, b, orow, i, o);
  }

  lemma RowScales(x: GoodDs, b: int, orow: int)
    ensures var p := x.Row(b, 2 * orow);
      p.scaleA == Identity() && p.scaleB == Identity() && p.dimK == x.inCh
      && p.dimI == x.outDim
      && p.dimJ == x.outCh && p.D == x.bias && p.act == x.act && p.scale == x.scale && p.relu6Shift == x.relu6Shift
         && !p.fullC
  {}

  /** The multiply of one even row writes exactly one row of the output. */
  lemma RowWrites(d0: Dram, d: Dram, x: GoodDs, b: int, orow: int)
    requires Placed(d0, x) && OnlyOutput(x, d0, d) && 0 <= b < x.batch && 0 <= orow < x.outDim
    requires LayerIn(d0, x).Ok()
    ensures var d' := M.Product(d, x.Row(b, 2 * orow));
      && OnlyOutput(x, d0, d')
      && Wrote(LayerIn(d0, x).Output(), OutputIn(d, x), OutputIn(d', x),
               Box(b, b + 1, orow, orow + 1, 0, x.outDim, 0, x.outCh))
  {
    RowKeeps(d0, d, x, b, orow);
    RowWrote(d0, d, M.Product(d, x.Row(b, 2 * orow)), x, b, orow);
    hide *;
  }

  /** Outside the output nothing changes. */
  lemma RowKeeps(d0: Dram, d: Dram, x: GoodDs, b: int, orow: int)
    requires Placed(d0, x) && OnlyOutput(x, d0, d) && 0 <= b < x.batch && 0 <= orow < x.outDim
    ensures OnlyOutput(x, d0, M.Product(d, x.Row(b, 2 * orow)))
  {
    RowPlaced(d0, d, x, b, orow);
    var q: M.Placed := M.Problem(d, x.Row(b, 2 * orow));
    M.AfterUnchanged(q, M.All());
    hide M.After, Ds.Row, InOutput, M.WellPlaced, Placed, M.InC;
    forall a | M.InC(q.p, a) ensures InOutput(x, a) { RowInOutput(x, b, orow, a); }
    ProductKeys(q);
  }

  lemma ProductKeys(q: M.Placed)
    ensures M.Product(q.d, q.p).Keys == q.d.Keys
  {}

  lemma RowWrote(d0: Dram, d: Dram, d': Dram, x: GoodDs, b: int, orow: int)
    requires Placed(d0, x) && OnlyOutput(x, d0, d) && 0 <= b < x.batch && 0 <= orow < x.outDim
    requires d' == M.Product(d, x.Row(b, 2 * orow)) && LayerIn(d0, x).Ok()
    ensures Wrote(LayerIn(d0, x).Output(), OutputIn(d, x), OutputIn(d', x),
                  Box(b, b + 1, orow, orow + 1, 0, x.outDim, 0, x.outCh))
  {
    var t := LayerIn(d0, x).Output();
    hide M.Product, Ds.Row, Conv.Acc, Target.Ix, Placed, OnlyOutput, Conv.Ok;
    forall b', r, c, o | t.In(b', r, c, o)
      ensures At(OutputIn(d', x), t.Ix(b', r, c, o)) ==
        if Box(b, b + 1, orow, orow + 1, 0, x.outDim, 0, x.outCh).Has(b', r, c, o) then t.cell(b', r, c, o)
        else At(OutputIn(d, x), t.Ix(b', r, c, o))
    {
      RowCell(d0, d, d', x, b, orow, b', r, c, o);
    }
  }

  lemma RowElement(d0: Dram, d: Dram, x: GoodDs, b: int, orow: int, b': int, r: int, c: int, o: int)
    requires Placed(d0, x) && OnlyOutput(x, d0, d) && 0 <= b < x.batch && 0 <= orow < x.outDim
    requires InRow(x, b', r, c) && 0 <= o < x.outCh
    ensures var a := x.output + Ix4(x.outDim, x.outDim, x.outCh, b', r, c, o);
      Get(M.Product(d, x.Row(b, 2 * orow)), a) ==
        if b' == b && r == orow then LayerIn(d0, x).Out(LayerIn(d0, x).Acc(b', r, c, o)) else Get(d, a)
  {
    hide Placed, OnlyOutput, M.WellPlaced, M.Product, Conv.Acc, Conv.Out, LayerIn, Ds.Row, Ds.Ok, Ix4;
    RowPlaced(d0, d, x, b, orow);
    if b' == b && r == orow {
      SameRowCell(d0, d, x, b, orow, c, o);
    } else {
      OtherRowCell(d, x, b, orow, b', r, c, o);
    }
  }

  lemma RowCell(d0: Dram, d: Dram, d': Dram, x: GoodDs, b: int, orow: int, b': int, r: int, c: int, o: int)
    requires Placed(d0, x) && OnlyOutput(x, d0, d) && 0 <= b < x.batch && 0 <= orow < x.outDim
    requires d' == M.Product(d, x.Row(b, 2 * orow)) && LayerIn(d0, x).Output().In(b', r, c, o)
    ensures var t := LayerIn(d0, x).Output();
      At(OutputIn(d', x), t.Ix(b', r, c, o)) ==
        if b' == b && r == orow then t.cell(b', r, c, o) else At(OutputIn(d, x), t.Ix(b', r, c, o))
  {
    OutputIs(d0, x, b', r, c, o);
    hide Placed, OnlyOutput, OutputIn, M.Product, Conv.Acc, Conv.Out, Conv.Output, Ds.Row, Ds.OutSize, Ix4, Target.In,
         Target.Ix;
    var n := Ix4(x.outDim, x.outDim, x.outCh, b', r, c, o);
    OperandBounds(x, b', r, c, o, 0);
    OutputElement(d, x, n);
    OutputElement(d', x, n);
    RowElement(d0, d, x, b, orow, b', r, c, o);
  }

  lemma OutputIs(d: Dram, x: GoodDs, b: int, r: int, c: int, o: int)
    ensures var t := LayerIn(d, x).Output();
      && t.Ix(b, r, c, o) == Ix4(x.outDim, x.outDim, x.outCh, b, r, c, o)
      && (t.In(b, r, c, o) <==> InRow(x, b, r, c) && 0 <= o < x.outCh)
      && t.cell(b, r, c, o) == LayerIn(d, x).Out(LayerIn(d, x).Acc(b, r, c, o))
  {
    hide Conv.Acc, Conv.Out, Ix4, Ds.InSize, Ds.WSize;
  }

  lemma OutputElement(d: Dram, x: GoodDs, n: int)
    requires 0 <= n < x.OutSize()
    ensures At(OutputIn(d, x), n) == Get(d, x.output + n)
  {}

  lemma SameRowCell(d0: Dram, d: Dram, x: GoodDs, b: int, orow: int, c: int, o: int)
    requires Placed(d0, x) && OnlyOutput(x, d0, d) && InRow(x, b, orow, c) && 0 <= o < x.outCh
    requires M.WellPlaced(d, x.Row(b, 2 * orow))
    ensures Get(M.Product(d, x.Row(b, 2 * orow)), x.output + Ix4(x.outDim, x.outDim, x.outCh, b, orow, c, o))
         == LayerIn(d0, x).Out(LayerIn(d0, x).Acc(b, orow, c, o))
  {
    hide Placed, OnlyOutput, M.WellPlaced, M.Product, M.Partial, Ds.Row, Ds.InSize, Ds.WSize, Ds.OutSize, Ix4,
         Conv.Acc, M.CAddr;
    var q: M.Placed := M.Problem(d, x.Row(b, 2 * orow));
    RowAddresses(x, b, orow, c, o, 0);
    RowScales(x, b, orow);
    PartialIsAcc(d0, d, x, b, orow, c, o);
    M.ProductCell(q, c, o);
  }

  lemma OtherRowCell(d: Dram, x: GoodDs, b: int, orow: int, b': int, r: int, c: int, o: int)
    requires 0 <= b < x.batch && 0 <= orow < x.outDim && InRow(x, b', r, c) && 0 <= o < x.outCh
    requires M.WellPlaced(d, x.Row(b, 2 * orow)) && (b' != b || r != orow)
    ensures var a := x.output + Ix4(x.outDim, x.outDim, x.outCh, b', r, c, o);
      Get(M.Product(d, x.Row(b, 2 * orow)), a) == Get(d, a)
  {
    var q: M.Placed := M.Problem(d, x.Row(b, 2 * orow));
    var p := q.p;
    var a := x.output + Ix4(x.outDim, x.outDim, x.outCh, b', r, c, o);
    if M.InC(p, a) {
      var i, j :| 0 <= i < p.dimI && 0 <= j < p.dimJ
                  && a == ElemAddr(p.C, p.strideC * SizeofC(p.fullC), SizeofC(p.fullC), i, j);
      assert a == M.CAddr(p, i, j);
      RowAddresses(x, b, orow, i, j, 0);
      RowScales(x, b, orow);
      Ix4Injective(x.outDim, x.outDim, x.outCh, b, orow, i, j, b', r, c, o);
    }
    M.AfterUnchanged(q, M.All());
    hide M.WellPlaced, M.After, M.InC, Ix4, Ds.Row;
  }

  // ---------- the whole layer ----------

  /** Every even image row becomes one multiply; a failing check ends the program. */
  method TiledConvDownsample(g: Gemmini, x: GoodDs, kind: Kind) returns (r: A.Status)
    requires g.Valid() && (kind == WS ==> DIM <= ACC_ROWS / 2) && Placed(g.dram, x)
    modifies g
    ensures g.Valid() && OnlyOutput(x, old(g.dram), g.dram)
    ensures LayerIn(old(g.dram), x).Ok()
    ensures r == A.Done ==> Filled(LayerIn(old(g.dram), x).Output(), OutputIn(old(g.dram), x), OutputIn(g.dram, x))
    ensures A.RoomForK(kind, A.Blocks(x.outDim), A.Blocks(x.outCh)) && SPAD_ROWS <= 65535 * DIM ==> r == A.Done
  {
    ghost var d0 := g.dram;
    LayerOk(d0, x);
    ghost var t := LayerIn(d0, x).Output();
    assert x.batch >= 0;
    hide Ds.Ok, Ds.OutSize, LayerIn, OutputIn, Placed, OnlyOutput, A.RoomForK, A.Blocks, A.MaxTileIJ;
    Untouched(d0, x);
    r := A.Done;
    for b := 0 to x.batch
      invariant g.Valid() && r == A.Done && OnlyOutput(x, d0, g.dram)
      invariant Wrote(t, OutputIn(d0, x), OutputIn(g.dram, x), Box(0, b, 0, x.outDim, 0, x.outDim, 0, x.outCh))
    {
      ghost var d1 := g.dram;
      r := BatchRows(g, x, kind, b, d0);
      if r != A.Done { return; }
      WroteJoin(t, OutputIn(d0, x), OutputIn(d1, x), OutputIn(g.dram, x),
                Box(0, b, 0, x.outDim, 0, x.outDim, 0, x.outCh), Box(b, b + 1, 0, x.outDim, 0, x.outDim, 0, x.outCh),
                Box(0, b + 1, 0, x.outDim, 0, x.outDim, 0, x.outCh));
    }
    BatchDone(d0, g.dram, x);
  }

  lemma Untouched(d: Dram, x: GoodDs)
    requires LayerIn(d, x).Ok()
    ensures OnlyOutput(x, d, d)
    ensures Wrote(LayerIn(d, x).Output(), OutputIn(d, x), OutputIn(d, x),
                  Box(0, 0, 0, x.outDim, 0, x.outDim, 0, x.outCh))
  {
    OutputSize(d, x);
    WroteNothing(LayerIn(d, x).Output(), OutputIn(d, x), Box(0, 0, 0, x.outDim, 0, x.outDim, 0, x.outCh));
    hide Wrote, Target.Ix, Conv.Acc, Target.Size;
  }

  lemma OutputSize(d: Dram, x: GoodDs)
    ensures LayerIn(d, x).Output().Size() == x.OutSize() <= |OutputIn(d, x)|
  {}

  lemma BatchDone(d: Dram, d': Dram, x: GoodDs)
    requires LayerIn(d, x).Ok()
    requires Wrote(LayerIn(d, x).Output(), OutputIn(d, x), OutputIn(d', x),
                   Box(0, x.batch, 0, x.outDim, 0, x.outDim, 0, x.outCh))
    ensures Filled(LayerIn(d, x).Output(), OutputIn(d, x), OutputIn(d', x))
  {
    hide Wrote, Conv.Acc;
  }

  /** The even rows of one image. */
  method BatchRows(g: Gemmini, x: GoodDs, kind: Kind, b: int, ghost d0: Dram) returns (r: A.Status)
    requires g.Valid() && (kind == WS ==> DIM <= ACC_ROWS / 2) && LayerIn(d0, x).Ok()
    requires Placed(d0, x) && OnlyOutput(x, d0, g.dram) && 0 <= b < x.batch
    modifies g
    ensures g.Valid() && OnlyOutput(x, d0, g.dram)
    ensures r == A.Done ==>
      Wrote(LayerIn(d0, x).Output(), OutputIn(old(g.dram), x), OutputIn(g.dram, x),
            Box(b, b + 1, 0, x.outDim, 0, x.outDim, 0, x.outCh))
    ensures A.RoomForK(kind, A.Blocks(x.outDim), A.Blocks(x.outCh)) && SPAD_ROWS <= 65535 * DIM ==> r == A.Done
  {
    ghost var t, d1 := LayerIn(d0, x).Output(), g.dram;
    assert x.inDim > 0 && x.inDim % 2 == 0;
    hide *;
    HalfDim(x);
    NoRowsYet(d0, d1, x, b);
    r := A.Done;
    var irow := 0;
    while irow < x.inDim
      invariant g.Valid() && r == A.Done && OnlyOutput(x, d0, g.dram) && irow % 2 == 0 && 0 <= irow <= x.inDim
      invariant Wrote(t, OutputIn(d1, x), OutputIn(g.dram, x), Box(b, b + 1, 0, irow / 2, 0, x.outDim, 0, x.outCh))
    {
      ghost var d2 := g.dram;
      r := RunRow(g, x, kind, b, irow, d0);
      if r != A.Done { return; }
      RowJoined(t, OutputIn(d1, x), OutputIn(d2, x), OutputIn(g.dram, x), b, irow / 2, x.outDim, x.outCh);
      irow := irow + 2;
    }
  }

  lemma RowJoined(t: Target, s0: seq<int>, s1: seq<int>, s2: seq<int>, b: int, row: int, dim: int, ch: int)
    requires Wrote(t, s0, s1, Box(b, b + 1, 0, row, 0, dim, 0, ch)) && row >= 0
    requires Wrote(t, s1, s2, Box(b, b + 1, row, row + 1, 0, dim, 0, ch))
    ensures Wrote(t, s0, s2, Box(b, b + 1, 0, row + 1, 0, dim, 0, ch))
  {
    hide Wrote, Target.In;
    WroteJoin(t, s0, s1, s2, Box(b, b + 1, 0, row, 0, dim, 0, ch), Box(b, b + 1, row, row + 1, 0, dim, 0, ch),
              Box(b, b + 1, 0, row + 1, 0, dim, 0, ch));
  }

  lemma NoRowsYet(d0: Dram, d1: Dram, x: GoodDs, b: int)
    requires LayerIn(d0, x).Ok()
    ensures Wrote(LayerIn(d0, x).Output(), OutputIn(d1, x), OutputIn(d1, x),
                  Box(b, b + 1, 0, 0, 0, x.outDim, 0, x.outCh))
  {
    assert LayerIn(d0, x).v.inDil > 0;
    hide Ds.Ok, Ds.OutSize, LayerIn, OutputIn, Conv.Ok, Target.Size;
    OutputSize(d1, x);
    SizeSame(d0, d1, x);
    WroteNothing(LayerIn(d0, x).Output(), OutputIn(d1, x), Box(b, b + 1, 0, 0, 0, x.outDim, 0, x.outCh));
  }

  lemma SizeSame(d0: Dram, d1: Dram, x: GoodDs)
    ensures LayerIn(d0, x).Output().Size() == LayerIn(d1, x).Output().Size()
  {}

  method RunRow(g: Gemmini, x: GoodDs, kind: Kind, b: int, irow: int, ghost d0: Dram) returns (r: A.Status)
    requires g.Valid() && (kind == WS ==> DIM <= ACC_ROWS / 2) && LayerIn(d0, x).Ok()
    requires Placed(d0, x) && OnlyOutput(x, d0, g.dram) && 0 <= b < x.batch && 0 <= irow < x.inDim && irow % 2 == 0
    modifies g
    ensures g.Valid() && OnlyOutput(x, d0, g.dram)
    ensures r == A.Done ==>
      Wrote(LayerIn(d0, x).Output(), OutputIn(old(g.dram), x), OutputIn(g.dram, x),
            Box(b, b + 1, irow / 2, irow / 2 + 1, 0, x.outDim, 0, x.outCh))
    ensures A.RoomForK(kind, A.Blocks(x.outDim), A.Blocks(x.outCh)) && SPAD_ROWS <= 65535 * DIM ==> r == A.Done
  {
    hide *;
    ghost var orow := irow / 2;
    HalfRow(x, irow, orow);
    RowPlaced(d0, g.dram, x, b, orow);
    RowWrites(d0, g.dram, x, b, orow);
    RowCall(g.dram, x, b, irow, orow, kind);
    r := A.TiledMatmulAuto(g, x.Row(b, irow), kind);
  }

  lemma HalfRow(x: GoodDs, irow: int, orow: int)
    requires 0 <= irow < x.inDim && irow % 2 == 0 && orow == irow / 2
    ensures irow == 2 * orow && 0 <= orow < x.outDim
  {}

  /** One row's multiply is one every back end can do. */
  lemma RowCall(d: Dram, x: GoodDs, b: int, irow: int, orow: int, kind: Kind)
    requires irow == 2 * orow && 0 <= orow < x.outDim && M.WellPlaced(d, x.Row(b, 2 * orow))
    ensures var p := x.Row(b, irow);
      && p == x.Row(b, 2 * orow) && A.Sound(d, p, kind) && A.Effective(p, kind) == p && !p.transA && !p.transB
      && p.dimI == x.outDim > 0 && p.dimJ == x.outCh > 0 && p.dimK > 0
  {
    assert x.inCh > 0 && x.outCh > 0;
    HalfDim(x);
    RowScales(x, b, orow);
    hide M.WellPlaced, Ds.Ok;
  }
}
