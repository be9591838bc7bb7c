/** Max pooling: as a pass over a finished convolution, and fused into conv_cpu. */
module ConvPool {
  import opened Arith
  import opened Config
  import opened ConvDirect
  import opened ConvSpec
  import opened Tensor

  type Window = (int, int) -> int

  function Larger(x: int, y: int): int { if y > x then y else x }

  /** Running maximum over the first n elements of window row r. */
  function RowMax(f: Window, r: int, n: int, start: int): int
    decreases n
  {
    if n <= 0 then start else Larger(RowMax(f, r, n - 1, start), f(r, n - 1))
  }

  function WindowMax(f: Window, size: int, rows: int, start: int): int
    decreases rows
  {
    if rows <= 0 then start else RowMax(f, rows - 1, size, WindowMax(f, size, rows - 1, start))
  }

  ghost predicate IsMax(m: int, f: Window, size: int, rows: int, start: int) {
    && m >= start && (forall r, c :: 0 <= r < rows && 0 <= c < size ==> f(r, c) <= m)
    && (m == start || exists r, c :: 0 <= r < rows && 0 <= c < size && m == f(r, c))
  }

  lemma {:induction false} RowMaxIs(f: Window, r: int, n: int, start: int)
    ensures var m := RowMax(f, r, n, start);
      && m >= start && (forall c :: 0 <= c < n ==> f(r, c) <= m)
      && (m == start || exists c :: 0 <= c < n && m == f(r, c))
    decreases n
  {
    if n > 0 { RowMaxIs(f, r, n - 1, start); }
  }

  /** The running maximum is the greatest of the window's elements and its starting value. */
  lemma {:induction false} WindowMaxIs(f: Window, size: int, rows: int, start: int)
    ensures IsMax(WindowMax(f, size, rows, start), f, size, rows, start)
    decreases rows
  {
    if rows > 0 {
      WindowMaxIs(f, size, rows - 1, start);
      RowMaxIs(f, rows - 1, size, WindowMax(f, size, rows - 1, start));
    }
  }

  /** Windows with the same elements have the same maximum. */
  lemma WindowMaxEq(f: Window, g: Window, size: int, start: int)
    requires forall r, c :: 0 <= r < size && 0 <= c < size ==> f(r, c) == g(r, c)
    ensures WindowMax(f, size, size, start) == WindowMax(g, size, size, start)
  {
    WindowMaxIs(f, size, size, start);
    WindowMaxIs(g, size, size, start);
  }

  datatype Pooling = Pooling(size: nat, stride: int, padding: int)

  /** Row (or column) of the pooled image under element w of window x. */
  function Under(q: Pooling, x: int, w: int): int { x * q.stride + w - q.padding }

  /** A pooling window over a dim x dim image; elements outside it count as zero. */
  function WindowOf(image: (int, int, int, int) -> int, dim: int, q: Pooling, b: int, r: int, c: int, o: int): Window {
    (wr, wc) =>
      if 0 <= Under(q, r, wr) < dim && 0 <= Under(q, c, wc) < dim
      then image(b, Under(q, r, wr), Under(q, c, wc), o) else 0
  }

  function PoolCell(image: (int, int, int, int) -> int, dim: int, q: Pooling): (int, int, int, int) -> int {
    (b, r, c, o) => WindowMax(WindowOf(image, dim, q, b, r, c, o), q.size, q.size, ELEM_MIN)
  }

  /** The pooled output of poolDim x poolDim pixels. */
  function Pooled(t: Target, poolDim: int, q: Pooling): Target {
    Target(t.n0, poolDim, poolDim, t.n3, t.transposed, PoolCell(t.cell, t.n1, q))
  }

  /** An NHWC array as an image. */
  function Stored(t: Target, s: seq<int>): (int, int, int, int) -> int {
    (b, r, c, o) => At(s, Ix4(t.n1, t.n2, t.n3, b, r, c, o))
  }

  method WindowPixel(t: Target, input: seq<int>, q: Pooling, b: int, r: int, c: int, ch: int, wrow: int, wcol: int)
    returns (pixel: int)
    requires t.n0 * t.n1 * t.n2 * t.n3 <= |input| && t.n1 == t.n2 && 0 <= b < t.n0 && 0 <= ch < t.n3
    ensures pixel == WindowOf(Stored(t, input), t.n1, q, b, r, c, ch)(wrow, wcol)
  {
    var irow := r * q.stride + wrow - q.padding;
    var icol := c * q.stride + wcol - q.padding;
    pixel := 0;
    assert Under(q, r, wrow) == irow && Under(q, c, wcol) == icol;
    hide Under;
    if !(irow < 0 || irow >= t.n1 || icol < 0 || icol >= t.n1) {
      Ix4Bound(t.n0, t.n1, t.n2, t.n3, b, irow, icol, ch);
      pixel := input[Ix4(t.n1, t.n2, t.n3, b, irow, icol, ch)];
    }
  }

  /** The two window loops: the output element itself is the running maximum. */
  method PoolWindow(t: Target, input: seq<int>, q: Pooling, output: array<int>, at: int, b: int, r: int, c: int,
                    ch: int)
    requires t.n0 * t.n1 * t.n2 * t.n3 <= |input| && t.n1 == t.n2 && 0 <= at < output.Length
    requires 0 <= b < t.n0 && 0 <= ch < t.n3
    modifies output
    ensures output[..] == old(output[..])[at := PoolCell(Stored(t, input), t.n1, q)(b, r, c, ch)]
  {
    ghost var s := output[..];
    ghost var f := WindowOf(Stored(t, input), t.n1, q, b, r, c, ch);
    output[at] := ELEM_MIN;
    for wrow := 0 to q.size
      invariant output[..] == s[at := WindowMax(f, q.size, wrow, ELEM_MIN)]
    {
      ghost var m := WindowMax(f, q.size, wrow, ELEM_MIN);
      for wcol := 0 to q.size
        invariant output[..] == s[at := RowMax(f, wrow, wcol, m)]
      {
        assert output[at] == RowMax(f, wrow, wcol, m);
        var pixel := WindowPixel(t, input, q, b, r, c, ch, wrow, wcol);
        if pixel > output[at] {
          output[at] := pixel;
        }
      }
    }
  }

  ghost predicate PoolInput(t: Target, input: seq<int>) {
    && t.n0 >= 0 && t.n1 >= 0 && t.n3 >= 0 && t.n1 == t.n2 && !t.transposed
    && t.n0 * t.n1 * t.n2 * t.n3 <= |input|
  }

  /** Where `pool` puts the maxima of its input. */
  function PoolTarget(t: Target, input: seq<int>, outDim: int, q: Pooling): Target {
    Pooled(t.(cell := Stored(t, input)), outDim, q)
  }

  /** pool() of conv_with_pool.c. */
  method Pool(t: Target, input: seq<int>, outDim: nat, q: Pooling, output: array<int>)
    requires PoolInput(t, input) && PoolTarget(t, input, outDim, q).Size() <= output.Length
    modifies output
    ensures Filled(PoolTarget(t, input, outDim, q), old(output[..]), output[..])
  {
    ghost var u := PoolTarget(t, input, outDim, q);
    ghost var s0 := output[..];
    for b := 0 to t.n0
      invariant Wrote(u, s0, output[..], Box(0, b, 0, outDim, 0, outDim, 0, t.n3))
    {
      ghost var s1 := output[..];
      for orow := 0 to outDim
        invariant Wrote(u, s1, output[..], Box(b, b + 1, 0, orow, 0, outDim, 0, t.n3))
      {
        ghost var s2 := output[..];
        PoolRow(t, input, outDim, q, output, b, orow);
        WroteJoin(u, s1, s2, output[..], Box(b, b + 1, 0, orow, 0, outDim, 0, t.n3),
                  Box(b, b + 1, orow, orow + 1, 0, outDim, 0, t.n3), Box(b, b + 1, 0, orow + 1, 0, outDim, 0, t.n3));
      }
      WroteJoin(u, s0, s1, output[..], Box(0, b, 0, outDim, 0, outDim, 0, t.n3),
                Box(b, b + 1, 0, outDim, 0, outDim, 0, t.n3), Box(0, b + 1, 0, outDim, 0, outDim, 0, t.n3));
    }
  }

  method PoolRow(t: Target, input: seq<int>, outDim: nat, q: Pooling, output: array<int>, b: int, orow: int)
    requires PoolInput(t, input) && PoolTarget(t, input, outDim, q).Size() <= output.Length
    requires 0 <= b < t.n0 && 0 <= orow < outDim
    modifies output
    ensures Wrote(PoolTarget(t, input, outDim, q), old(output[..]), output[..],
                  Box(b, b + 1, orow, orow + 1, 0, outDim, 0, t.n3))
  {
    ghost var u := PoolTarget(t, input, outDim, q);
    ghost var s0 := output[..];
    for ocol := 0 to outDim
      invariant Wrote(u, s0, output[..], Box(b, b + 1, orow, orow + 1, 0, ocol, 0, t.n3))
    {
      ghost var s1 := output[..];
      for ch := 0 to t.n3
        invariant Wrote(u, s1, output[..], Box(b, b + 1, orow, orow + 1, ocol, ocol + 1, 0, ch))
      {
        ghost var s2 := output[..];
        WroteOne(u, s2, b, orow, ocol, ch);
        PoolWindow(t, input, q, output, Ix4(outDim, outDim, t.n3, b, orow, ocol, ch), b, orow, ocol, ch);
        WroteJoin(u, s1, s2, output[..], Box(b, b + 1, orow, orow + 1, ocol, ocol + 1, 0, ch),
                  Box(b, b + 1, orow, orow + 1, ocol, ocol + 1, ch, ch + 1),
                  Box(b, b + 1, orow, orow + 1, ocol, ocol + 1, 0, ch + 1));
      }
      WroteJoin(u, s0, s1, output[..], Box(b, b + 1, orow, orow + 1, 0, ocol, 0, t.n3),
                Box(b, b + 1, orow, orow + 1, ocol, ocol + 1, 0, t.n3),
                Box(b, b + 1, orow, orow + 1, 0, ocol + 1, 0, t.n3));
    }
  }

  /** The window loops of the network library's pool(), whose coordinates are running counters. */
  method WindowResult(t: Target, input: seq<int>, q: Pooling, b: int, outRow: int, outCol: int, ch: int)
    returns (result: int)
    requires PoolInput(t, input) && 0 <= b < t.n0 && 0 <= ch < t.n3
    ensures result == PoolCell(Stored(t, input), t.n1, q)(b, outRow, outCol, ch)
  {
    ghost var f := WindowOf(Stored(t, input), t.n1, q, b, outRow, outCol, ch);
    var inRow := outRow * q.stride - q.padding;
    result := ELEM_MIN;
    for krow := 0 to q.size
      invariant inRow == Under(q, outRow, krow)
      invariant result == WindowMax(f, q.size, krow, ELEM_MIN)
    {
      ghost var m := result;
      var inCol := outCol * q.stride - q.padding;
      for kcol := 0 to q.size
        invariant inCol == Under(q, outCol, kcol)
        invariant result == RowMax(f, krow, kcol, m)
      {
        if inRow >= 0 && inRow < t.n1 && inCol >= 0 && inCol < t.n1 {
          Ix4Bound(t.n0, t.n1, t.n2, t.n3, b, inRow, inCol, ch);
          var pixel := input[Ix4(t.n1, t.n2, t.n3, b, inRow, inCol, ch)];
          if pixel > result {
            result := pixel;
          }
        } else if 0 > result {
          result := 0;
        }
        inCol := inCol + 1;
      }
      inRow := inRow + 1;
    }
  }

  /** pool() of gemmini_nn.h: channels outermost after the batch. */
  method PoolLayer(t: Target, input: seq<int>, outDim: nat, q: Pooling, output: array<int>)
    requires PoolInput(t, input) && PoolTarget(t, input, outDim, q).Size() <= output.Length
    modifies output
    ensures Filled(PoolTarget(t, input, outDim, q), old(output[..]), output[..])
  {
    ghost var u := PoolTarget(t, input, outDim, q);
    ghost var s0 := output[..];
    for b := 0 to t.n0
      invariant Wrote(u, s0, output[..], Box(0, b, 0, outDim, 0, outDim, 0, t.n3))
    {
      ghost var s1 := output[..];
      for ch := 0 to t.n3
        invariant Wrote(u, s1, output[..], Box(b, b + 1, 0, outDim, 0, outDim, 0, ch))
      {
        ghost var s2 := output[..];
        PoolPlane(t, input, outDim, q, output, b, ch);
        WroteJoin(u, s1, s2, output[..], Box(b, b + 1, 0, outDim, 0, outDim, 0, ch),
                  Box(b, b + 1, 0, outDim, 0, outDim, ch, ch + 1), Box(b, b + 1, 0, outDim, 0, outDim, 0, ch + 1));
      }
      WroteJoin(u, s0, s1, output[..], Box(0, b, 0, outDim, 0, outDim, 0, t.n3),
                Box(b, b + 1, 0, outDim, 0, outDim, 0, t.n3), Box(0, b + 1, 0, outDim, 0, outDim, 0, t.n3));
    }
  }

  method PoolPlane(t: Target, input: seq<int>, outDim: nat, q: Pooling, output: array<int>, b: int, ch: int)
    requires PoolInput(t, input) && PoolTarget(t, input, outDim, q).Size() <= output.Length
    requires 0 <= b < t.n0 && 0 <= ch < t.n3
    modifies output
    ensures Wrote(PoolTarget(t, input, outDim, q), old(output[..]), output[..],
                  Box(b, b + 1, 0, outDim, 0, outDim, ch, ch + 1))
  {
    ghost var u := PoolTarget(t, input, outDim, q);
    ghost var s0 := output[..];
    for row := 0 to outDim
      invariant Wrote(u, s0, output[..], Box(b, b + 1, 0, row, 0, outDim, ch, ch + 1))
    {
      ghost var s1 := output[..];
      for col := 0 to outDim
        invariant Wrote(u, s1, output[..], Box(b, b + 1, row, row + 1, 0, col, ch, ch + 1))
      {
        ghost var s2 := output[..];
        WroteOne(u, s2, b, row, col, ch);
        var result := WindowResult(t, input, q, b, row, col, ch);
        output[Ix4(outDim, outDim, t.n3, b, row, col, ch)] := result;
        WroteJoin(u, s1, s2, output[..], Box(b, b + 1, row, row + 1, 0, col, ch, ch + 1),
                  Box(b, b + 1, row, row + 1, col, col + 1, ch, ch + 1),
                  Box(b, b + 1, row, row + 1, 0, col + 1, ch, ch + 1));
      }
      WroteJoin(u, s0, s1, output[..], Box(b, b + 1, 0, row, 0, outDim, ch, ch + 1),
                Box(b, b + 1, row, row + 1, 0, outDim, ch, ch + 1), Box(b, b + 1, 0, row + 1, 0, outDim, ch, ch + 1));
    }
  }

  // ---------- pooling fused into the convolution ----------

  /** pool_out_dim; the division is C's. */
  function PoolDim(outDim: int, q: Pooling): int
    requires q.stride > 0
  {
    CDiv(outDim + 2 * q.padding - q.size, q.stride) + 1
  }

  /** If the window fits into the padded image at all, the pooled rows are exactly the places where it fits. */
  lemma PooledRows(outDim: int, q: Pooling, pr: int)
    requires q.stride > 0 && q.size <= outDim + 2 * q.padding
    ensures 0 <= pr < PoolDim(outDim, q) <==> 0 <= pr && pr * q.stride + q.size <= outDim + 2 * q.padding
  {
    var n := outDim + 2 * q.padding - q.size;
    DivMul(n, q.stride);
    if pr <= n / q.stride {
      MulLe(pr, n / q.stride, q.stride);
    } else {
      MulLe(n / q.stride + 1, pr, q.stride);
      Distribute(n / q.stride, 1, q.stride);
    }
  }

  /** If it fits nowhere, division in C still leaves one pooled row unless at least a whole stride is missing:
      there are no pooled rows exactly when the window is that much too large. */
  lemma NoPooledRows(outDim: int, q: Pooling)
    requires q.stride > 0 && q.size > outDim + 2 * q.padding
    ensures PoolDim(outDim, q) <= 1
    ensures PoolDim(outDim, q) == 1 <==> q.size - outDim - 2 * q.padding < q.stride
  {
    var n := q.size - outDim - 2 * q.padding;
    DivBounds(n, q.stride);
  }

  function FusedOutput(p: GoodConv, q: Pooling): Target
    requires q.stride > 0
  {
    Pooled(p.Output(), PoolDim(p.v.outDim, q), q)
  }

  lemma FusedElement(p: GoodConv, q: Pooling, b: int, pr: int, pc: int, o: int, wr: int, wc: int)
    ensures var r, c := Under(q, pr, wr), Under(q, pc, wc);
      WindowOf(p.Cell(), p.v.outDim, q, b, pr, pc, o)(wr, wc)
        == if r < 0 || r >= p.v.outDim || c < 0 || c >= p.v.outDim then 0 else p.Out(p.Acc(b, r, c, o))
    ensures WindowOf(p.Cell(), p.v.outDim, q, b, pr, pc, o)(wr, wc) >= ELEM_MIN
  {}

  /** One window element of conv_cpu. Before the first one there is no running maximum, which is
      as good as starting from the least element. */
  method FusedStep(p: GoodConv, q: Pooling, b: int, porow: int, pocol: int, poch: int, pwrow: int, pwcol: int,
                   running: Option<int>) returns (running_max: int)
    requires 0 <= b < p.v.batch && 0 <= poch < p.v.outCh
    ensures running_max == Larger(if running.Some? then running.value else ELEM_MIN,
                                  WindowOf(p.Cell(), p.v.outDim, q, b, porow, pocol, poch)(pwrow, pwcol))
  {
    var orow := porow * q.stride + pwrow - q.padding;
    var ocol := pocol * q.stride + pwcol - q.padding;
    FusedElement(p, q, b, porow, pocol, poch, pwrow, pwcol);
    assert Under(q, porow, pwrow) == orow && Under(q, pocol, pwcol) == ocol;
    hide Conv.Acc, Conv.Out, WindowOf, Under;
    if orow < 0 || orow >= p.v.outDim || ocol < 0 || ocol >= p.v.outDim {
      running_max := if running.None? || running.value < 0 then 0 else running.value;
    } else {
      var opixel := AccumulatePixel(p, b, orow, ocol, poch);
      opixel := p.Out(opixel);
      running_max := if running.None? || opixel > running.value then opixel else running.value;
    }
  }

  function Current(running: Option<int>): int { if running.Some? then running.value else ELEM_MIN }

  /** The pwcol loop. */
  method FusedWindowRow(p: GoodConv, q: Pooling, b: int, porow: int, pocol: int, poch: int, pwrow: int,
                        start: Option<int>)
    returns (running: Option<int>)
    requires 0 <= pwrow < q.size && 0 <= b < p.v.batch && 0 <= poch < p.v.outCh
    ensures running.Some?
    ensures running.value == RowMax(WindowOf(p.Cell(), p.v.outDim, q, b, porow, pocol, poch), pwrow, q.size,
                                    Current(start))
  {
    ghost var f := WindowOf(p.Cell(), p.v.outDim, q, b, porow, pocol, poch);
    hide Conv.Ok, Layer.Ok, Conv.Acc, WindowOf, Conv.Cell;
    running := start;
    for pwcol := 0 to q.size
      invariant pwcol > 0 ==> running.Some?
      invariant Current(running) == RowMax(f, pwrow, pwcol, Current(start))
    {
      var running_max := FusedStep(p, q, b, porow, pocol, poch, pwrow, pwcol, running);
      running := Some(running_max);
    }
  }

  /** The window loops of conv_cpu: the maximum is kept in a local, and stored by the last iteration
      of the last row. */
  method FusedWindow(p: GoodConv, q: Pooling, output: array<int>, at: int, b: int, porow: int, pocol: int, poch: int)
    requires 0 <= at < output.Length && q.size >= 1
    requires 0 <= b < p.v.batch && 0 <= poch < p.v.outCh
    modifies output
    ensures output[..] == old(output[..])[at := PoolCell(p.Cell(), p.v.outDim, q)(b, porow, pocol, poch)]
  {
    ghost var f := WindowOf(p.Cell(), p.v.outDim, q, b, porow, pocol, poch);
    var running: Option<int> := None;
    for pwrow := 0 to q.size
      invariant pwrow > 0 ==> running.Some?
      invariant Current(running) == WindowMax(f, q.size, pwrow, ELEM_MIN)
      invariant output[..] == if pwrow == q.size then old(output[..])[at := running.value] else old(output[..])
    {
      hide WindowOf;
      running := FusedWindowRow(p, q, b, porow, pocol, poch, pwrow, running);
      if pwrow == q.size - 1 {
        output[at] := running.value;
      }
    }
  }

  method FusedRow(p: GoodConv, q: Pooling, poolDim: int, output: array<int>, b: int, porow: int)
    requires q.stride > 0 && q.size >= 1 && poolDim == PoolDim(p.v.outDim, q)
    requires FusedOutput(p, q).Size() <= output.Length && 0 <= b < p.v.batch && 0 <= porow < poolDim
    modifies output
    ensures Wrote(FusedOutput(p, q), old(output[..]), output[..],
                  Box(b, b + 1, porow, porow + 1, 0, poolDim, 0, p.v.outCh))
  {
    ghost var u := FusedOutput(p, q);
    ghost var s0 := output[..];
    for pocol := 0 to poolDim
      invariant Wrote(u, s0, output[..], Box(b, b + 1, porow, porow + 1, 0, pocol, 0, p.v.outCh))
    {
      ghost var s1 := output[..];
      for poch := 0 to p.v.outCh
        invariant Wrote(u, s1, output[..], Box(b, b + 1, porow, porow + 1, pocol, pocol + 1, 0, poch))
      {
        ghost var s2 := output[..];
        WroteOne(u, s2, b, porow, pocol, poch);
        PooledIndex(p, q, b, porow, pocol, poch);
        FusedWindow(p, q, output, OutputIndex(p.v.(outDim := poolDim), b, porow, pocol, poch), b, porow, pocol, poch);
        WroteJoin(u, s1, s2, output[..], Box(b, b + 1, porow, porow + 1, pocol, pocol + 1, 0, poch),
                  Box(b, b + 1, porow, porow + 1, pocol, pocol + 1, poch, poch + 1),
                  Box(b, b + 1, porow, porow + 1, pocol, pocol + 1, 0, poch + 1));
      }
      WroteJoin(u, s0, s1, output[..], Box(b, b + 1, porow, porow + 1, 0, pocol, 0, p.v.outCh),
                Box(b, b + 1, porow, porow + 1, pocol, pocol + 1, 0, p.v.outCh),
                Box(b, b + 1, porow, porow + 1, 0, pocol + 1, 0, p.v.outCh));
    }
  }

  lemma PooledIndex(p: GoodConv, q: Pooling, b: int, r: int, c: int, o: int)
    requires q.stride > 0
    ensures OutputIndex(p.v.(outDim := PoolDim(p.v.outDim, q)), b, r, c, o) == FusedOutput(p, q).Ix(b, r, c, o)
  {
    var d := PoolDim(p.v.outDim, q);
    Ix4Flat(d, p.v.batch, p.v.outCh, r, c, b, o);
    Ix4Flat(d, d, p.v.outCh, b, r, c, o);
    hide Ix4, PoolDim;
  }

  /** conv_cpu: without pooling when the pooling stride is zero. */
  method ConvCpu(p: GoodConv, q: Pooling, output: array<int>)
    requires q.stride >= 0
    requires if q.stride == 0 then p.Output().Size() <= output.Length
             else q.size >= 1 && FusedOutput(p, q).Size() <= output.Length
    modifies output
    ensures if q.stride == 0 then Filled(p.Output(), old(output[..]), output[..])
            else Filled(FusedOutput(p, q), old(output[..]), output[..])
  {
    if q.stride == 0 {
      ConvCpuWithoutPool(p, output);
      return;
    }
    var poolDim := PoolDim(p.v.outDim, q);
    ghost var u := FusedOutput(p, q);
    ghost var s0 := output[..];
    for b := 0 to p.v.batch
      invariant Wrote(u, s0, output[..], Box(0, b, 0, poolDim, 0, poolDim, 0, p.v.outCh))
    {
      ghost var s1 := output[..];
      var porow := 0;
      while porow < poolDim
        invariant 0 <= porow && (porow == 0 || porow <= poolDim)
        invariant Wrote(u, s1, output[..], Box(b, b + 1, 0, porow, 0, poolDim, 0, p.v.outCh))
      {
        ghost var s2 := output[..];
        FusedRow(p, q, poolDim, output, b, porow);
        WroteJoin(u, s1, s2, output[..], Box(b, b + 1, 0, porow, 0, poolDim, 0, p.v.outCh),
                  Box(b, b + 1, porow, porow + 1, 0, poolDim, 0, p.v.outCh),
                  Box(b, b + 1, 0, porow + 1, 0, poolDim, 0, p.v.outCh));
        porow := porow + 1;
      }
      WroteJoin(u, s0, s1, output[..], Box(0, b, 0, poolDim, 0, poolDim, 0, p.v.outCh),
                Box(b, b + 1, 0, porow, 0, poolDim, 0, p.v.outCh),
                Box(0, b + 1, 0, poolDim, 0, poolDim, 0, p.v.outCh));
    }
  }

  /** Fusing changes nothing: conv_cpu with pooling leaves the array that pool() makes of the
      output of conv_cpu_without_pool. */
  lemma FusedIsPool(p: GoodConv, q: Pooling, before: seq<int>, conv: seq<int>, x: seq<int>, fused: seq<int>,
                    pooled: seq<int>)
    requires q.stride > 0 && q.size >= 1 && !p.v.transOut && PoolDim(p.v.outDim, q) >= 0
    requires Filled(p.Output(), before, conv)
    requires Filled(FusedOutput(p, q), x, fused)
    requires Filled(PoolTarget(p.Output(), conv, PoolDim(p.v.outDim, q), q), x, pooled)
    ensures fused == pooled
  {
    var t, u := FusedOutput(p, q), PoolTarget(p.Output(), conv, PoolDim(p.v.outDim, q), q);
    forall b, r, c, o | t.In(b, r, c, o) ensures t.cell(b, r, c, o) == u.cell(b, r, c, o) {
      FusedCell(p, q, before, conv, b, r, c, o);
    }
    hide Filled, PoolCell, PoolDim;
    FilledSame(t, u, x, fused, pooled);
  }

  lemma FusedCell(p: GoodConv, q: Pooling, before: seq<int>, conv: seq<int>, b: int, r: int, c: int, o: int)
    requires Filled(p.Output(), before, conv) && !p.v.transOut && 0 <= b < p.v.batch && 0 <= o < p.v.outCh
    ensures PoolCell(p.Cell(), p.v.outDim, q)(b, r, c, o)
              == PoolCell(Stored(p.Output(), conv), p.v.outDim, q)(b, r, c, o)
  {
    var f := WindowOf(p.Cell(), p.v.outDim, q, b, r, c, o);
    var g := WindowOf(Stored(p.Output(), conv), p.v.outDim, q, b, r, c, o);
    forall wr, wc ensures f(wr, wc) == g(wr, wc) {
      hide Conv.Acc, Under;
      var t := p.Output();
      if 0 <= Under(q, r, wr) < p.v.outDim && 0 <= Under(q, c, wc) < p.v.outDim {
        assert t.In(b, Under(q, r, wr), Under(q, c, wc), o);
        assert At(conv, t.Ix(b, Under(q, r, wr), Under(q, c, wc), o)) == t.cell(b, Under(q, r, wr), Under(q, c, wc), o);
      }
    }
    WindowMaxEq(f, g, q.size, ELEM_MIN);
  }
}
