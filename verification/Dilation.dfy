/** The zero-stuffed copy of an array made by the reference convolutions. */
module Dilation {
  import opened Arith
  import opened Sums3
  import opened Tensor

  /** The source elements go to the multiples of d; everything between is zero. */
  function StuffedCell(src: seq<int>, n: int, n3: int, d: int): (int, int, int, int) -> int
    requires d > 0
  {
    (b, r, c, k) => if r % d == 0 && c % d == 0 then At(src, Ix4(n, n, n3, b, r / d, c / d, k)) else 0
  }

  function ZeroCell(): (int, int, int, int) -> int { (b, r, c, k) => 0 }

  /** An n0 x n x n x n3 array with d - 1 zero rows and columns between neighbours. */
  datatype Stuffing = Stuffing(src: seq<int>, n0: int, n: int, n3: int, d: int) {
    ghost predicate Ok() { n0 >= 0 && n >= 1 && n3 >= 0 && d >= 1 && n0 * n * n * n3 <= |src| }

    function Dim(): int { Stuffed(n, d) }

    function Result(): Target requires d > 0 { Target(n0, Dim(), Dim(), n3, false, StuffedCell(src, n, n3, d)) }
  }

  type GoodStuffing = z: Stuffing | z.Ok() ghost witness Stuffing([], 0, 1, 0, 1)

  /** All elements of y hold their values. */
  ghost predicate Holds(t: Target, y: seq<int>) { Filled(t, y, y) }

  lemma FilledHolds(t: Target, x: seq<int>, y: seq<int>)
    requires Filled(t, x, y)
    ensures Holds(t, y)
  {}

  lemma GridStep(z: GoodStuffing, j: int)
    ensures j * z.d < z.Dim() <==> j < z.n
    ensures j <= z.n ==> j * z.d < z.Dim() + z.d
    ensures z.Dim() >= 1
    ensures (j + 1) * z.d == j * z.d + z.d
  {
    GridBounds(z.n, z.d, j);
  }

  lemma GridBounds(n: int, d: int, j: int)
    requires n >= 1 && d >= 1
    ensures j * d < Stuffed(n, d) <==> j < n
    ensures j <= n ==> j * d < Stuffed(n, d) + d
    ensures Stuffed(n, d) >= 1
    ensures (j + 1) * d == j * d + d
  {}

  /** Rows (or columns) between grid points hold zeros. */
  lemma BetweenGrid(d: int, j: int, x: int)
    requires d > 0 && j * d < x < j * d + d
    ensures x % d != 0
  {
    DivUnique(x, d, j);
  }

  lemma OnGridCell(z: GoodStuffing, b: int, j: int, i: int, k: int)
    ensures z.Result().cell(b, j * z.d, i * z.d, k) == At(z.src, Ix4(z.n, z.n, z.n3, b, j, i, k))
  {
    DivUnique(j * z.d, z.d, j);
    DivUnique(i * z.d, z.d, i);
    hide Ix4;
  }

  /** The zeroing loops. */
  method ZeroFill(z: GoodStuffing) returns (a: array<int>)
    ensures fresh(a) && a.Length == z.Result().Size()
    ensures Holds(z.Result().(cell := ZeroCell()), a[..])
  {
    ghost var t := z.Result().(cell := ZeroCell());
    var D := z.Dim();
    GridStep(z, 0);
    SizeNonneg(z);
    a := new int[z.Result().Size()];
    ghost var s0 := a[..];
    hide Stuffing.Ok, Target.Size, Stuffed, Ix4;
    for b := 0 to z.n0
      invariant Wrote(t, s0, a[..], Box(0, b, 0, D, 0, D, 0, z.n3))
    {
      ghost var s1 := a[..];
      for r := 0 to D
        invariant Wrote(t, s1, a[..], Box(b, b + 1, 0, r, 0, D, 0, z.n3))
      {
        ghost var s2 := a[..];
        ZeroRow(z, a, b, r);
        WroteJoin(t, s1, s2, a[..], Box(b, b + 1, 0, r, 0, D, 0, z.n3), Box(b, b + 1, r, r + 1, 0, D, 0, z.n3),
                  Box(b, b + 1, 0, r + 1, 0, D, 0, z.n3));
      }
      WroteJoin(t, s0, s1, a[..], Box(0, b, 0, D, 0, D, 0, z.n3), Box(b, b + 1, 0, D, 0, D, 0, z.n3),
                Box(0, b + 1, 0, D, 0, D, 0, z.n3));
    }
    FilledHolds(t, s0, a[..]);
  }

  lemma SizeNonneg(z: GoodStuffing)
    ensures z.Result().Size() >= 0
  {
    GridStep(z, 0);
    Mul2(0, 0, z.n0, z.Dim());
    Mul2(0, 0, z.n0 * z.Dim(), z.Dim());
    Mul2(0, 0, z.n0 * z.Dim() * z.Dim(), z.n3);
  }

  method ZeroRow(z: GoodStuffing, a: array<int>, b: int, r: int)
    requires a.Length == z.Result().Size() && 0 <= b < z.n0 && 0 <= r < z.Dim()
    modifies a
    ensures Wrote(z.Result().(cell := ZeroCell()), old(a[..]), a[..], Box(b, b + 1, r, r + 1, 0, z.Dim(), 0, z.n3))
  {
    ghost var t := z.Result().(cell := ZeroCell());
    var D := z.Dim();
    ghost var s0 := a[..];
    hide Stuffing.Ok, Target.Size, Stuffed, Ix4;
    for c := 0 to D
      invariant Wrote(t, s0, a[..], Box(b, b + 1, r, r + 1, 0, c, 0, z.n3))
    {
      ghost var s1 := a[..];
      for k := 0 to z.n3
        invariant Wrote(t, s1, a[..], Box(b, b + 1, r, r + 1, c, c + 1, 0, k))
      {
        ghost var s2 := a[..];
        WroteOne(t, s2, b, r, c, k);
        a[Ix4(D, D, z.n3, b, r, c, k)] := 0;
        WroteJoin(t, s1, s2, a[..], Box(b, b + 1, r, r + 1, c, c + 1, 0, k),
                  Box(b, b + 1, r, r + 1, c, c + 1, k, k + 1),
                  Box(b, b + 1, r, r + 1, c, c + 1, 0, k + 1));
      }
      WroteJoin(t, s0, s1, a[..], Box(b, b + 1, r, r + 1, 0, c, 0, z.n3), Box(b, b + 1, r, r + 1, c, c + 1, 0, z.n3),
                Box(b, b + 1, r, r + 1, 0, c + 1, 0, z.n3));
    }
  }

  // ---------- the copying loops: idx runs through the source ----------

  /** In batch b, everything from dilated row r0, column c0 on is still zero. */
  ghost predicate ZeroFrom(z: GoodStuffing, s: seq<int>, b: int, r0: int, c0: int) {
    forall r, c, k :: z.Result().In(b, r, c, k) && r >= r0 && c >= c0 ==> At(s, z.Result().Ix(b, r, c, k)) == 0
  }

  method CopyPixel(z: GoodStuffing, a: array<int>, b: int, irow: int, icol: int, start: int, ghost j: int, ghost i: int)
    returns (idx: int)
    requires a.Length == z.Result().Size() && 0 <= b < z.n0 && 0 <= j < z.n && 0 <= i < z.n
    requires irow == j * z.d && icol == i * z.d && start == Ix4(z.n, z.n, z.n3, b, j, i, 0)
    modifies a
    ensures Wrote(z.Result(), old(a[..]), a[..], Box(b, b + 1, irow, irow + 1, icol, icol + 1, 0, z.n3))
    ensures idx == start + z.n3
  {
    ghost var t := z.Result();
    var D := z.Dim();
    GridStep(z, j);
    GridStep(z, i);
    MulLe(0, j, z.d);
    MulLe(0, i, z.d);
    assert 0 <= irow < D && 0 <= icol < D;
    idx := start;
    ghost var s0 := a[..];
    for ich := 0 to z.n3
      invariant idx == start + ich
      invariant Wrote(t, s0, a[..], Box(b, b + 1, irow, irow + 1, icol, icol + 1, 0, ich))
    {
      ghost var s1 := a[..];
      Ix4Bound(z.n0, z.n, z.n, z.n3, b, j, i, ich);
      assert idx == Ix4(z.n, z.n, z.n3, b, j, i, ich);
      OnGridCell(z, b, j, i, ich);
      assert t.In(b, irow, icol, ich);
      hide Stuffing.Ok, Target.Size, Stuffed, Ix4;
      WroteOne(t, s1, b, irow, icol, ich);
      a[Ix4(D, D, z.n3, b, irow, icol, ich)] := z.src[idx];
      idx := idx + 1;
      WroteJoin(t, s0, s1, a[..], Box(b, b + 1, irow, irow + 1, icol, icol + 1, 0, ich),
                Box(b, b + 1, irow, irow + 1, icol, icol + 1, ich, ich + 1),
                Box(b, b + 1, irow, irow + 1, icol, icol + 1, 0, ich + 1));
    }
  }

  /** Passing over zeros is as good as writing them. */
  lemma SkipZeros(z: GoodStuffing, s: seq<int>, b: int, r0: int, c0: int, box: Box)
    requires z.Result().Size() <= |s| && ZeroFrom(z, s, b, r0, c0)
    requires box.a0 == b && box.a1 == b + 1 && box.b0 >= r0 && box.c0 >= c0
    requires forall r, c :: box.b0 <= r < box.b1 && box.c0 <= c < box.c1 ==> r % z.d != 0 || c % z.d != 0
    ensures Wrote(z.Result(), s, s, box)
  {}

  lemma StillZero(z: GoodStuffing, x: seq<int>, y: seq<int>, box: Box, b: int, r0: int, c0: int, r1: int, c1: int)
    requires Wrote(z.Result(), x, y, box) && ZeroFrom(z, x, b, r0, c0) && r0 <= r1 && c0 <= c1
    requires box.a1 <= b || box.a0 > b || box.b1 <= r1 || box.c1 <= c1
    ensures ZeroFrom(z, y, b, r1, c1)
  {}

  /** The columns of one grid row. */
  method CopyRow(z: GoodStuffing, a: array<int>, b: int, irow: int, start: int, ghost j: int) returns (idx: int)
    requires a.Length == z.Result().Size() && 0 <= b < z.n0 && 0 <= j < z.n && irow == j * z.d
    requires start == Ix4(z.n, z.n, z.n3, b, j, 0, 0) && ZeroFrom(z, a[..], b, irow, 0)
    modifies a
    ensures Wrote(z.Result(), old(a[..]), a[..], Box(b, b + 1, irow, irow + z.d, 0, z.Dim(), 0, z.n3))
    ensures idx == Ix4(z.n, z.n, z.n3, b, j + 1, 0, 0)
  {
    ghost var t := z.Result();
    var D := z.Dim();
    ghost var s0 := a[..];
    idx := start;
    var icol := 0;
    ghost var i := 0;
    while icol < D
      invariant 0 <= i <= z.n && icol == i * z.d
      invariant idx == Ix4(z.n, z.n, z.n3, b, j, i, 0)
      invariant Wrote(t, s0, a[..], Box(b, b + 1, irow, irow + 1, 0, icol, 0, z.n3))
      invariant ZeroFrom(z, a[..], b, irow, icol)
    {
      ghost var s1 := a[..];
      GridStep(z, i);
      idx := CopyPixel(z, a, b, irow, icol, idx, j, i);
      ColumnDone(z, s0, s1, a[..], b, j, i);
      icol := icol + z.d;
      i := i + 1;
    }
    GridStep(z, i);
    RowDone(z, s0, a[..], b, j, icol);
  }

  lemma ColumnDone(z: GoodStuffing, s0: seq<int>, s1: seq<int>, s2: seq<int>, b: int, j: int, i: int)
    requires z.Result().Size() <= |s0| && i >= 0
    requires Wrote(z.Result(), s0, s1, Box(b, b + 1, j * z.d, j * z.d + 1, 0, i * z.d, 0, z.n3))
    requires ZeroFrom(z, s1, b, j * z.d, i * z.d)
    requires Wrote(z.Result(), s1, s2, Box(b, b + 1, j * z.d, j * z.d + 1, i * z.d, i * z.d + 1, 0, z.n3))
    ensures Wrote(z.Result(), s0, s2, Box(b, b + 1, j * z.d, j * z.d + 1, 0, i * z.d + z.d, 0, z.n3))
    ensures ZeroFrom(z, s2, b, j * z.d, i * z.d + z.d)
  {
    var t, row, col := z.Result(), j * z.d, i * z.d;
    MulLe(0, i, z.d);
    StillZero(z, s1, s2, Box(b, b + 1, row, row + 1, col, col + 1, 0, z.n3), b, row, col, row, col + 1);
    forall c | col + 1 <= c < col + z.d ensures c % z.d != 0 { BetweenGrid(z.d, i, c); }
    hide Stuffing.Ok, Target.Size, Stuffed, Target.Ix, Wrote, ZeroFrom;
    SkipZeros(z, s2, b, row, col + 1, Box(b, b + 1, row, row + 1, col + 1, col + z.d, 0, z.n3));
    WroteJoin(t, s0, s1, s2, Box(b, b + 1, row, row + 1, 0, col, 0, z.n3),
              Box(b, b + 1, row, row + 1, col, col + 1, 0, z.n3), Box(b, b + 1, row, row + 1, 0, col + 1, 0, z.n3));
    WroteJoin(t, s0, s2, s2, Box(b, b + 1, row, row + 1, 0, col + 1, 0, z.n3),
              Box(b, b + 1, row, row + 1, col + 1, col + z.d, 0, z.n3),
              Box(b, b + 1, row, row + 1, 0, col + z.d, 0, z.n3));
    StillZero(z, s2, s2, Box(b, b + 1, row, row + 1, col + 1, col + z.d, 0, z.n3), b, row, col + 1, row, col + z.d);
  }

  lemma RowDone(z: GoodStuffing, s0: seq<int>, s1: seq<int>, b: int, j: int, icol: int)
    requires z.Result().Size() <= |s0| && icol >= z.Dim() && ZeroFrom(z, s0, b, j * z.d, 0)
    requires Wrote(z.Result(), s0, s1, Box(b, b + 1, j * z.d, j * z.d + 1, 0, icol, 0, z.n3))
    ensures Wrote(z.Result(), s0, s1, Box(b, b + 1, j * z.d, j * z.d + z.d, 0, z.Dim(), 0, z.n3))
  {
    var t, row, D := z.Result(), j * z.d, z.Dim();
    forall r | row + 1 <= r < row + z.d ensures r % z.d != 0 { BetweenGrid(z.d, j, r); }
    StillZero(z, s0, s1, Box(b, b + 1, row, row + 1, 0, icol, 0, z.n3), b, row, 0, row + 1, 0);
    hide Stuffing.Ok, Target.Size, Stuffed, Target.Ix, Wrote, ZeroFrom;
    SkipZeros(z, s1, b, row + 1, 0, Box(b, b + 1, row + 1, row + z.d, 0, D, 0, z.n3));
    WroteJoin(t, s0, s1, s1, Box(b, b + 1, row, row + 1, 0, icol, 0, z.n3),
              Box(b, b + 1, row + 1, row + z.d, 0, D, 0, z.n3), Box(b, b + 1, row, row + z.d, 0, D, 0, z.n3));
  }

  /** The zero-stuffed array: zeroing, then copying with a linear source index. */
  method Dilate(z: GoodStuffing) returns (a: array<int>)
    ensures fresh(a) && a.Length == z.Result().Size() && Holds(z.Result(), a[..])
  {
    ghost var t := z.Result();
    var D := z.Dim();
    a := ZeroFill(z);
    ghost var s0 := a[..];
    AllZero(z, s0);
    var idx := 0;
    assert Ix4(z.n, z.n, z.n3, 0, 0, 0, 0) == 0;
    for b := 0 to z.n0
      invariant idx == Ix4(z.n, z.n, z.n3, b, 0, 0, 0)
      invariant Wrote(t, s0, a[..], Box(0, b, 0, D, 0, D, 0, z.n3))
      invariant forall b' :: b <= b' ==> ZeroFrom(z, a[..], b', 0, 0)
    {
      ghost var s1 := a[..];
      idx := CopyPlane(z, a, b, idx);
      PlaneDone(z, s0, s1, a[..], b);
    }
    FilledHolds(t, s0, a[..]);
  }

  lemma AllZero(z: GoodStuffing, s: seq<int>)
    requires Holds(z.Result().(cell := ZeroCell()), s)
    ensures forall b :: ZeroFrom(z, s, b, 0, 0)
  {
    var t, u := z.Result().(cell := ZeroCell()), z.Result();
    forall b, r, c, k | u.In(b, r, c, k) ensures At(s, u.Ix(b, r, c, k)) == 0 {
      assert t.In(b, r, c, k);
      assert t.Ix(b, r, c, k) == u.Ix(b, r, c, k);
      hide Target.Ix;
    }
  }

  method CopyPlane(z: GoodStuffing, a: array<int>, b: int, start: int) returns (idx: int)
    requires a.Length == z.Result().Size() && 0 <= b < z.n0
    requires start == Ix4(z.n, z.n, z.n3, b, 0, 0, 0) && ZeroFrom(z, a[..], b, 0, 0)
    modifies a
    ensures Wrote(z.Result(), old(a[..]), a[..], Box(b, b + 1, 0, z.Dim(), 0, z.Dim(), 0, z.n3))
    ensures idx == Ix4(z.n, z.n, z.n3, b + 1, 0, 0, 0)
  {
    ghost var t := z.Result();
    var D := z.Dim();
    ghost var s0 := a[..];
    idx := start;
    var irow := 0;
    ghost var j := 0;
    while irow < D
      invariant 0 <= j <= z.n && irow == j * z.d
      invariant idx == Ix4(z.n, z.n, z.n3, b, j, 0, 0)
      invariant Wrote(t, s0, a[..], Box(b, b + 1, 0, irow, 0, D, 0, z.n3))
      invariant ZeroFrom(z, a[..], b, irow, 0)
    {
      ghost var s1 := a[..];
      GridStep(z, j);
      MulLe(0, j, z.d);
      idx := CopyRow(z, a, b, irow, idx, j);
      WroteJoin(t, s0, s1, a[..], Box(b, b + 1, 0, irow, 0, D, 0, z.n3),
                Box(b, b + 1, irow, irow + z.d, 0, D, 0, z.n3), Box(b, b + 1, 0, irow + z.d, 0, D, 0, z.n3));
      StillZero(z, s1, a[..], Box(b, b + 1, irow, irow + z.d, 0, D, 0, z.n3), b, irow, 0, irow + z.d, 0);
      irow := irow + z.d;
      j := j + 1;
    }
    GridStep(z, j);
    WroteNothing(t, a[..], Box(0, 0, 0, 0, 0, 0, 0, 0));
    WroteJoin(t, s0, a[..], a[..], Box(b, b + 1, 0, irow, 0, D, 0, z.n3), Box(0, 0, 0, 0, 0, 0, 0, 0),
              Box(b, b + 1, 0, D, 0, D, 0, z.n3));
  }

  lemma PlaneDone(z: GoodStuffing, s0: seq<int>, s1: seq<int>, s2: seq<int>, b: int)
    requires Wrote(z.Result(), s0, s1, Box(0, b, 0, z.Dim(), 0, z.Dim(), 0, z.n3)) && b >= 0
    requires Wrote(z.Result(), s1, s2, Box(b, b + 1, 0, z.Dim(), 0, z.Dim(), 0, z.n3))
    requires forall b' :: b <= b' ==> ZeroFrom(z, s1, b', 0, 0)
    ensures Wrote(z.Result(), s0, s2, Box(0, b + 1, 0, z.Dim(), 0, z.Dim(), 0, z.n3))
    ensures forall b' :: b + 1 <= b' ==> ZeroFrom(z, s2, b', 0, 0)
  {
    var D := z.Dim();
    forall b' | b + 1 <= b' ensures ZeroFrom(z, s2, b', 0, 0) {
      StillZero(z, s1, s2, Box(b, b + 1, 0, D, 0, D, 0, z.n3), b', 0, 0, 0, 0);
    }
    hide Stuffing.Ok, Target.Size, Stuffed, Target.Ix, Wrote, ZeroFrom;
    WroteJoin(z.Result(), s0, s1, s2, Box(0, b, 0, D, 0, D, 0, z.n3), Box(b, b + 1, 0, D, 0, D, 0, z.n3),
              Box(0, b + 1, 0, D, 0, D, 0, z.n3));
  }
}
