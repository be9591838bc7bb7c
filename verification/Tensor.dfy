/** Four-dimensional arrays flattened in row-major order, and what it means for a loop nest to
    have filled part of one. */
module Tensor {
  import opened Arith

  function At(s: seq<int>, i: int): int { if 0 <= i < |s| then s[i] else 0 }

  function Put(s: seq<int>, i: int, x: int): (s': seq<int>)
    ensures |s'| == |s|
  {
    if 0 <= i < |s| then s[i := x] else s
  }

  /** Row-major index of [a][b][c][d], the last three dimensions being n1, n2 and n3. */
  function Ix4(n1: int, n2: int, n3: int, a: int, b: int, c: int, d: int): int {
    ((a * n1 + b) * n2 + c) * n3 + d
  }

  lemma Ix4Flat(n1: int, n2: int, n3: int, a: int, b: int, c: int, d: int)
    ensures Ix4(n1, n2, n3, a, b, c, d) == (a * n1 * n2 + b * n2 + c) * n3 + d
  {}

  /** Appending a digit keeps a number within bounds. */
  lemma DigitBound(q: int, nq: int, r: int, n: int)
    requires 0 <= q < nq && 0 <= r < n
    ensures 0 <= q * n + r < nq * n
  {
    MulLe(0, q, n);
    MulLe(q + 1, nq, n);
    assert (q + 1) * n == q * n + n;
  }

  lemma Ix4Bound(n0: int, n1: int, n2: int, n3: int, a: int, b: int, c: int, d: int)
    requires 0 <= a < n0 && 0 <= b < n1 && 0 <= c < n2 && 0 <= d < n3
    ensures 0 <= Ix4(n1, n2, n3, a, b, c, d) < n0 * n1 * n2 * n3
  {
    DigitBound(a, n0, b, n1);
    DigitBound(a * n1 + b, n0 * n1, c, n2);
    DigitBound((a * n1 + b) * n2 + c, n0 * n1 * n2, d, n3);
  }

  lemma Ix4Injective(n1: int, n2: int, n3: int, a: int, b: int, c: int, d: int, a': int, b': int, c': int, d': int)
    requires 0 <= b < n1 && 0 <= c < n2 && 0 <= d < n3 && 0 <= b' < n1 && 0 <= c' < n2 && 0 <= d' < n3
    requires Ix4(n1, n2, n3, a, b, c, d) == Ix4(n1, n2, n3, a', b', c', d')
    ensures a == a' && b == b' && c == c' && d == d'
  {
    MixedRadix((a * n1 + b) * n2 + c, d, (a' * n1 + b') * n2 + c', d', n3);
    MixedRadix(a * n1 + b, c, a' * n1 + b', c', n2);
    MixedRadix(a, b, a', b', n1);
  }

  lemma Digit(x: int, nq: int, n: int) returns (q: int, r: int)
    requires nq >= 0 && n >= 0 && 0 <= x < nq * n
    ensures 0 <= q < nq && 0 <= r < n && x == q * n + r
  {
    MulLe(0, nq, n);
    assert n != 0;
    q, r := x / n, x % n;
    assert x == q * n + r;
    MulLtCancel(q, nq, n);
    MulLtCancel(-1, q, n);
  }

  /** Every index below the product of the dimensions is the index of an element. */
  lemma Ix4Onto(n0: int, n1: int, n2: int, n3: int, i: int) returns (a: int, b: int, c: int, d: int)
    requires n0 >= 0 && n1 >= 0 && n2 >= 0 && n3 >= 0 && 0 <= i < n0 * n1 * n2 * n3
    ensures 0 <= a < n0 && 0 <= b < n1 && 0 <= c < n2 && 0 <= d < n3
    ensures i == Ix4(n1, n2, n3, a, b, c, d)
  {
    Mul2(0, 0, n0, n1);
    Mul2(0, 0, n0 * n1, n2);
    var q, r;
    q, d := Digit(i, n0 * n1 * n2, n3);
    r, c := Digit(q, n0 * n1, n2);
    a, b := Digit(r, n0, n1);
  }

  /** The digits of an index, by division. */
  lemma Ix4Digits(n1: int, n2: int, n3: int, a: int, b: int, c: int, d: int)
    requires 0 <= b < n1 && 0 <= c < n2 && 0 <= d < n3
    ensures var i := Ix4(n1, n2, n3, a, b, c, d);
      i % n3 == d && i / n3 % n2 == c && i / n3 / n2 % n1 == b && i / n3 / n2 / n1 == a
  {
    DivUnique(((a * n1 + b) * n2 + c) * n3 + d, n3, (a * n1 + b) * n2 + c);
    DivUnique((a * n1 + b) * n2 + c, n2, a * n1 + b);
    DivUnique(a * n1 + b, n1, a);
  }

  lemma QuotientBound(x: int, d: int, m: int)
    requires d > 0 && x / d < m
    ensures x < m * d
  {
    DivMul(x, d);
    MulLe(x / d + 1, m, d);
  }

  /** Ix4 is linear: the offset of a relative position adds to that of the origin. */
  lemma Ix4Linear(n1: int, n2: int, n3: int, a: int, b: int, c: int, d: int, a': int, b': int, c': int, d': int)
    ensures Ix4(n1, n2, n3, a + a', b + b', c + c', d + d')
              == Ix4(n1, n2, n3, a, b, c, d) + Ix4(n1, n2, n3, a', b', c', d')
  {}

  // ---------- filling an array ----------

  /** An output array of n0 x n1 x n2 x n3 elements, [a][b][c][d] or, transposed, [b][c][a][d],
      and the value each element is to receive. */
  datatype Target = Target(n0: int, n1: int, n2: int, n3: int, transposed: bool, cell: (int, int, int, int) -> int)
  {
    predicate In(a: int, b: int, c: int, d: int) { 0 <= a < n0 && 0 <= b < n1 && 0 <= c < n2 && 0 <= d < n3 }

    function Ix(a: int, b: int, c: int, d: int): int {
      if transposed then Ix4(n2, n0, n3, b, c, a, d) else Ix4(n1, n2, n3, a, b, c, d)
    }

    function Size(): int { n0 * n1 * n2 * n3 }

    function Whole(): Box { Box(0, n0, 0, n1, 0, n2, 0, n3) }

    lemma IxBound(a: int, b: int, c: int, d: int)
      requires In(a, b, c, d)
      ensures 0 <= Ix(a, b, c, d) < Size()
    {
      if transposed {
        Ix4Bound(n1, n2, n0, n3, b, c, a, d);
        assert n1 * n2 * n0 == n0 * n1 * n2;
      } else {
        Ix4Bound(n0, n1, n2, n3, a, b, c, d);
      }
    }

    lemma IxInjective(a: int, b: int, c: int, d: int, a': int, b': int, c': int, d': int)
      requires In(a, b, c, d) && In(a', b', c', d') && Ix(a, b, c, d) == Ix(a', b', c', d')
      ensures a == a' && b == b' && c == c' && d == d'
    {
      if transposed {
        Ix4Injective(n2, n0, n3, b, c, a, d, b', c', a', d');
      } else {
        Ix4Injective(n1, n2, n3, a, b, c, d, a', b', c', d');
      }
    }

    lemma IxOnto(i: int) returns (a: int, b: int, c: int, d: int)
      requires n0 >= 0 && n1 >= 0 && n2 >= 0 && n3 >= 0 && 0 <= i < Size()
      ensures In(a, b, c, d) && i == Ix(a, b, c, d)
    {
      if transposed {
        assert n1 * n2 * n0 == n0 * n1 * n2;
        b, c, a, d := Ix4Onto(n1, n2, n0, n3, i);
      } else {
        a, b, c, d := Ix4Onto(n0, n1, n2, n3, i);
      }
    }
  }

  datatype Box = Box(a0: int, a1: int, b0: int, b1: int, c0: int, c1: int, d0: int, d1: int) {
    predicate Has(a: int, b: int, c: int, d: int) { a0 <= a < a1 && b0 <= b < b1 && c0 <= c < c1 && d0 <= d < d1 }
  }

  /** After a loop nest has written exactly the elements in the box. */
  ghost predicate Wrote(t: Target, x: seq<int>, y: seq<int>, box: Box) {
    && |y| == |x| && t.Size() <= |x|
    && (forall a, b, c, d :: t.In(a, b, c, d) ==>
          At(y, t.Ix(a, b, c, d)) == if box.Has(a, b, c, d) then t.cell(a, b, c, d) else At(x, t.Ix(a, b, c, d)))
    && (forall i :: t.Size() <= i < |x| ==> At(y, i) == At(x, i))
  }

  ghost predicate Filled(t: Target, x: seq<int>, y: seq<int>) { Wrote(t, x, y, t.Whole()) }

  /** Nothing to write: the box has no element of the array, or all of them hold their value. */
  lemma WroteNothing(t: Target, x: seq<int>, box: Box)
    requires t.Size() <= |x|
    requires forall a, b, c, d :: t.In(a, b, c, d) && box.Has(a, b, c, d) ==>
               At(x, t.Ix(a, b, c, d)) == t.cell(a, b, c, d)
    ensures Wrote(t, x, x, box)
  {}

  lemma WroteOne(t: Target, x: seq<int>, a: int, b: int, c: int, d: int)
    requires t.Size() <= |x| && t.In(a, b, c, d)
    ensures 0 <= t.Ix(a, b, c, d) < |x|
    ensures Wrote(t, x, x[t.Ix(a, b, c, d) := t.cell(a, b, c, d)], Box(a, a + 1, b, b + 1, c, c + 1, d, d + 1))
  {
    t.IxBound(a, b, c, d);
    hide Target.Ix, Target.Size;
    var y := x[t.Ix(a, b, c, d) := t.cell(a, b, c, d)];
    forall a', b', c', d' | t.In(a', b', c', d')
      ensures At(y, t.Ix(a', b', c', d')) ==
        if Box(a, a + 1, b, b + 1, c, c + 1, d, d + 1).Has(a', b', c', d') then t.cell(a', b', c', d')
        else At(x, t.Ix(a', b', c', d'))
    {
      t.IxBound(a', b', c', d');
      if t.Ix(a', b', c', d') == t.Ix(a, b, c, d) { t.IxInjective(a', b', c', d', a, b, c, d); }
    }
  }

  /** Two boxes written one after the other. */
  lemma WroteJoin(t: Target, x: seq<int>, y: seq<int>, z: seq<int>, p: Box, q: Box, whole: Box)
    requires Wrote(t, x, y, p) && Wrote(t, y, z, q)
    requires forall a, b, c, d :: t.In(a, b, c, d) ==>
      (whole.Has(a, b, c, d) <==> p.Has(a, b, c, d) || q.Has(a, b, c, d))
    ensures Wrote(t, x, z, whole)
  {}

  /** Two programs that fill arrays with the same elements leave the same array. */
  lemma FilledSame(t: Target, u: Target, x: seq<int>, y: seq<int>, z: seq<int>)
    requires t.n0 >= 0 && t.n1 >= 0 && t.n2 >= 0 && t.n3 >= 0
    requires Filled(t, x, y) && Filled(u, x, z) && u == t.(cell := u.cell)
    requires forall a, b, c, d :: t.In(a, b, c, d) ==> t.cell(a, b, c, d) == u.cell(a, b, c, d)
    ensures y == z
  {
    forall i | 0 <= i < |x| ensures y[i] == z[i] {
      assert At(y, i) == y[i] && At(z, i) == z[i];
      if i < t.Size() {
        var a, b, c, d := t.IxOnto(i);
        SameIx(t, u, a, b, c, d);
      } else {
        SameSize(t, u);
      }
    }
  }

  lemma SameIx(t: Target, u: Target, a: int, b: int, c: int, d: int)
    requires u == t.(cell := u.cell)
    ensures u.Ix(a, b, c, d) == t.Ix(a, b, c, d) && (u.In(a, b, c, d) <==> t.In(a, b, c, d))
  {}

  lemma SameSize(t: Target, u: Target)
    requires u == t.(cell := u.cell)
    ensures u.Size() == t.Size()
  {}
}
