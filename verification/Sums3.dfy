/** Triple sums: over kernel rows, kernel columns and input channels. */
module Sums3 {
  import opened Arith
  import opened Sums

  type Fn3 = (int, int, int) -> int

  function Leaf(f: Fn3, r: int, c: int): int -> int { k => f(r, c, k) }
  function Col(f: Fn3, k0: int, k1: int, r: int): int -> int { c => Sum(k0, k1, Leaf(f, r, c)) }
  function Row(f: Fn3, c0: int, c1: int, k0: int, k1: int): int -> int { r => Sum(c0, c1, Col(f, k0, k1, r)) }

  /** The sum of f over r0 <= r < r1, c0 <= c < c1 and k0 <= k < k1. */
  function Sum3(f: Fn3, r0: int, r1: int, c0: int, c1: int, k0: int, k1: int): int {
    Sum(r0, r1, Row(f, c0, c1, k0, k1))
  }

  lemma Sum3Shift(f: Fn3, g: Fn3, r0: int, r1: int, c0: int, c1: int, k0: int, k1: int, dr: int, dc: int, dk: int)
    requires forall r, c, k :: r0 <= r < r1 && c0 <= c < c1 && k0 <= k < k1 ==> f(r, c, k) == g(r + dr, c + dc, k + dk)
    ensures Sum3(f, r0, r1, c0, c1, k0, k1) == Sum3(g, r0 + dr, r1 + dr, c0 + dc, c1 + dc, k0 + dk, k1 + dk)
  {
    hide Sum;
    forall r | r0 <= r < r1 ensures Row(f, c0, c1, k0, k1)(r) == Row(g, c0 + dc, c1 + dc, k0 + dk, k1 + dk)(r + dr) {
      forall c | c0 <= c < c1 ensures Col(f, k0, k1, r)(c) == Col(g, k0 + dk, k1 + dk, r + dr)(c + dc) {
        SumShift(k0, k1, dk, Leaf(f, r, c), Leaf(g, r + dr, c + dc));
      }
      SumShift(c0, c1, dc, Col(f, k0, k1, r), Col(g, k0 + dk, k1 + dk, r + dr));
    }
    SumShift(r0, r1, dr, Row(f, c0, c1, k0, k1), Row(g, c0 + dc, c1 + dc, k0 + dk, k1 + dk));
  }

  lemma SplitRows(f: Fn3, r0: int, r: int, r1: int, c0: int, c1: int, k0: int, k1: int)
    requires r0 <= r <= r1
    ensures Sum3(f, r0, r1, c0, c1, k0, k1) == Sum3(f, r0, r, c0, c1, k0, k1) + Sum3(f, r, r1, c0, c1, k0, k1)
  {
    SumSplit(r0, r, r1, Row(f, c0, c1, k0, k1));
  }

  lemma SplitCols(f: Fn3, r0: int, r1: int, c0: int, c: int, c1: int, k0: int, k1: int)
    requires c0 <= c <= c1
    ensures Sum3(f, r0, r1, c0, c1, k0, k1) == Sum3(f, r0, r1, c0, c, k0, k1) + Sum3(f, r0, r1, c, c1, k0, k1)
  {
    hide Sum;
    forall r | r0 <= r < r1
      ensures Row(f, c0, c1, k0, k1)(r) == Row(f, c0, c, k0, k1)(r) + Row(f, c, c1, k0, k1)(r)
    {
      SumSplit(c0, c, c1, Col(f, k0, k1, r));
    }
    SumAdd(r0, r1, Row(f, c0, c1, k0, k1), Row(f, c0, c, k0, k1), Row(f, c, c1, k0, k1));
  }

  lemma SplitChannels(f: Fn3, r0: int, r1: int, c0: int, c1: int, k0: int, k: int, k1: int)
    requires k0 <= k <= k1
    ensures Sum3(f, r0, r1, c0, c1, k0, k1) == Sum3(f, r0, r1, c0, c1, k0, k) + Sum3(f, r0, r1, c0, c1, k, k1)
  {
    hide Sum;
    forall r | r0 <= r < r1
      ensures Row(f, c0, c1, k0, k1)(r) == Row(f, c0, c1, k0, k)(r) + Row(f, c0, c1, k, k1)(r)
    {
      forall c | c0 <= c < c1 ensures Col(f, k0, k1, r)(c) == Col(f, k0, k, r)(c) + Col(f, k, k1, r)(c) {
        SumSplit(k0, k, k1, Leaf(f, r, c));
      }
      SumAdd(c0, c1, Col(f, k0, k1, r), Col(f, k0, k, r), Col(f, k, k1, r));
    }
    SumAdd(r0, r1, Row(f, c0, c1, k0, k1), Row(f, c0, c1, k0, k), Row(f, c0, c1, k, k1));
  }

  /** Length of n entries once d - 1 zeros are stuffed between neighbours. */
  function Stuffed(n: int, d: int): int { n + (d - 1) * (n - 1) }

  /** A sequence that is zero off the multiples of d sums to its multiples of d. */
  lemma {:induction false} SumSparse(n: int, d: int, f: int -> int, g: int -> int)
    requires n >= 1 && d >= 1
    requires forall i :: 0 <= i < n ==> g(i) == f(i * d)
    requires forall x :: 0 <= x < Stuffed(n, d) && x % d != 0 ==> f(x) == 0
    ensures Sum(0, Stuffed(n, d), f) == Sum(0, n, g)
    decreases n
  {
    assert Stuffed(n, d) == (n - 1) * d + 1;
    if n == 1 {
      assert f(0) == g(0) by { assert 0 * d == 0; }
      assert Sum(0, 1, f) == Sum(0, 0, f) + f(0);
      assert Sum(0, 1, g) == Sum(0, 0, g) + g(0);
    } else {
      assert Stuffed(n - 1, d) == Stuffed(n, d) - d;
      SumSparse(n - 1, d, f, g);
      StuffedTail(n, d, f);
      assert g(n - 1) == f((n - 1) * d);
    }
  }

  lemma StuffedTail(n: int, d: int, f: int -> int)
    requires n >= 2 && d >= 1
    requires forall x :: 0 <= x < Stuffed(n, d) && x % d != 0 ==> f(x) == 0
    ensures Sum(0, Stuffed(n, d), f) == Sum(0, Stuffed(n - 1, d), f) + f((n - 1) * d)
  {
    var lo, hi := Stuffed(n - 1, d), (n - 1) * d;
    MulLe(0, n - 2, d);
    assert lo == (n - 2) * d + 1 && hi == lo + d - 1 && Stuffed(n, d) == hi + 1;
    forall x | lo <= x < hi ensures f(x) == 0 {
      DivUnique(x, d, n - 2);
    }
    SumZero(lo, hi, f);
    SumSplit(0, lo, hi, f);
  }

  function BlockSum(f: int -> int, m: int): int -> int { q => Sum(q * m, q * m + m, f) }

  lemma {:induction false} SumBlocks(n: int, m: int, f: int -> int)
    requires n >= 0 && m >= 0
    ensures Sum(0, n * m, f) == Sum(0, n, BlockSum(f, m))
    decreases n
  {
    if n == 0 {
      assert n * m == 0;
    } else {
      SumBlocks(n - 1, m, f);
      MulLe(0, n - 1, m);
      assert n * m == (n - 1) * m + m;
      SumSplit(0, (n - 1) * m, n * m, f);
    }
  }

  lemma BlockShift(f: int -> int, m: int, q: int, g: int -> int)
    requires forall r :: 0 <= r < m ==> g(r) == f(q * m + r)
    ensures BlockSum(f, m)(q) == Sum(0, m, g)
  {
    SumShift(0, m, q * m, g, f);
  }

  lemma FlatRow(m: int, l: int, f: int -> int, g: Fn3, r: int)
    requires forall c, k :: 0 <= c < m && 0 <= k < l ==> g(r, c, k) == f((r * m + c) * l + k)
    ensures BlockSum(BlockSum(f, l), m)(r) == Row(g, 0, m, 0, l)(r)
  {
    forall c | 0 <= c < m ensures Col(g, 0, l, r)(c) == BlockSum(f, l)(r * m + c) {
      BlockShift(f, l, r * m + c, Leaf(g, r, c));
    }
    hide BlockSum;
    BlockShift(BlockSum(f, l), m, r, Col(g, 0, l, r));
  }

  /** A triple sum taken in row-major order. */
  lemma SumFlatten(n: int, m: int, l: int, f: int -> int, g: Fn3)
    requires n >= 0 && m >= 0 && l >= 0
    requires forall r, c, k :: 0 <= r < n && 0 <= c < m && 0 <= k < l ==> g(r, c, k) == f((r * m + c) * l + k)
    ensures Sum(0, n * m * l, f) == Sum3(g, 0, n, 0, m, 0, l)
  {
    Mul2(0, 0, n, m);
    SumBlocks(n * m, l, f);
    SumBlocks(n, m, BlockSum(f, l));
    hide Sum, BlockSum;
    forall r | 0 <= r < n ensures BlockSum(BlockSum(f, l), m)(r) == Row(g, 0, m, 0, l)(r) {
      FlatRow(m, l, f, g, r);
    }
    SumEq(0, n, BlockSum(BlockSum(f, l), m), Row(g, 0, m, 0, l));
  }
}
