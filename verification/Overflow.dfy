/** Accumulation in 32-bit two's complement: what wraps, what does not, under every tiling. */
module Overflow {
  import opened Accelerator
  import opened Arith
  import opened MatmulSpec
  import opened Sums

  const TWO32: int := 0x1_0000_0000

  /** An integer as an acc_t. */
  function Wrap(x: int): (w: int)
    ensures -0x8000_0000 <= w < 0x8000_0000
    ensures -0x8000_0000 <= x < 0x8000_0000 ==> w == x
  {
    (x + 0x8000_0000) % TWO32 - 0x8000_0000
  }

  /** A running sum kept in an acc_t. */
  function WrapSum(init: int, lo: int, hi: int, f: int -> int): int
    decreases hi - lo
  {
    if hi <= lo then Wrap(init) else Wrap(WrapSum(init, lo, hi - 1, f) + f(hi - 1))
  }

  /** The accumulator after the tiles ending at cuts[0], cuts[1], ... are summed separately,
      each in its own acc_t, and added to it in turn. */
  function TiledWrapSum(init: int, cuts: seq<int>, f: int -> int): int {
    if |cuts| <= 1 then Wrap(init)
    else
      var n := |cuts|;
      Wrap(TiledWrapSum(init, cuts[..n - 1], f) + WrapSum(0, cuts[n - 2], cuts[n - 1], f))
  }

  ghost predicate Increasing(cuts: seq<int>) {
    |cuts| >= 1 && forall i, j :: 0 <= i <= j < |cuts| ==> cuts[i] <= cuts[j]
  }

  lemma WrapWrap(x: int, y: int)
    ensures Wrap(Wrap(x) + y) == Wrap(x + y)
  {}

  lemma {:induction false} WrapSumIsWrapped(init: int, lo: int, hi: int, f: int -> int)
    ensures WrapSum(init, lo, hi, f) == Wrap(init + Sum(lo, hi, f))
    decreases hi - lo
  {
    if lo < hi {
      WrapSumIsWrapped(init, lo, hi - 1, f);
      WrapWrap(init + Sum(lo, hi - 1, f), f(hi - 1));
    }
  }

  /** However the sum is tiled, the wrapped result is the exact sum, wrapped once. */
  lemma {:induction false} TiledWrapSumIsWrapped(init: int, cuts: seq<int>, f: int -> int)
    requires Increasing(cuts)
    ensures TiledWrapSum(init, cuts, f) == Wrap(init + Sum(cuts[0], cuts[|cuts| - 1], f))
  {
    var n := |cuts|;
    if n > 1 {
      var before := cuts[..n - 1];
      TiledWrapSumIsWrapped(init, before, f);
      WrapSumIsWrapped(0, cuts[n - 2], cuts[n - 1], f);
      var a, b := init + Sum(cuts[0], cuts[n - 2], f), Sum(cuts[n - 2], cuts[n - 1], f);
      WrapWrap(a, Wrap(b));
      WrapWrap(b, a);
      SumSplit(cuts[0], cuts[n - 2], cuts[n - 1], f);
    }
  }

  /** int8 operands, at most 65536 of them, and a bias below 2^30 in magnitude. */
  ghost predicate Narrow(d: Dram, p: Args) {
    && p.dimK <= 65536
    && (forall x :: -128 <= p.scaleA(x) <= 127)
    && (forall x :: -128 <= p.scaleB(x) <= 127)
    && (forall i, j :: 0 <= i < p.dimI && 0 <= j < p.dimJ ==> -0x4000_0000 < Bias(d, p, i, j) < 0x4000_0000)
  }

  lemma TermBound(d: Dram, p: Args, i: int, j: int, k: int)
    requires Narrow(d, p)
    ensures -16384 <= Term(d, p, i, j)(k) <= 16384
  {
    ProductBound(p.scaleA(Get(d, AAddr(p, i, k))), p.scaleB(Get(d, BAddr(p, k, j))));
  }

  lemma ProductBound(x: int, y: int)
    requires -128 <= x <= 128 && -128 <= y <= 128
    ensures -16384 <= x * y <= 16384
  {
    if y >= 0 {
      MulLe(x, 128, y);
      MulLe(-128, x, y);
    } else {
      MulLe(x, 128, -y);
      MulLe(-128, x, -y);
    }
  }

  /** No slice of the products, and no partial sum on top of the bias, leaves acc_t. */
  lemma NoOverflow(d: Dram, p: Args, i: int, j: int, lo: int, hi: int)
    requires Narrow(d, p) && 0 <= lo <= hi <= p.dimK
    requires 0 <= i < p.dimI && 0 <= j < p.dimJ
    ensures -0x4000_0000 <= Sum(lo, hi, Term(d, p, i, j)) <= 0x4000_0000
    ensures -0x8000_0000 < Partial(d, p, i, j, hi) < 0x8000_0000
  {
    forall k | 0 <= k < hi ensures -16384 <= Term(d, p, i, j)(k) <= 16384 {
      TermBound(d, p, i, j, k);
    }
    SumBound(lo, hi, Term(d, p, i, j), 16384);
    SumBound(0, hi, Term(d, p, i, j), 16384);
  }

  /** Every tiling of the shared dimension, accumulated in acc_t, gives the exact product. */
  lemma TiledAccumulationExact(d: Dram, p: Args, i: int, j: int, cuts: seq<int>)
    requires 0 <= i < p.dimI && 0 <= j < p.dimJ
    requires Narrow(d, p) && Increasing(cuts) && cuts[0] == 0 && cuts[|cuts| - 1] == p.dimK
    ensures TiledWrapSum(Bias(d, p, i, j), cuts, Term(d, p, i, j)) == Partial(d, p, i, j, p.dimK)
  {
    TiledWrapSumIsWrapped(Bias(d, p, i, j), cuts, Term(d, p, i, j));
    NoOverflow(d, p, i, j, 0, p.dimK);
  }
}
