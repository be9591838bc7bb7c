/** Finite sums over integer ranges, the common vocabulary of every kernel in the project. */
module Sums {
  function Sum(lo: int, hi: int, f: int -> int): int
    decreases hi - lo
  {
    if hi <= lo then 0 else Sum(lo, hi - 1, f) + f(hi - 1)
  }

  lemma {:induction false} SumEq(lo: int, hi: int, f: int -> int, g: int -> int)
    requires forall k :: lo <= k < hi ==> f(k) == g(k)
    ensures Sum(lo, hi, f) == Sum(lo, hi, g)
    decreases hi - lo
  {
    if lo < hi {
      SumEq(lo, hi - 1, f, g);
    }
  }

  lemma {:induction false} SumSplit(lo: int, mid: int, hi: int, f: int -> int)
    requires lo <= mid <= hi
    ensures Sum(lo, hi, f) == Sum(lo, mid, f) + Sum(mid, hi, f)
    decreases hi - mid
  {
    if mid < hi {
      SumSplit(lo, mid, hi - 1, f);
    }
  }

  lemma {:induction false} SumShift(lo: int, hi: int, d: int, f: int -> int, g: int -> int)
    requires forall k :: lo <= k < hi ==> f(k) == g(k + d)
    ensures Sum(lo, hi, f) == Sum(lo + d, hi + d, g)
    decreases hi - lo
  {
    if lo < hi {
      SumShift(lo, hi - 1, d, f, g);
    }
  }

  lemma {:induction false} SumZero(lo: int, hi: int, f: int -> int)
    requires forall k :: lo <= k < hi ==> f(k) == 0
    ensures Sum(lo, hi, f) == 0
    decreases hi - lo
  {
    if lo < hi {
      SumZero(lo, hi - 1, f);
    }
  }

  lemma {:induction false} SumAdd(lo: int, hi: int, f: int -> int, g: int -> int, h: int -> int)
    requires forall k :: lo <= k < hi ==> f(k) == g(k) + h(k)
    ensures Sum(lo, hi, f) == Sum(lo, hi, g) + Sum(lo, hi, h)
    decreases hi - lo
  {
    if lo < hi {
      SumAdd(lo, hi - 1, f, g, h);
    }
  }

  lemma {:induction false} SumBound(lo: int, hi: int, f: int -> int, b: int)
    requires b >= 0
    requires forall k :: lo <= k < hi ==> -b <= f(k) <= b
    ensures lo <= hi ==> -((hi - lo) * b) <= Sum(lo, hi, f) <= (hi - lo) * b
    decreases hi - lo
  {
    if lo < hi {
      SumBound(lo, hi - 1, f, b);
      assert (hi - lo) * b == (hi - 1 - lo) * b + b;
    }
  }
}
