/** The two rounding macros of gemmini_params.h agree: round to nearest, ties to even. */
module Rounding {
  import opened Arith
  import opened Quantize

  /** r is x / m rounded to the nearest integer, a tie going to the even one. */
  ghost predicate IsNearestEven(x: int, m: int, r: int) {
    && -m <= 2 * (x - r * m) <= m
    && ((2 * (x - r * m) == m || 2 * (x - r * m) == -m) ==> r % 2 == 0)
  }

  lemma NearestEvenUnique(x: int, m: int, r: int, r': int)
    requires m > 0 && IsNearestEven(x, m, r) && IsNearestEven(x, m, r')
    ensures r == r'
  {
    if r < r' { NearestEvenOrdered(x, m, r, r'); }
    if r' < r { NearestEvenOrdered(x, m, r', r); }
  }

  lemma NearestEvenOrdered(x: int, m: int, r: int, r': int)
    requires m > 0 && IsNearestEven(x, m, r) && IsNearestEven(x, m, r')
    ensures r' <= r
  {
    assert (r' - r) * m <= m;
    MulLtCancel(r' - r - 1, 1, m);
    assert (r + 1) * m == r * m + m;
  }

  /** ROUNDING_RIGHT_SHIFT(x, shift) is x / 2^shift rounded to nearest, ties to even, for
      negative x too. */
  lemma ShiftRounds(x: int, shift: nat)
    requires shift > 0
    ensures IsNearestEven(x, Pow2(shift), RoundingRightShift(x, shift))
  {
    var half := Pow2(shift - 1);
    hide IsNearestEven;
    ShiftRoundsHalf(x, half, shift > 1);
  }

  lemma ShiftRoundsHalf(x: int, half: int, wide: bool)
    requires half > 0 && (!wide ==> half == 1)
    ensures var floor := x / (2 * half);
      var up := x / half % 2 == 1 && ((if wide then x % half else 0) != 0 || floor % 2 == 1);
      IsNearestEven(x, 2 * half, floor + (if up then 1 else 0))
  {
    var floor, rest := x / (2 * half), x % (2 * half);
    HalfDigits(x, half);
    Distribute(floor, 1, 2 * half);
    NearestBy(x, 2 * half, floor, rest);
    NearestBy(x, 2 * half, floor + 1, rest - 2 * half);
    hide IsNearestEven;
  }

  /** The half bit and what lies below it. */
  lemma HalfDigits(x: int, half: int)
    requires half > 0
    ensures var floor, rest := x / (2 * half), x % (2 * half);
      && x == floor * (2 * half) + rest && 0 <= rest < 2 * half
      && (if rest < half then x / half == 2 * floor && x % half == rest
          else x / half == 2 * floor + 1 && x % half == rest - half)
  {
    var floor, rest := x / (2 * half), x % (2 * half);
    assert x == floor * (2 * half) + rest;
    if rest < half {
      assert x == (2 * floor) * half + rest;
      DivUnique(x, half, 2 * floor);
    } else {
      assert x == (2 * floor + 1) * half + (rest - half);
      DivUnique(x, half, 2 * floor + 1);
    }
  }

  /** r misses x / m by e / m. */
  lemma NearestBy(x: int, m: int, r: int, e: int)
    requires x - r * m == e
    ensures IsNearestEven(x, m, r) <==> -m <= 2 * e <= m && (2 * e == m || 2 * e == -m ==> r % 2 == 0)
  {}

  // ---------- ROUND_NEAR_EVEN, over exact reals ----------

  function Trunc(x: real): int { if x < 0.0 then -((-x).Floor) else x.Floor }

  function RoundNearEven(x: real): int {
    var i := Trunc(x);
    var next := Trunc(if x < 0.0 then x - 1.0 else x + 1.0);
    var rem0 := x - i as real;
    var rem := if rem0 < 0.0 then -rem0 else rem0;
    if rem < 0.5 then i
    else if rem > 0.5 then next
    else if TruncRem2(i) == 0 then i else next
  }

  /** i % 2 in C: the sign follows the dividend. */
  function TruncRem2(i: int): int { if i < 0 then -((-i) % 2) else i % 2 }

  lemma RealRounds(x: real)
    ensures var r := RoundNearEven(x);
      && -0.5 <= x - r as real <= 0.5
      && ((x - r as real == 0.5 || x - r as real == -0.5) ==> r % 2 == 0)
  {
    var i := Trunc(x);
    if x < 0.0 {
      assert (-(x - 1.0)).Floor == (-x).Floor + 1;
    } else {
      assert (x + 1.0).Floor == x.Floor + 1;
    }
  }

  /** The integer shift equals ROUND_NEAR_EVEN of the exact quotient. */
  lemma ShiftIsRoundNearEven(x: int, shift: nat)
    requires shift > 0
    ensures RoundingRightShift(x, shift) == RoundNearEven(x as real / Pow2(shift) as real)
  {
    var m := Pow2(shift);
    var q := x as real / m as real;
    var r := RoundNearEven(q);
    RealRounds(q);
    QuotientNearest(x, m, r, q);
    ShiftRounds(x, shift);
    NearestEvenUnique(x, m, r, RoundingRightShift(x, shift));
  }

  lemma QuotientNearest(x: int, m: int, r: int, q: real)
    requires m > 0 && q == x as real / m as real
    requires -0.5 <= q - r as real <= 0.5
    requires (q - r as real == 0.5 || q - r as real == -0.5) ==> r % 2 == 0
    ensures IsNearestEven(x, m, r)
  {
    QuotientError(x, m, r, q);
    ErrorBound(q - r as real, x - r * m, m);
  }

  lemma QuotientError(x: int, m: int, r: int, q: real)
    requires m > 0 && q == x as real / m as real
    ensures (q - r as real) * m as real == (x - r * m) as real
  {}

  lemma ErrorBound(e: real, d: int, m: int)
    requires m > 0 && -0.5 <= e <= 0.5 && e * m as real == d as real
    ensures -m <= 2 * d <= m
    ensures 2 * d == m ==> e == 0.5
    ensures 2 * d == -m ==> e == -0.5
  {}

}
