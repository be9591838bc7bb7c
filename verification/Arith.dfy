/** Division facts behind every block address and loop bound. */
module Arith {
  /** x / d rounded up, written in the sources as `x / d + (x % d != 0)`. */
  function CeilDiv(x: int, d: int): (q: int)
    requires d > 0
    ensures (q - 1) * d < x <= q * d
  {
    assert x == x / d * d + x % d;
    x / d + (if x % d != 0 then 1 else 0)
  }

  function Min(a: int, b: int): int { if a < b then a else b }

  lemma MulLe(a: int, b: int, c: int)
    requires a <= b && c >= 0
    ensures a * c <= b * c
  {}

  lemma MulLtCancel(a: int, b: int, c: int)
    requires a * c < b * c && c >= 0
    ensures a < b
  {}

  lemma SmallMultiple(q: int, d: int)
    requires d > 0 && -d < q * d < d
    ensures q == 0
  {}

  /** Distinct digits give distinct numbers. */
  lemma MixedRadix(q0: int, r0: int, q1: int, r1: int, d: int)
    requires 0 <= r0 < d && 0 <= r1 < d
    requires q0 * d + r0 == q1 * d + r1
    ensures q0 == q1 && r0 == r1
  {
    assert (q0 - q1) * d == r1 - r0;
    SmallMultiple(q0 - q1, d);
  }

  lemma DivUnique(x: int, d: int, q: int)
    requires d > 0
    requires q * d <= x < q * d + d
    ensures x / d == q && x % d == x - q * d
  {
    assert x == x / d * d + x % d;
    MixedRadix(x / d, x % d, q, x - q * d, d);
  }

  lemma CeilDivUnique(x: int, d: int, q: int)
    requires d > 0
    requires (q - 1) * d < x <= q * d
    ensures CeilDiv(x, d) == q
  {}

  lemma CeilDivMono(x: int, y: int, d: int)
    requires d > 0 && x <= y
    ensures CeilDiv(x, d) <= CeilDiv(y, d)
  {}

  lemma MulAssoc(a: int, b: int, c: int)
    ensures a * (b * c) == a * b * c
  {}

  lemma Distribute(a: int, b: int, c: int)
    ensures (a + b) * c == a * c + b * c
  {}

  lemma MulPos(a: int, b: int)
    requires a > 0 && b > 0
    ensures a * b > 0
  {}

  lemma MulLt(a: int, b: int, c: int)
    requires a < b && c > 0
    ensures a * c < b * c
  {}

  /** Counting tiles of t blocks in units of d elements changes nothing. */
  lemma CeilDivScale(x: int, t: int, d: int)
    requires t > 0 && d > 0
    ensures t * d > 0 && CeilDiv(x * d, t * d) == CeilDiv(x, t)
  {
    var c := CeilDiv(x, t);
    MulPos(t, d);
    MulAssoc(c, t, d);
    MulAssoc(c - 1, t, d);
    MulLe(x, c * t, d);
    MulLt((c - 1) * t, x, d);
    hide CeilDiv;
    CeilDivUnique(x * d, t * d, c);
  }

  lemma ModScale(x: int, t: int, d: int)
    requires t > 0 && d > 0
    ensures t * d > 0 && (x * d) % (t * d) == x % t * d
  {
    MulPos(t, d);
    var q, r := x / t, x % t;
    assert x == q * t + r;
    MulAssoc(q, t, d);
    assert x * d == q * t * d + r * d;
    MulLe(0, r, d);
    MulLt(r, t, d);
    DivUnique(x * d, t * d, q);
  }

  lemma Mul2(a: int, b: int, c: int, d: int)
    requires 0 <= a <= c && 0 <= b <= d
    ensures a * b <= c * d
  {}

  lemma DivMul(x: int, d: int)
    requires d > 0
    ensures x / d * d <= x < x / d * d + d
  {}

  lemma DivBounds(x: int, d: int)
    requires d > 0 && x >= 0
    ensures 0 <= x / d
    ensures x >= d <==> x / d >= 1
  {}

  /** L rows dealt out R at a time to n owners: row i is among those of owner i / R, and of no other. */
  lemma Shares(R: int, n: int, L: int, c: int, i: int)
    requires R >= 1 && R * n == L
    ensures c * R <= i < (c + 1) * R <==> i / R == c
    ensures (c + 1) * R == c * R + R
    ensures 0 <= i < L ==> 0 <= i / R < n
    ensures 0 <= c < n ==> 0 <= c * R && (c + 1) * R <= L
  {
    Distribute(c, 1, R);
    DivMul(i, R);
    if c * R <= i < (c + 1) * R { DivUnique(i, R, c); }
    if 0 <= i < L { ShareBound(R, n, i); }
    if 0 <= c < n {
      MulLe(0, c, R);
      MulLe(c + 1, n, R);
      Commute(R, n);
    }
  }

  lemma Commute(a: int, b: int)
    ensures a * b == b * a
  {}

  lemma ShareBound(R: int, n: int, i: int)
    requires R >= 1 && 0 <= i < R * n
    ensures 0 <= i / R < n
  {
    DivMul(i, R);
    Commute(R, n);
    MulLtCancel(-1, i / R, R);
    MulLtCancel(i / R, n, R);
  }

  /** Division in C truncates towards zero. */
  function CDiv(x: int, d: int): int
    requires d > 0
  {
    if x >= 0 then x / d else -((-x) / d)
  }

  function CRem(x: int, d: int): int
    requires d > 0
  {
    x - CDiv(x, d) * d
  }

  /** For exact multiples truncation makes no difference. */
  lemma CDivExact(x: int, d: int)
    requires d > 0
    ensures CRem(x, d) == 0 <==> x % d == 0
    ensures x % d == 0 ==> CDiv(x, d) == x / d
  {
    if x < 0 {
      var q, r := (-x) / d, (-x) % d;
      assert -x == q * d + r;
      assert CRem(x, d) == -r;
      if r == 0 { DivUnique(x, d, -q); } else { DivUnique(x, d, -q - 1); }
    }
  }
}
