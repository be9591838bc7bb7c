/** Scaling, saturation, activation and the rounding shift applied to accumulated values. */
module Quantize {
  import opened Config

  /** A scale factor, seen as the integer function x -> MVIN_SCALE(x, factor) or
      x -> ACC_SCALE(x, factor). Results hold for every such function. */
  type Scale = int -> int

  /** MVIN_SCALE_IDENTITY and ACC_SCALE_IDENTITY. */
  function Identity(): Scale { x => x }

  const NO_ACTIVATION: int := 0
  const RELU: int := 1
  const RELU6: int := 2

  function Pow2(n: nat): (p: int)
    ensures p > 0
  {
    if n == 0 then 1 else 2 * Pow2(n - 1)
  }

  function Clip(x: int): (y: int)
    ensures ELEM_MIN <= y <= ELEM_MAX
    ensures ELEM_MIN <= x <= ELEM_MAX ==> y == x
  {
    if x > ELEM_MAX then ELEM_MAX else if x < ELEM_MIN then ELEM_MIN else x
  }

  function Activate(x: int, act: int, relu6Shift: nat): int {
    if act == RELU then (if x < 0 then 0 else x)
    else if act == RELU6 then
      var max := 6 * Pow2(relu6Shift);
      if x < 0 then 0 else if x > max then max else x
    else x
  }

  /** What leaves the accumulator: scaled, clipped to an element, then activated. */
  function ScaleAndSat(x: int, act: int, scale: Scale, relu6Shift: nat): (y: int)
    ensures ELEM_MIN <= y <= ELEM_MAX
  {
    Activate(Clip(scale(x)), act, relu6Shift)
  }

  /** What an activation lets through. */
  ghost predicate Passes(y: int, act: int, relu6Shift: nat) {
    && -128 <= y <= 127
    && (act == RELU || act == RELU6 ==> y >= 0)
    && (act == RELU6 ==> y <= 6 * Pow2(relu6Shift))
  }

  ghost function Distance(x: int, y: int): int { if x < y then y - x else x - y }

  /** What leaves is the passing element nearest to the scaled value, and the only one so near. */
  lemma NearestPassing(x: int, act: int, scale: Scale, relu6Shift: nat, e: int)
    requires Passes(e, act, relu6Shift)
    ensures var y := ScaleAndSat(x, act, scale, relu6Shift);
      Passes(y, act, relu6Shift) && (e != y ==> Distance(y, scale(x)) < Distance(e, scale(x)))
  {}

  /** ROUNDING_RIGHT_SHIFT. On two's complement integers `x >> s` is the floor of x / 2^s,
      `(x >> s) & 1` its parity and `x & (2^s - 1)` the Euclidean remainder. */
  function RoundingRightShift(x: int, shift: nat): int {
    if shift == 0 then x
    else
      var half := Pow2(shift - 1);
      var floor := x / (2 * half);
      var halfBit := x / half % 2;
      var sticky := if shift <= 1 then 0 else x % half;
      floor + (if halfBit == 1 && (sticky != 0 || floor % 2 == 1) then 1 else 0)
  }
}
