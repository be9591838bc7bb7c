/** The tile search of tiled_conv_A_stride_auto. */
module ConvSearch {
  import opened Arith
  import opened Config
  import opened ConvRows

  const OROWS_IDX: int := 1
  const OCOLS_IDX: int := 2
  const OUT_CHANNELS_IDX: int := 3
  const IN_CHANNELS_IDX: int := 6

  /** Half of each memory, the other half being for double buffering. */
  const MAX_SPAD_ROWS: int := SPAD_ROWS / 2
  const MAX_ACC_ROWS: int := ACC_ROWS / 2

  predicate Fits(g: GoodGeometry, a: seq<int>)
    requires |a| == 7
  {
    TotalRows(false, g, a) <= MAX_SPAD_ROWS && TotalRows(true, g, a) <= MAX_ACC_ROWS
  }

  function Ones(): seq<int> { [1, 1, 1, 1, 1, 1, 1] }

  type Sizes = a: seq<int> | |a| == 7 witness [1, 1, 1, 1, 1, 1, 1]

  lemma SmallerFits(g: GoodGeometry, a: seq<int>, b: seq<int>)
    requires Positive(a) && Below(a, b) && Fits(g, b)
    ensures Fits(g, a)
  {
    hide TotalRows;
    TotalRowsMono(false, g, a, b);
    TotalRowsMono(true, g, a, b);
  }

  /** Some tiling fits exactly when the all-ones tiling does. */
  lemma TilingExists(g: GoodGeometry, a: seq<int>)
    requires Positive(a) && Fits(g, a)
    ensures Fits(g, Ones())
  {
    hide Fits;
    SmallerFits(g, Ones(), a);
  }

  /** ocols is left alone while the array is at most just filled and there are rows to spare. */
  predicate Excluded(a: seq<int>, i: int)
    requires |a| == 7 && 0 <= i < 7
  {
    i == OCOLS_IDX && a[i] <= DIM && a[OROWS_IDX] > 1
  }

  /** The first of the largest sizes that may shrink. */
  ghost predicate Picked(a: Sizes, i: int) {
    && 0 <= i < 7 && !Excluded(a, i)
    && (forall k :: 0 <= k < 7 && !Excluded(a, k) ==> a[k] <= a[i])
    && (forall k :: 0 <= k < i && !Excluded(a, k) ==> a[k] < a[i])
  }

  method PickLargest(a: array<int>) returns (maxIdx: int)
    requires a.Length == 7 && Positive(a[..])
    ensures Picked(a[..], maxIdx)
  {
    var maxVal := -1;
    maxIdx := -1;
    for i := 0 to 7
      invariant maxIdx == -1 ==> maxVal == -1 && forall k :: 0 <= k < i ==> Excluded(a[..], k)
      invariant -1 <= maxIdx < i
      invariant maxIdx >= 0 ==> maxVal == a[maxIdx] && !Excluded(a[..], maxIdx)
      invariant maxIdx >= 0 ==> forall k :: 0 <= k < i && !Excluded(a[..], k) ==> a[k] <= maxVal
      invariant maxIdx >= 0 ==> forall k :: 0 <= k < maxIdx && !Excluded(a[..], k) ==> a[k] < maxVal
    {
      if !(i == OCOLS_IDX && a[i] <= DIM && a[OROWS_IDX] > 1) && a[i] > maxVal {
        maxVal := a[i];
        maxIdx := i;
      }
    }
    assert !Excluded(a[..], 0);
  }

  /** Channels shrink to the next lower multiple of DIM, everything else by one. */
  function Shrunk(x: int, i: int): int {
    if i == OUT_CHANNELS_IDX || i == IN_CHANNELS_IDX then
      var y := if x % DIM != 0 then x / DIM * DIM else x - DIM;
      if y == 0 then 1 else y
    else x - 1
  }

  /** What shrinking leaves of size i: of channels the greatest multiple of DIM below x, or one if that is
      zero; of everything else x - 1. */
  ghost predicate Lowered(i: int, x: int, y: int) {
    if i == OUT_CHANNELS_IDX || i == IN_CHANNELS_IDX
    then if x <= DIM then y == 1 else y % DIM == 0 && x - DIM <= y < x
    else y == x - 1
  }

  lemma ShrunkIs(i: int, x: int)
    requires x > 1
    ensures Lowered(i, x, Shrunk(x, i)) && 1 <= Shrunk(x, i) < x
  {
    DivMul(x, DIM);
    DivBounds(x, DIM);
    if x / DIM >= 1 { MulLe(1, x / DIM, DIM); }
    MultipleOf(x / DIM);
    if x % DIM == 0 { MulLtCancel(0, x / DIM, DIM); BelowMultiple(x); }
  }

  lemma MultipleOf(k: int)
    ensures k * DIM % DIM == 0
  {
    DivUnique(k * DIM, DIM, k);
  }

  lemma BelowMultiple(x: int)
    requires x % DIM == 0
    ensures (x - DIM) % DIM == 0
  {
    var q := x / DIM;
    assert x == q * DIM;
    assert x - DIM == (q - 1) * DIM;
    MultipleOf(q - 1);
  }

  /** There is one such value. */
  lemma LoweredUnique(i: int, x: int, y: int, z: int)
    requires Lowered(i, x, y) && Lowered(i, x, z)
    ensures y == z
  {
    if (i == OUT_CHANNELS_IDX || i == IN_CHANNELS_IDX) && x > DIM { OneMultiple(y, z); }
  }

  lemma OneMultiple(y: int, z: int)
    requires y % DIM == 0 && z % DIM == 0 && -DIM < y - z < DIM
    ensures y == z
  {
    var q, r := y / DIM, z / DIM;
    assert y == q * DIM && z == r * DIM;
    assert (q - r) * DIM == y - z;
    SmallMultiple(q - r, DIM);
  }

  function Total(a: seq<int>): int requires |a| == 7 { a[0] + a[1] + a[2] + a[3] + a[4] + a[5] + a[6] }

  /** If the tiling does not fit but the smallest does, the size picked can shrink. */
  lemma CanShrink(g: GoodGeometry, a: seq<int>, i: int)
    requires Positive(a) && !Fits(g, a) && Fits(g, Ones()) && 0 <= i < 7
    requires forall k :: 0 <= k < 7 && !Excluded(a, k) ==> a[k] <= a[i]
    ensures a[i] > 1
  {
    hide Fits;
    if a[i] <= 1 {
      AllOnes(a, i);
    }
  }

  lemma AllOnes(a: seq<int>, i: int)
    requires Positive(a) && 0 <= i < 7 && a[i] <= 1
    requires forall k :: 0 <= k < 7 && !Excluded(a, k) ==> a[k] <= a[i]
    ensures a == Ones()
  {}

  /** One iteration of the shrinking loop. */
  ghost predicate ShrinkStep(a: Sizes, b: Sizes) {
    exists i :: Picked(a, i) && Lowered(i, a[i], b[i]) && b == a[i := b[i]]
  }

  /** Tilings as the shrinking loop goes through them: none fits but the last. */
  ghost predicate Shrinking(g: GoodGeometry, chain: seq<Sizes>) {
    && (forall n :: 0 <= n < |chain| - 1 ==> ShrinkStep(chain[n], chain[n + 1]))
    && (forall n :: 0 <= n < |chain| - 1 ==> !Fits(g, chain[n]))
  }

  ghost predicate ShrunkTo(g: GoodGeometry, a: Sizes, b: Sizes) {
    Fits(g, b) && exists chain :: Shrinking(g, chain) && |chain| > 0 && chain[0] == a && chain[|chain| - 1] == b
  }

  lemma ChainGrows(g: GoodGeometry, chain: seq<Sizes>, b: Sizes)
    requires Shrinking(g, chain) && |chain| > 0 && !Fits(g, chain[|chain| - 1]) && ShrinkStep(chain[|chain| - 1], b)
    ensures Shrinking(g, chain + [b])
  {
    hide Fits, ShrinkStep;
  }

  /** The shrinking loop: it ends, in a tiling that fits, with every size at least one. */
  method Shrink(g: GoodGeometry, args: array<int>)
    requires args.Length == 7 && Positive(args[..]) && Fits(g, Ones())
    modifies args
    ensures Positive(args[..]) && Below(args[..], old(args[..])) && ShrunkTo(g, old(args[..]), args[..])
  {
    ghost var start: Sizes := args[..];
    ghost var chain: seq<Sizes> := [start];
    hide Fits, ShrinkStep, Lowered;
    while !Fits(g, args[..])
      invariant Positive(args[..]) && Below(args[..], start)
      invariant Shrinking(g, chain) && |chain| > 0 && chain[0] == start && chain[|chain| - 1] == args[..]
      decreases Total(args[..])
    {
      ghost var a := args[..];
      var maxIdx := PickLargest(args);
      CanShrink(g, a, maxIdx);
      ShrunkIs(maxIdx, a[maxIdx]);
      args[maxIdx] := Shrunk(args[maxIdx], maxIdx);
      Replaced(a, maxIdx, Shrunk(a[maxIdx], maxIdx));
      assert args[..] == a[maxIdx := Shrunk(a[maxIdx], maxIdx)];
      StepIs(a, maxIdx, args[..]);
      ChainGrows(g, chain, args[..]);
      chain := chain + [args[..]];
      hide Shrunk;
    }
  }

  lemma StepIs(a: Sizes, i: int, b: Sizes)
    requires Picked(a, i) && Lowered(i, a[i], b[i]) && b == a[i := b[i]]
    ensures ShrinkStep(a, b)
  {}

  lemma StepUnique(a: Sizes, b: Sizes, c: Sizes)
    requires ShrinkStep(a, b) && ShrinkStep(a, c)
    ensures b == c
  {
    var i :| Picked(a, i) && Lowered(i, a[i], b[i]) && b == a[i := b[i]];
    var j :| Picked(a, j) && Lowered(j, a[j], c[j]) && c == a[j := c[j]];
    assert i == j;
    hide Lowered, Picked;
    LoweredUnique(i, a[i], b[i], c[i]);
  }

  /** The loop has no choice: where it ends is determined by where it starts. */
  lemma {:induction false} ShrunkUnique(g: GoodGeometry, x: seq<Sizes>, y: seq<Sizes>)
    requires Shrinking(g, x) && Shrinking(g, y) && |x| > 0 && |y| > 0 && x[0] == y[0]
    requires Fits(g, x[|x| - 1]) && Fits(g, y[|y| - 1])
    ensures x == y
  {
    hide Fits, ShrinkStep;
    if |x| > 1 && |y| > 1 {
      StepUnique(x[0], x[1], y[1]);
      ShrunkUnique(g, x[1..], y[1..]);
      assert x == [x[0]] + x[1..] && y == [y[0]] + y[1..];
    }
  }

  lemma Replaced(a: seq<int>, i: int, x: int)
    requires |a| == 7 && 0 <= i < 7
    ensures Total(a[i := x]) == Total(a) - a[i] + x
    ensures Positive(a) && x >= 1 ==> Positive(a[i := x])
    ensures x <= a[i] ==> Below(a[i := x], a)
  {}

  /** Size i cannot grow by one. */
  predicate Maximal(g: GoodGeometry, a: seq<int>, max: seq<int>, i: int)
    requires |a| == 7 && |max| == 7 && 0 <= i < 7
  {
    a[i] + 1 > max[i] || !Fits(g, a[i := a[i] + 1])
  }

  /** A tiling that fits both memories, lies within the layer, and of which no size can grow by one. */
  ghost predicate Best(g: GoodGeometry, max: seq<int>, a: seq<int>) {
    && Positive(a) && Below(a, max) && Fits(g, a)
    && forall i :: 0 <= i < 7 ==> Maximal(g, a, max, i)
  }

  /** Size i grows by one if it may and the result fits. */
  ghost function Grown(g: GoodGeometry, max: Sizes, a: Sizes, i: int): Sizes
    requires 0 <= i < 7
  {
    if a[i] < max[i] && Fits(g, a[i := a[i] + 1]) then a[i := a[i] + 1] else a
  }

  /** x columns are within the layer and fit. */
  ghost predicate FitColumns(g: GoodGeometry, max: Sizes, a: Sizes, x: int) {
    x <= max[OCOLS_IDX] && Fits(g, a[OCOLS_IDX := x])
  }

  /** The columns alone, taken as far as they go. */
  ghost predicate Widened(g: GoodGeometry, max: Sizes, a: Sizes, b: Sizes) {
    && a[OCOLS_IDX] <= b[OCOLS_IDX] && b == a[OCOLS_IDX := b[OCOLS_IDX]]
    && (forall x :: a[OCOLS_IDX] < x <= b[OCOLS_IDX] ==> FitColumns(g, max, a, x))
    && !FitColumns(g, max, a, b[OCOLS_IDX] + 1)
  }

  /** What one attempt at the columns tells. */
  lemma ColumnStep(g: GoodGeometry, max: Sizes, a: Sizes, b: Sizes)
    requires b == a[OCOLS_IDX := b[OCOLS_IDX]]
    ensures FitColumns(g, max, a, b[OCOLS_IDX] + 1) <==> !Maximal(g, b, max, OCOLS_IDX)
  {
    hide Fits;
    assert a[OCOLS_IDX := b[OCOLS_IDX] + 1] == b[OCOLS_IDX := b[OCOLS_IDX] + 1];
  }

  /** Sizes i to 6, one after the other. */
  ghost function PassFrom(g: GoodGeometry, max: Sizes, a: Sizes, i: int): Sizes
    requires 0 <= i <= 7
    decreases 7 - i
  {
    if i == 7 then a else PassFrom(g, max, Grown(g, max, a, i), i + 1)
  }

  /** Tilings as the last loop goes through them, pass by pass: each pass changes something but the last. */
  ghost predicate Growing(g: GoodGeometry, max: Sizes, chain: seq<Sizes>) {
    && (forall n :: 0 <= n < |chain| - 1 ==> PassFrom(g, max, chain[n], 0) == chain[n + 1])
    && (forall n :: 0 <= n < |chain| - 1 ==> chain[n] != chain[n + 1])
  }

  ghost predicate GrownTo(g: GoodGeometry, max: Sizes, a: Sizes, b: Sizes) {
    && PassFrom(g, max, b, 0) == b
    && exists chain :: Growing(g, max, chain) && |chain| > 0 && chain[0] == a && chain[|chain| - 1] == b
  }

  /** The three stages of the search. */
  ghost predicate Searched(g: GoodGeometry, max: Sizes, a: Sizes) {
    exists s, w :: ShrunkTo(g, max, s) && Widened(g, max, s, w) && GrownTo(g, max, w, a)
  }

  /** The loop body of both growing loops. */
  method TryGrow(g: GoodGeometry, args: array<int>, max: Sizes, i: int) returns (increased: bool)
    requires args.Length == 7 && 0 <= i < 7 && Positive(args[..]) && Below(args[..], max) && Fits(g, args[..])
    modifies args
    ensures Positive(args[..]) && Below(args[..], max) && Fits(g, args[..])
    ensures args[..] == Grown(g, max, old(args[..]), i)
    ensures increased == !Maximal(g, old(args[..]), max, i)
    ensures args[..] == if increased then old(args[..])[i := old(args[i]) + 1] else old(args[..])
  {
    hide Fits;
    var candidate := args[..][i := args[i] + 1];
    if candidate[i] > max[i] {
      return false;
    }
    increased := Fits(g, candidate);
    if increased {
      args[i] := candidate[i];
      assert args[..] == candidate;
    }
  }

  method GrowColumns(g: GoodGeometry, args: array<int>, max: Sizes)
    requires args.Length == 7 && Positive(args[..]) && Below(args[..], max) && Fits(g, args[..])
    modifies args
    ensures Positive(args[..]) && Below(args[..], max) && Fits(g, args[..])
    ensures Widened(g, max, old(args[..]), args[..])
  {
    hide Fits, Maximal, Grown, FitColumns;
    ghost var start: Sizes := args[..];
    var notIncreased := false;
    while !notIncreased
      invariant Positive(args[..]) && Below(args[..], max) && Fits(g, args[..])
      invariant start[OCOLS_IDX] <= args[OCOLS_IDX] && args[..] == start[OCOLS_IDX := args[OCOLS_IDX]]
      invariant forall x :: start[OCOLS_IDX] < x <= args[OCOLS_IDX] ==> FitColumns(g, max, start, x)
      invariant notIncreased ==> !FitColumns(g, max, start, args[OCOLS_IDX] + 1)
      decreases !notIncreased, max[OCOLS_IDX] - args[OCOLS_IDX]
    {
      ColumnStep(g, max, start, args[..]);
      var increased := TryGrow(g, args, max, OCOLS_IDX);
      notIncreased := !increased;
    }
  }

  /** One pass over the seven sizes. */
  method GrowPass(g: GoodGeometry, args: array<int>, max: Sizes) returns (nothingIncreased: bool)
    requires args.Length == 7 && Positive(args[..]) && Below(args[..], max) && Fits(g, args[..])
    modifies args
    ensures Positive(args[..]) && Below(args[..], max) && Fits(g, args[..])
    ensures args[..] == PassFrom(g, max, old(args[..]), 0)
    ensures nothingIncreased <==> args[..] == old(args[..])
    ensures nothingIncreased ==> forall i :: 0 <= i < 7 ==> Maximal(g, args[..], max, i)
    ensures !nothingIncreased ==> Total(args[..]) > old(Total(args[..]))
  {
    hide Fits, Maximal, Total, Grown;
    nothingIncreased := true;
    ghost var start: Sizes := args[..];
    for i := 0 to 7
      invariant Positive(args[..]) && Below(args[..], max) && Fits(g, args[..])
      invariant PassFrom(g, max, start, 0) == PassFrom(g, max, args[..], i)
      invariant nothingIncreased ==> args[..] == start && forall k :: 0 <= k < i ==> Maximal(g, args[..], max, k)
      invariant Total(args[..]) >= Total(start) + (if nothingIncreased then 0 else 1)
    {
      ghost var a := args[..];
      var increased := TryGrow(g, args, max, i);
      Replaced(a, i, a[i] + 1);
      if increased {
        nothingIncreased := false;
      }
    }
  }

  lemma PassGrows(g: GoodGeometry, max: Sizes, chain: seq<Sizes>, b: Sizes)
    requires Growing(g, max, chain) && |chain| > 0 && b == PassFrom(g, max, chain[|chain| - 1], 0)
    requires b != chain[|chain| - 1]
    ensures Growing(g, max, chain + [b])
  {
    hide PassFrom;
  }

  /** The last loop. */
  method GrowAll(g: GoodGeometry, args: array<int>, max: Sizes)
    requires args.Length == 7 && Positive(args[..]) && Below(args[..], max) && Fits(g, args[..])
    modifies args
    ensures Best(g, max, args[..]) && GrownTo(g, max, old(args[..]), args[..])
  {
    hide Fits, Maximal, PassFrom;
    ghost var start: Sizes := args[..];
    ghost var chain: seq<Sizes> := [start];
    var nothingIncreased := false;
    while !nothingIncreased
      invariant Positive(args[..]) && Below(args[..], max) && Fits(g, args[..])
      invariant Growing(g, max, chain) && |chain| > 0 && chain[0] == start && chain[|chain| - 1] == args[..]
      invariant nothingIncreased ==> PassFrom(g, max, args[..], 0) == args[..]
      invariant nothingIncreased ==> forall i :: 0 <= i < 7 ==> Maximal(g, args[..], max, i)
      decreases !nothingIncreased, Total(max) - Total(args[..])
    {
      nothingIncreased := GrowPass(g, args, max);
      if !nothingIncreased {
        PassGrows(g, max, chain, args[..]);
        chain := chain + [args[..]];
      }
    }
  }

  /** The whole search, started from the layer's dimensions. */
  method SearchTiling(g: GoodGeometry, max: Sizes) returns (args: array<int>)
    requires Positive(max) && Fits(g, Ones())
    ensures fresh(args) && args.Length == 7 && Best(g, max, args[..]) && Searched(g, max, args[..])
  {
    args := new int[7](i requires 0 <= i < 7 => max[i]);
    assert args[..] == max;
    hide Fits, Maximal, ShrunkTo, Widened, GrownTo;
    Shrink(g, args);
    ghost var s: Sizes := args[..];
    GrowColumns(g, args, max);
    ghost var w: Sizes := args[..];
    GrowAll(g, args, max);
  }

  lemma WidenedUnique(g: GoodGeometry, max: Sizes, a: Sizes, b: Sizes, c: Sizes)
    requires Widened(g, max, a, b) && Widened(g, max, a, c)
    ensures b == c
  {
    hide FitColumns;
  }

  lemma {:induction false} GrownUnique(g: GoodGeometry, max: Sizes, x: seq<Sizes>, y: seq<Sizes>)
    requires Growing(g, max, x) && Growing(g, max, y) && |x| > 0 && |y| > 0 && x[0] == y[0]
    requires PassFrom(g, max, x[|x| - 1], 0) == x[|x| - 1] && PassFrom(g, max, y[|y| - 1], 0) == y[|y| - 1]
    ensures x == y
  {
    hide PassFrom;
    assert |x| > 1 ==> PassFrom(g, max, x[0], 0) == x[1] && x[0] != x[1];
    assert |y| > 1 ==> PassFrom(g, max, y[0], 0) == y[1] && y[0] != y[1];
    if |x| > 1 && |y| > 1 {
      GrownUnique(g, max, x[1..], y[1..]);
      assert x == [x[0]] + x[1..] && y == [y[0]] + y[1..];
    }
  }

  /** The search has no choice in any stage: the layer and the memories determine its answer. */
  lemma SearchUnique(g: GoodGeometry, max: Sizes, a: Sizes, b: Sizes)
    requires Searched(g, max, a) && Searched(g, max, b)
    ensures a == b
  {
    var s, w :| ShrunkTo(g, max, s) && Widened(g, max, s, w) && GrownTo(g, max, w, a);
    var t, u :| ShrunkTo(g, max, t) && Widened(g, max, t, u) && GrownTo(g, max, u, b);
    hide Fits, Widened, Growing, Shrinking, PassFrom;
    ShrunkToUnique(g, max, s, t);
    WidenedUnique(g, max, s, w, u);
    GrownToUnique(g, max, w, a, b);
  }

  lemma ShrunkToUnique(g: GoodGeometry, a: Sizes, b: Sizes, c: Sizes)
    requires ShrunkTo(g, a, b) && ShrunkTo(g, a, c)
    ensures b == c
  {
    var x :| Shrinking(g, x) && |x| > 0 && x[0] == a && x[|x| - 1] == b;
    var y :| Shrinking(g, y) && |y| > 0 && y[0] == a && y[|y| - 1] == c;
    hide Fits, Shrinking;
    ShrunkUnique(g, x, y);
  }

  lemma GrownToUnique(g: GoodGeometry, max: Sizes, a: Sizes, b: Sizes, c: Sizes)
    requires GrownTo(g, max, a, b) && GrownTo(g, max, a, c)
    ensures b == c
  {
    var x :| Growing(g, max, x) && |x| > 0 && x[0] == a && x[|x| - 1] == b;
    var y :| Growing(g, max, y) && |y| > 0 && y[0] == a && y[|y| - 1] == c;
    hide PassFrom, Growing;
    GrownUnique(g, max, x, y);
  }
}
