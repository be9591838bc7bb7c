/** tiled_matmul and tiled_matmul_auto: argument checks, the tile search, and the choice of
    back end. */
module MatmulAuto {
  import opened Accelerator
  import opened Arith
  import opened Config
  import opened MatmulCpu
  import opened MatmulOuter
  import opened MatmulSpec

  datatype Status =
    | Done
    | NonPositiveTile
    | TileTooLarge
    | ScratchpadTooSmall
    | AccumulatorTooSmall
    | TileOver16Bits
    | TransposeNotImplemented

  function MaxSpadRows(kind: Kind): int { if kind == WS then SPAD_ROWS / 2 else SPAD_ROWS }
  function MaxAccRows(kind: Kind): int { if kind == WS then ACC_ROWS / 2 else ACC_ROWS }

  function Padded(dim: int): int { CeilDiv(dim, DIM) * DIM }

  /** The assertion block of tiled_matmul, in source order. */
  function Check(p: Args, tileI: int, tileJ: int, tileK: int, kind: Kind): Status {
    if tileI <= 0 || tileJ <= 0 || tileK <= 0 then NonPositiveTile
    else if tileI * DIM > Padded(p.dimI) || tileJ * DIM > Padded(p.dimJ) || tileK * DIM > Padded(p.dimK)
    then TileTooLarge
    else if tileI * tileK * DIM + tileK * tileJ * DIM > MaxSpadRows(kind) then ScratchpadTooSmall
    else if tileI * tileJ * DIM > MaxAccRows(kind) then AccumulatorTooSmall
    else if tileI > 65535 || tileJ > 65535 || tileK > 65535 then TileOver16Bits
    else if (kind == OS && (p.transA || p.transB)) || (kind == WS && p.transA && p.transB) then TransposeNotImplemented
    else Done
  }

  /** The CPU back end stores elements and reads a full-width bias whatever full_C and low_D say;
      the source only prints a notice. */
  function Effective(p: Args, kind: Kind): Args { if kind == CPU then p.(fullC := false, lowD := false) else p }

  /** Nothing else of the arguments is lost. */
  lemma EffectiveIs(p: Args, kind: Kind)
    ensures kind != CPU ==> Effective(p, kind) == p
    ensures var e := Effective(p, CPU);
      && !e.fullC && !e.lowD && e.transA == p.transA && e.transB == p.transB
      && e.dimI == p.dimI && e.dimJ == p.dimJ && e.dimK == p.dimK
      && e.A == p.A && e.B == p.B && e.D == p.D && e.C == p.C
      && e.strideA == p.strideA && e.strideB == p.strideB && e.strideD == p.strideD && e.strideC == p.strideC
      && e.scaleA == p.scaleA && e.scaleB == p.scaleB && e.scaleD == p.scaleD
      && e.act == p.act && e.scale == p.scale && e.relu6Shift == p.relu6Shift && e.repeatingBias == p.repeatingBias
  {}

  /** Operands are where the source asks for them. On the output-stationary array a narrow bias is
      announced as not implemented. */
  ghost predicate Sound(d: Dram, p: Args, kind: Kind) {
    WellPlaced(d, Effective(p, kind)) && (kind == OS && p.lowD ==> p.D == NULL)
  }

  /** The tile fits: A beside B in the scratchpad, C in the accumulator, and of each only half if the
      array works double-buffered. */
  ghost predicate Fits(kind: Kind, I: int, J: int, K: int) {
    && (I * K + K * J) * DIM <= (if kind == WS then SPAD_ROWS / 2 else SPAD_ROWS)
    && I * J * DIM <= (if kind == WS then ACC_ROWS / 2 else ACC_ROWS)
  }

  /** tiled_matmul runs on arguments p with these tile factors. */
  ghost predicate Accepted(p: Args, I: int, J: int, K: int, kind: Kind) {
    && 1 <= I <= Blocks(p.dimI) && 1 <= J <= Blocks(p.dimJ) && 1 <= K <= Blocks(p.dimK)
    && I <= 65535 && J <= 65535 && K <= 65535
    && Fits(kind, I, J, K)
    && (kind == OS ==> !p.transA && !p.transB)
    && (kind == WS ==> !(p.transA && p.transB))
  }

  function Blocks(dim: int): int { CeilDiv(dim, DIM) }

  /** The checks let through what is accepted and nothing else. */
  lemma CheckIs(p: Args, I: int, J: int, K: int, kind: Kind)
    ensures Check(p, I, J, K, kind) == Done <==> Accepted(p, I, J, K, kind)
    ensures Check(p, I, J, K, kind) == NonPositiveTile <==> I <= 0 || J <= 0 || K <= 0
    ensures Check(p, I, J, K, kind) == TileTooLarge ==> I > Blocks(p.dimI) || J > Blocks(p.dimJ) || K > Blocks(p.dimK)
    ensures Check(p, I, J, K, kind) in {ScratchpadTooSmall, AccumulatorTooSmall} ==> !Fits(kind, I, J, K)
    ensures Check(p, I, J, K, kind) == TileOver16Bits ==> I > 65535 || J > 65535 || K > 65535
    ensures Check(p, I, J, K, kind) == TransposeNotImplemented ==>
      kind != CPU && (if kind == OS then p.transA || p.transB else p.transA && p.transB)
  {
    WithinPadded(I, p.dimI);
    WithinPadded(J, p.dimJ);
    WithinPadded(K, p.dimK);
    Distribute(I * K, K * J, DIM);
    hide Blocks, Padded;
  }

  lemma WithinPadded(x: int, dim: int)
    ensures x * DIM <= Padded(dim) <==> x <= Blocks(dim)
  {
    if x <= Blocks(dim) { MulLe(x, Blocks(dim), DIM); } else { MulLt(Blocks(dim), x, DIM); }
  }

  /** tiled_matmul on the array, in either dataflow, or on the CPU. */
  method TiledMatmul(g: Gemmini, p: Args, tileI: int, tileJ: int, tileK: int, kind: Kind) returns (r: Status)
    requires g.Valid() && Sound(g.dram, p, kind)
    modifies g
    ensures g.Valid()
    ensures r == Check(p, tileI, tileJ, tileK, kind)
    ensures r == Done <==> Accepted(p, tileI, tileJ, tileK, kind)
    ensures g.dram == if r == Done then Product(old(g.dram), Effective(p, kind)) else old(g.dram)
  {
    r := Check(p, tileI, tileJ, tileK, kind);
    CheckIs(p, tileI, tileJ, tileK, kind);
    hide Accepted;
    if r == Done {
      hide WellPlaced;
      if kind == OS || kind == WS {
        HalfFits();
        TiledMatmulOuter(g, p, tileI, tileJ, tileK, if kind == OS then OUTPUT_STATIONARY else WEIGHT_STATIONARY);
      } else {
        MatmulCpu.MatmulCpu(g, p.(fullC := false, lowD := false));
      }
    }
  }

  lemma HalfFits()
    ensures SPAD_ROWS / 2 <= SPAD_ROWS && ACC_ROWS / 2 <= ACC_ROWS
  {}

  // ---------- the tile search ----------

  function Isqrt(n: int): (r: int)
    requires n >= 0
    ensures 0 <= r && r * r <= n < (r + 1) * (r + 1)
  {
    if n == 0 then 0
    else var s := Isqrt(n - 1); if (s + 1) * (s + 1) <= n then s + 1 else s
  }

  function TotalSpadRows(I: int, J: int, K: int): int { (I * K + K * J) * DIM }
  function TotalAccRows(I: int, J: int): int { I * J * DIM }

  /** Blocks of accumulator and half scratchpad, and the starting bounds derived from them. */
  function MaxTileIJ(kind: Kind): int { Isqrt(MaxAccRows(kind) / DIM) }
  function MatsInPartition(kind: Kind): (m: int)
    ensures m >= 0
  {
    DivBounds(MaxSpadRows(kind) / 2, DIM);
    MaxSpadRows(kind) / 2 / DIM
  }

  ghost predicate Feasible(kind: Kind, nI: int, nJ: int, nK: int, I: int, J: int, K: int) {
    Fits(kind, I, J, K) && 1 <= I <= nI && 1 <= J <= nJ && 0 <= K <= nK
  }

  /** The search starts with room for at least one block column, or makes it in its first round. */
  predicate RoomForK(kind: Kind, nI: int, nJ: int)
    requires MaxTileIJ(kind) > 0
  {
    var s := MaxTileIJ(kind);
    var I0, J0 := Min(nI, s), Min(nJ, s);
    var J1 := if TotalAccRows(I0, J0 + 1) <= MaxAccRows(kind) && J0 + 1 <= nJ then J0 + 1 else J0;
    var I1 := if TotalAccRows(I0 + 1, J1) <= MaxAccRows(kind) && I0 + 1 <= nI then I0 + 1 else I0;
    MatsInPartition(kind) >= s || TotalSpadRows(I1, J1, 1) <= MaxSpadRows(kind)
  }

  lemma StartFits(kind: Kind, I: int, J: int, K: int)
    requires MaxTileIJ(kind) > 0
    requires 0 <= I <= MaxTileIJ(kind) && 0 <= J <= MaxTileIJ(kind) && 0 <= K <= MatsInPartition(kind) / MaxTileIJ(kind)
    ensures Fits(kind, I, J, K)
  {
    StartBound(MaxSpadRows(kind), MaxAccRows(kind), MaxTileIJ(kind), I, J, K);
  }

  lemma Scaled(x: int, m: int, spad: int)
    requires x <= 2 * m && m * DIM <= spad / 2
    ensures x * DIM <= spad
  {
    MulLe(x, 2 * m, DIM);
    assert 2 * m * DIM == 2 * (m * DIM);
  }

  lemma StartBound(spad: int, acc: int, s: int, I: int, J: int, K: int)
    requires 0 < s && s * s <= acc / DIM && spad >= 0 && acc >= 0
    requires 0 <= I <= s && 0 <= J <= s && 0 <= K <= spad / 2 / DIM / s
    ensures (I * K + K * J) * DIM <= spad && I * J * DIM <= acc
  {
    var m := spad / 2 / DIM;
    DivMul(m, s);
    DivMul(spad / 2, DIM);
    DivMul(acc, DIM);
    Mul2(K, I, m / s, s);
    Mul2(K, J, m / s, s);
    Mul2(I, J, s, s);
    assert I * K == K * I;
    Scaled(I * K + K * J, m, spad);
    MulLe(I * J, acc / DIM, DIM);
  }

  predicate JGrows(kind: Kind, nJ: int, I: int, J: int, K: int) {
    TotalSpadRows(I, J + 1, K) <= MaxSpadRows(kind) && TotalAccRows(I, J + 1) <= MaxAccRows(kind)
    && (J + 1) * DIM <= nJ * DIM
  }

  predicate IGrows(kind: Kind, nI: int, I: int, J: int, K: int) {
    TotalSpadRows(I + 1, J, K) <= MaxSpadRows(kind) && TotalAccRows(I + 1, J) <= MaxAccRows(kind)
    && (I + 1) * DIM <= nI * DIM
  }

  predicate KGrows(kind: Kind, nK: int, I: int, J: int, K: int) {
    TotalSpadRows(I, J, K + 1) <= MaxSpadRows(kind) && (K + 1) * DIM <= nK * DIM
  }

  lemma GrowthBound(x: int, n: int)
    ensures (x + 1) * DIM <= n * DIM <==> x + 1 <= n
  {
    if x + 1 <= n { MulLe(x + 1, n, DIM); } else { MulLt(n, x + 1, DIM); }
  }

  /** Three tile factors. */
  datatype Tiling = Tiling(I: int, J: int, K: int)

  /** One pass of the growth loop: J, then I, then K grow by one, each if the result fits and stays within
      the blocks there are. */
  ghost function NextRound(kind: Kind, nI: int, nJ: int, nK: int, x: Tiling): Tiling {
    var J := if Fits(kind, x.I, x.J + 1, x.K) && x.J + 1 <= nJ then x.J + 1 else x.J;
    var I := if Fits(kind, x.I + 1, J, x.K) && x.I + 1 <= nI then x.I + 1 else x.I;
    var K := if Fits(kind, I, J, x.K + 1) && x.K + 1 <= nK then x.K + 1 else x.K;
    Tiling(I, J, K)
  }

  lemma GrowsIs(kind: Kind, n: int, I: int, J: int, K: int)
    ensures JGrows(kind, n, I, J, K) <==> Fits(kind, I, J + 1, K) && J + 1 <= n
    ensures IGrows(kind, n, I, J, K) <==> Fits(kind, I + 1, J, K) && I + 1 <= n
    ensures Fits(kind, I, J, K) ==> (KGrows(kind, n, I, J, K) <==> Fits(kind, I, J, K + 1) && K + 1 <= n)
  {
    GrowthBound(I, n);
    GrowthBound(J, n);
    GrowthBound(K, n);
  }

  /** Where the search starts: with a square of at most s x s blocks of C, s the greatest that fits the
      accumulator, and as many blocks of K as let s x K blocks fill half the scratchpad. */
  ghost predicate StartsAt(kind: Kind, nI: int, nJ: int, nK: int, x: Tiling) {
    exists s, m :: SquareOf(if kind == WS then ACC_ROWS / 2 else ACC_ROWS, s) && s > 0
      && HalfOf(if kind == WS then SPAD_ROWS / 2 else SPAD_ROWS, s, m)
      && x == Tiling(Min(nI, s), Min(nJ, s), Min(nK, m))
  }

  /** s x s blocks fit into that many rows, and no larger square does. */
  ghost predicate SquareOf(rows: int, s: int) { 0 <= s && s * s * DIM <= rows < (s + 1) * (s + 1) * DIM }

  /** s x m blocks fit into half of that many rows, and no more. */
  ghost predicate HalfOf(rows: int, s: int, m: int) { 0 <= m && 2 * (s * m * DIM) <= rows < 2 * (s * (m + 1) * DIM) }

  lemma SquareIs(kind: Kind)
    ensures SquareOf(if kind == WS then ACC_ROWS / 2 else ACC_ROWS, MaxTileIJ(kind))
  {
    var rows, s := MaxAccRows(kind), MaxTileIJ(kind);
    DivMul(rows, DIM);
    MulLe(s * s, rows / DIM, DIM);
    MulLe(rows / DIM + 1, (s + 1) * (s + 1), DIM);
    Distribute(rows / DIM, 1, DIM);
  }

  lemma HalfIs(kind: Kind)
    requires MaxTileIJ(kind) > 0
    ensures HalfOf(if kind == WS then SPAD_ROWS / 2 else SPAD_ROWS, MaxTileIJ(kind),
                   MatsInPartition(kind) / MaxTileIJ(kind))
  {
    HalfBounds(MaxSpadRows(kind), MaxTileIJ(kind));
    hide MaxTileIJ, HalfOf;
  }

  lemma HalfBounds(rows: int, s: int)
    requires rows >= 0 && s > 0
    ensures HalfOf(rows, s, rows / 2 / DIM / s)
  {
    var b := rows / 2 / DIM;
    DivMul(rows / 2, DIM);
    DivBounds(rows / 2, DIM);
    DivMul(b, s);
    DivBounds(b, s);
    var m := b / s;
    Distribute(m, 1, s);
    MulLe(m * s, b, DIM);
    MulLe(b + 1, (m + 1) * s, DIM);
    Distribute(b, 1, DIM);
    Commute(m, s);
    Commute(m + 1, s);
  }

  /** Tilings as the growth loop goes through them, round by round: each round changes something but the last. */
  ghost predicate Rounds(kind: Kind, nI: int, nJ: int, nK: int, chain: seq<Tiling>) {
    && (forall n :: 0 <= n < |chain| - 1 ==> NextRound(kind, nI, nJ, nK, chain[n]) == chain[n + 1])
    && (forall n :: 0 <= n < |chain| - 1 ==> chain[n] != chain[n + 1])
  }

  /** What the search answers. */
  ghost predicate Searched(kind: Kind, nI: int, nJ: int, nK: int, x: Tiling) {
    && NextRound(kind, nI, nJ, nK, x) == x
    && exists chain :: Rounds(kind, nI, nJ, nK, chain) && |chain| > 0 && StartsAt(kind, nI, nJ, nK, chain[0])
                       && chain[|chain| - 1] == x
  }

  lemma RoundsGrow(kind: Kind, nI: int, nJ: int, nK: int, chain: seq<Tiling>, x: Tiling)
    requires Rounds(kind, nI, nJ, nK, chain) && |chain| > 0 && x == NextRound(kind, nI, nJ, nK, chain[|chain| - 1])
    requires x != chain[|chain| - 1]
    ensures Rounds(kind, nI, nJ, nK, chain + [x])
  {
    hide NextRound;
  }

  lemma {:induction false} RoundsUnique(kind: Kind, nI: int, nJ: int, nK: int, x: seq<Tiling>, y: seq<Tiling>)
    requires Rounds(kind, nI, nJ, nK, x) && Rounds(kind, nI, nJ, nK, y) && |x| > 0 && |y| > 0 && x[0] == y[0]
    requires NextRound(kind, nI, nJ, nK, x[|x| - 1]) == x[|x| - 1]
    requires NextRound(kind, nI, nJ, nK, y[|y| - 1]) == y[|y| - 1]
    ensures x == y
  {
    hide NextRound;
    assert |x| > 1 ==> NextRound(kind, nI, nJ, nK, x[0]) == x[1] && x[0] != x[1];
    assert |y| > 1 ==> NextRound(kind, nI, nJ, nK, y[0]) == y[1] && y[0] != y[1];
    if |x| > 1 && |y| > 1 {
      RoundsUnique(kind, nI, nJ, nK, x[1..], y[1..]);
      assert x == [x[0]] + x[1..] && y == [y[0]] + y[1..];
    }
  }

  lemma SquareUnique(rows: int, s: int, t: int)
    requires SquareOf(rows, s) && SquareOf(rows, t)
    ensures s == t
  {
    if s < t {
      SquareBelow(s, t);
    } else if t < s {
      SquareBelow(t, s);
    }
  }

  lemma SquareBelow(s: int, t: int)
    requires 0 <= s < t
    ensures (s + 1) * (s + 1) * DIM <= t * t * DIM
  {
    Mul2(s + 1, s + 1, t, t);
    MulLe((s + 1) * (s + 1), t * t, DIM);
  }

  lemma HalfUnique(rows: int, s: int, m: int, n: int)
    requires s > 0 && HalfOf(rows, s, m) && HalfOf(rows, s, n)
    ensures m == n
  {
    if m < n {
      RectangleBelow(s, m, n);
    } else if n < m {
      RectangleBelow(s, n, m);
    }
  }

  lemma RectangleBelow(s: int, m: int, n: int)
    requires s > 0 && 0 <= m < n
    ensures s * (m + 1) * DIM <= s * n * DIM
  {
    Mul2(s, m + 1, s, n);
    MulLe(s * (m + 1), s * n, DIM);
  }

  lemma StartUnique(kind: Kind, nI: int, nJ: int, nK: int, x: Tiling, y: Tiling)
    requires StartsAt(kind, nI, nJ, nK, x) && StartsAt(kind, nI, nJ, nK, y)
    ensures x == y
  {
    var acc, spad := if kind == WS then ACC_ROWS / 2 else ACC_ROWS, if kind == WS then SPAD_ROWS / 2 else SPAD_ROWS;
    var s, m :| SquareOf(acc, s) && s > 0 && HalfOf(spad, s, m) && x == Tiling(Min(nI, s), Min(nJ, s), Min(nK, m));
    var t, n :| SquareOf(acc, t) && t > 0 && HalfOf(spad, t, n) && y == Tiling(Min(nI, t), Min(nJ, t), Min(nK, n));
    hide SquareOf, HalfOf;
    SquareUnique(acc, s, t);
    HalfUnique(spad, s, m, n);
  }

  /** The search has no choice: the blocks there are and the memories determine its answer. */
  lemma SearchUnique(kind: Kind, nI: int, nJ: int, nK: int, x: Tiling, y: Tiling)
    requires Searched(kind, nI, nJ, nK, x) && Searched(kind, nI, nJ, nK, y)
    ensures x == y
  {
    var a :| Rounds(kind, nI, nJ, nK, a) && |a| > 0 && StartsAt(kind, nI, nJ, nK, a[0]) && a[|a| - 1] == x;
    var b :| Rounds(kind, nI, nJ, nK, b) && |b| > 0 && StartsAt(kind, nI, nJ, nK, b[0]) && b[|b| - 1] == y;
    hide NextRound, Rounds, StartsAt;
    StartUnique(kind, nI, nJ, nK, a[0], b[0]);
    RoundsUnique(kind, nI, nJ, nK, a, b);
  }

  /** One pass of the growth loop: J, then I, then K, each by at most one. */
  method Round(kind: Kind, nI: int, nJ: int, nK: int, I: int, J: int, K: int)
    returns (I': int, J': int, K': int, increased: bool)
    requires Feasible(kind, nI, nJ, nK, I, J, K)
    ensures Feasible(kind, nI, nJ, nK, I', J', K')
    ensures Tiling(I', J', K') == NextRound(kind, nI, nJ, nK, Tiling(I, J, K))
    ensures J' == if JGrows(kind, nJ, I, J, K) then J + 1 else J
    ensures I' == if IGrows(kind, nI, I, J', K) then I + 1 else I
    ensures K' == if KGrows(kind, nK, I', J', K) then K + 1 else K
    ensures increased <==> I' + J' + K' > I + J + K
  {
    GrowthBound(I, nI);
    GrowthBound(J, nJ);
    GrowthBound(K, nK);
    increased := false;
    I', J', K' := I, J, K;
    GrowsIs(kind, nJ, I', J', K');
    if JGrows(kind, nJ, I', J', K') {
      J' := J' + 1;
      increased := true;
    }
    GrowsIs(kind, nI, I', J', K');
    if IGrows(kind, nI, I', J', K') {
      I' := I' + 1;
      increased := true;
    }
    GrowsIs(kind, nK, I', J', K');
    if KGrows(kind, nK, I', J', K') {
      K' := K' + 1;
      increased := true;
    }
  }

  /** Three factors before and after one round. */
  ghost predicate IsRound(kind: Kind, nI: int, nJ: int, nK: int, I: int, J: int, K: int, I': int, J': int, K': int) {
    && J' == (if JGrows(kind, nJ, I, J, K) then J + 1 else J)
    && I' == (if IGrows(kind, nI, I, J', K) then I + 1 else I)
    && K' == (if KGrows(kind, nK, I', J', K) then K + 1 else K)
  }

  /** Whether tile_K is still zero is decided by the end of the first round, for good. */
  ghost predicate KDecided(kind: Kind, nI: int, nJ: int, I: int, J: int, K: int)
    requires MaxTileIJ(kind) > 0
  {
    && (K >= 1 <==> RoomForK(kind, nI, nJ))
    && (K < 1 ==> TotalSpadRows(I, J, 1) > MaxSpadRows(kind))
  }

  lemma FirstRound(kind: Kind, nI: int, nJ: int, nK: int, K: int, I': int, J': int, K': int)
    requires MaxTileIJ(kind) > 0 && nI > 0 && nJ > 0 && nK > 0
    requires var s := MaxTileIJ(kind);
      K == Min(nK, MatsInPartition(kind) / s) && IsRound(kind, nI, nJ, nK, Min(nI, s), Min(nJ, s), K, I', J', K')
    ensures KDecided(kind, nI, nJ, I', J', K')
  {
    DivBounds(MatsInPartition(kind), MaxTileIJ(kind));
    hide Isqrt, MaxTileIJ, MatsInPartition, TotalAccRows, TotalSpadRows;
    if MatsInPartition(kind) < MaxTileIJ(kind) {
      FirstRoundFromZero(kind, nI, nJ, nK, Min(nI, MaxTileIJ(kind)), Min(nJ, MaxTileIJ(kind)), I', J', K');
    }
  }

  lemma FirstRoundFromZero(kind: Kind, nI: int, nJ: int, nK: int, I: int, J: int, I': int, J': int, K': int)
    requires nK > 0 && IsRound(kind, nI, nJ, nK, I, J, 0, I', J', K')
    ensures J' == if TotalAccRows(I, J + 1) <= MaxAccRows(kind) && J + 1 <= nJ then J + 1 else J
    ensures I' == if TotalAccRows(I + 1, J') <= MaxAccRows(kind) && I + 1 <= nI then I + 1 else I
    ensures K' == if TotalSpadRows(I', J', 1) <= MaxSpadRows(kind) then 1 else 0
  {
    GrowthBound(J, nJ);
    GrowthBound(I, nI);
    GrowthBound(0, nK);
    assert TotalSpadRows(I, J + 1, 0) == 0 && TotalSpadRows(I + 1, J', 0) == 0;
  }

  lemma LaterRound(kind: Kind, nI: int, nJ: int, nK: int, I: int, J: int, K: int, I': int, J': int, K': int)
    requires MaxTileIJ(kind) > 0 && K >= 0
    requires KDecided(kind, nI, nJ, I, J, K) && IsRound(kind, nI, nJ, nK, I, J, K, I', J', K')
    ensures KDecided(kind, nI, nJ, I', J', K')
  {
    hide MaxTileIJ, RoomForK, TotalAccRows;
    if K == 0 {
      MulLe(I + J, I' + J', DIM);
      assert TotalSpadRows(I, J, 1) == (I + J) * DIM && TotalSpadRows(I', J', 1) == (I' + J') * DIM;
    }
  }

  /** The starting point of the search. */
  method Start(kind: Kind, nI: int, nJ: int, nK: int) returns (I: int, J: int, K: int)
    requires nI > 0 && nJ > 0 && nK > 0 && MaxTileIJ(kind) > 0
    ensures Feasible(kind, nI, nJ, nK, I, J, K)
    ensures I == Min(nI, MaxTileIJ(kind)) && J == Min(nJ, MaxTileIJ(kind))
    ensures K == Min(nK, MatsInPartition(kind) / MaxTileIJ(kind))
    ensures StartsAt(kind, nI, nJ, nK, Tiling(I, J, K))
  {
    var maxTileIJ := MaxTileIJ(kind);
    var maxTileK := MatsInPartition(kind) / maxTileIJ;
    I := if nI < maxTileIJ then nI else maxTileIJ;
    J := if nJ < maxTileIJ then nJ else maxTileIJ;
    K := if nK < maxTileK then nK else maxTileK;
    DivBounds(MatsInPartition(kind), maxTileIJ);
    StartFits(kind, I, J, K);
    SquareIs(kind);
    HalfIs(kind);
    hide MaxTileIJ, MatsInPartition;
  }

  /** tiled_matmul_auto's search over the dimensions nI x nJ x nK, in blocks: it ends in a
      tiling that fits and of which no single factor can grow, with a positive tile_K exactly
      when there was room for one. */
  method TileSearch(kind: Kind, nI: int, nJ: int, nK: int) returns (I: int, J: int, K: int)
    requires nI > 0 && nJ > 0 && nK > 0 && MaxTileIJ(kind) > 0
    ensures Feasible(kind, nI, nJ, nK, I, J, K)
    ensures Searched(kind, nI, nJ, nK, Tiling(I, J, K))
    ensures K >= 1 <==> RoomForK(kind, nI, nJ)
  {
    hide MaxTileIJ, MatsInPartition, TotalAccRows, TotalSpadRows, RoomForK, JGrows, IGrows, KGrows, NextRound, StartsAt,
         Fits;
    I, J, K := Start(kind, nI, nJ, nK);
    ghost var I1, J1, K1 := I, J, K;
    var increased := true;
    ghost var first := true;
    ghost var chain := [Tiling(I, J, K)];
    while increased
      invariant Feasible(kind, nI, nJ, nK, I, J, K)
      invariant first ==> increased && I == I1 && J == J1 && K == K1
      invariant !first ==> KDecided(kind, nI, nJ, I, J, K)
      invariant Rounds(kind, nI, nJ, nK, chain) && |chain| > 0 && StartsAt(kind, nI, nJ, nK, chain[0])
      invariant chain[|chain| - 1] == Tiling(I, J, K)
      invariant !increased ==> NextRound(kind, nI, nJ, nK, Tiling(I, J, K)) == Tiling(I, J, K)
      decreases nI + nJ + nK - I - J - K, increased
    {
      ghost var I0, J0, K0 := I, J, K;
      I, J, K, increased := Round(kind, nI, nJ, nK, I, J, K);
      if first {
        FirstRound(kind, nI, nJ, nK, K0, I, J, K);
      } else {
        LaterRound(kind, nI, nJ, nK, I0, J0, K0, I, J, K);
      }
      first := false;
      if increased {
        RoundsGrow(kind, nI, nJ, nK, chain, Tiling(I, J, K));
        chain := chain + [Tiling(I, J, K)];
      }
    }
  }

  /** The search has a positive starting bound as soon as the accumulator (or, double-buffered,
      half of it) holds one block; otherwise the source divides by zero. */
  lemma MaxTilePositive(kind: Kind)
    ensures MaxTileIJ(kind) > 0 <==> MaxAccRows(kind) >= DIM
  {
    DivBounds(MaxAccRows(kind), DIM);
    assert Isqrt(MaxAccRows(kind) / DIM) == 0 ==> MaxAccRows(kind) / DIM < 1;
  }

  /** The search can end without room: a scratchpad of two blocks beside an accumulator of four starts it
      at 2 x 2 x 0 blocks, where it stays, and tiled_matmul then stops the program. */
  lemma NoRoom()
    requires SPAD_ROWS == 2 * DIM && ACC_ROWS == 4 * DIM
    ensures MaxTileIJ(OS) == 2 && MatsInPartition(OS) == 1 && !RoomForK(OS, 2, 2)
  {
    DivUnique(ACC_ROWS, DIM, 4);
    DivUnique(SPAD_ROWS / 2, DIM, 1);
    var s := Isqrt(4);
    if s <= 1 { Mul2(s + 1, s + 1, 2, 2); }
    if s >= 3 { Mul2(3, 3, s, s); }
    assert TotalAccRows(2, 3) == 6 * DIM && TotalAccRows(3, 2) == 6 * DIM && TotalSpadRows(2, 2, 1) == 4 * DIM;
  }

  /** What the search returns passes every size and capacity check of tiled_matmul. */
  lemma SearchPasses(kind: Kind, p: Args, I: int, J: int, K: int)
    requires Feasible(kind, Blocks(p.dimI), Blocks(p.dimJ), Blocks(p.dimK), I, J, K) && K >= 1
    ensures Check(p, I, J, K, kind) in {Done, TileOver16Bits, TransposeNotImplemented}
    ensures SPAD_ROWS <= 65535 * DIM ==> Check(p, I, J, K, kind) != TileOver16Bits
  {
    MulLe(I, CeilDiv(p.dimI, DIM), DIM);
    MulLe(J, CeilDiv(p.dimJ, DIM), DIM);
    MulLe(K, CeilDiv(p.dimK, DIM), DIM);
    SpadRowsSplit(I, J, K);
    if SPAD_ROWS <= 65535 * DIM {
      FactorBounds(I, J, K);
    }
    hide CeilDiv, TotalSpadRows;
  }

  lemma SpadRowsSplit(I: int, J: int, K: int)
    ensures TotalSpadRows(I, J, K) == I * K * DIM + K * J * DIM
  {}

  lemma FactorBounds(I: int, J: int, K: int)
    requires I >= 1 && J >= 1 && K >= 1 && (I * K + K * J) * DIM <= 65535 * DIM
    ensures I <= 65535 && J <= 65535 && K <= 65535
  {
    MulLtCancel(I * K + K * J - 1, 65535, DIM);
    MulLe(1, K, I);
    MulLe(1, K, J);
    MulLe(1, I, K);
  }

  /** In what the search answers no single factor can grow. */
  lemma NothingGrows(kind: Kind, nI: int, nJ: int, nK: int, x: Tiling)
    requires Searched(kind, nI, nJ, nK, x)
    ensures x.J + 1 <= nJ ==> !Fits(kind, x.I, x.J + 1, x.K)
    ensures x.I + 1 <= nI ==> !Fits(kind, x.I + 1, x.J, x.K)
    ensures x.K + 1 <= nK ==> !Fits(kind, x.I, x.J, x.K + 1)
  {
    hide Fits, Rounds, StartsAt;
  }

  /** Whether tiled_matmul runs with what the search answers depends on the transposes and on room only. */
  lemma SearchAccepted(kind: Kind, p: Args, I: int, J: int, K: int)
    requires Feasible(kind, Blocks(p.dimI), Blocks(p.dimJ), Blocks(p.dimK), I, J, K) && SPAD_ROWS <= 65535 * DIM
    ensures Accepted(p, I, J, K, kind) <==>
      K >= 1 && (kind == OS ==> !p.transA && !p.transB) && (kind == WS ==> !(p.transA && p.transB))
  {
    hide Blocks;
    if K >= 1 { FactorBounds(I, J, K); }
  }

  /** tiled_matmul_auto. With room for one block column of A and B the tile checks never fire, so both
      dataflows of the array and the CPU leave the same DRAM, whatever transposes the dataflow can do.
      Double-buffered, the search divides by zero unless half the accumulator holds a block. */
  method TiledMatmulAuto(g: Gemmini, p: Args, kind: Kind) returns (r: Status)
    requires g.Valid() && (kind == WS ==> DIM <= ACC_ROWS / 2)
    requires Sound(g.dram, p, kind) && p.dimI > 0 && p.dimJ > 0 && p.dimK > 0
    modifies g
    ensures g.Valid()
    ensures g.dram == if r == Done then Product(old(g.dram), Effective(p, kind)) else old(g.dram)
    ensures MaxTileIJ(kind) > 0
    ensures exists x :: Searched(kind, Blocks(p.dimI), Blocks(p.dimJ), Blocks(p.dimK), x)
                        && (r == Done <==> Accepted(p, x.I, x.J, x.K, kind))
    ensures if RoomForK(kind, Blocks(p.dimI), Blocks(p.dimJ))
            then r in {Done, TileOver16Bits, TransposeNotImplemented} else r == NonPositiveTile
    ensures SPAD_ROWS <= 65535 * DIM ==>
      (r == Done <==> RoomForK(kind, Blocks(p.dimI), Blocks(p.dimJ))
                      && (kind == OS ==> !p.transA && !p.transB) && (kind == WS ==> !(p.transA && p.transB)))
  {
    BlocksPositive(p);
    MaxTilePositive(kind);
    hide Sound, MaxTileIJ, RoomForK, Fits, Searched, Accepted, Effective, Blocks, Check, Gemmini.Valid;
    var I, J, K := TileSearch(kind, Blocks(p.dimI), Blocks(p.dimJ), Blocks(p.dimK));
    CheckIs(p, I, J, K, kind);
    if K >= 1 {
      SearchPasses(kind, p, I, J, K);
    }
    if SPAD_ROWS <= 65535 * DIM {
      SearchAccepted(kind, p, I, J, K);
    }
    r := TiledMatmul(g, p, I, J, K, kind);
  }

  lemma BlocksPositive(p: Args)
    requires p.dimI > 0 && p.dimJ > 0 && p.dimK > 0
    ensures Blocks(p.dimI) > 0 && Blocks(p.dimJ) > 0 && Blocks(p.dimK) > 0
  {
    MulLtCancel(0, Blocks(p.dimI), DIM);
    MulLtCancel(0, Blocks(p.dimJ), DIM);
    MulLtCancel(0, Blocks(p.dimK), DIM);
  }
}
