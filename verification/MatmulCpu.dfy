/** matmul_cpu: the reference kernel, with its unrolled 4x4 path and its general path. */
module MatmulCpu {
  import opened Accelerator
  import opened MatmulSpec
  import opened Quantize
  import opened Sums

  /** matmul_cpu stores elements and reads a bias of accumulator width. */
  predicate ForCpu(p: Args) { !p.fullC && !p.lowD }

  /** One product of the inner loop, read from DRAM as it stands. */
  function Prod(d: Dram, p: Args, i: int, j: int, k: int): int {
    p.scaleA(Get(d, AAddr(p, i, k))) * p.scaleB(Get(d, BAddr(p, k, j)))
  }

  lemma Accumulate(q: Placed, d: Dram, i: int, j: int, k: int)
    requires Unchanged(q.d, d, q.p)
    requires 0 <= i < q.p.dimI && 0 <= j < q.p.dimJ && 0 <= k < q.p.dimK
    ensures Partial(q.d, q.p, i, j, k) + Prod(d, q.p, i, j, k) == Partial(q.d, q.p, i, j, k + 1)
  {}

  /** Cells already stored when a band of height h, starting at row i, is done up to column j. */
  function Done(i: int, j: int, h: int): (int, int) -> bool {
    (i', j') => i' < i || (i' < i + h && j' < j)
  }

  /** As Done(i, j, 4), plus the first n cells, row by row, of the 4x4 block at (i, j). */
  function DoneBlock(i: int, j: int, n: int): (int, int) -> bool {
    (i', j') => i' < i || (i' < i + 4 && j' < j)
                || (i' < i + 4 && j <= j' < j + 4 && 4 * (i' - i) + (j' - j) < n)
  }

  method Dot(d: Dram, p: Args, ghost q: Placed, i: int, j: int) returns (sum: int)
    requires p == q.p && ForCpu(p) && Unchanged(q.d, d, p)
    requires 0 <= i < p.dimI && 0 <= j < p.dimJ
    ensures sum == Partial(q.d, p, i, j, p.dimK)
  {
    sum := if p.D == NULL then 0 else Get(d, DAddr(p, i, j));
    var k := 0;
    while k < p.dimK
      invariant 0 <= k <= p.dimK
      invariant sum == Partial(q.d, p, i, j, k)
    {
      Accumulate(q, d, i, j, k);
      sum := sum + Prod(d, p, i, j, k);
      k := k + 1;
    }
  }

  /** One row of C on the general path. */
  method Row(g: Gemmini, p: Args, ghost q: Placed, i: int)
    requires p == q.p && ForCpu(p) && 0 <= i < p.dimI
    requires g.dram == After(q, Done(i, 0, 1))
    modifies g`dram
    ensures g.dram == After(q, Done(i + 1, 0, 1))
  {
    var j := 0;
    while j < p.dimJ
      invariant 0 <= j <= p.dimJ
      invariant g.dram == After(q, Done(i, j, 1))
    {
      AfterUnchanged(q, Done(i, j, 1));
      var sum := Dot(g.dram, p, q, i, j);
      AfterStore(q, Done(i, j, 1), i, j, Done(i, j + 1, 1));
      g.dram := g.dram[CAddr(p, i, j) := ScaleAndSat(sum, p.act, p.scale, p.relu6Shift)];
      j := j + 1;
    }
    AfterSame(q, Done(i, p.dimJ, 1), Done(i + 1, 0, 1));
  }

  lemma Start(q: Placed, h: int)
    ensures q.d == After(q, Done(0, 0, h))
  {
    AfterNothing(q);
    AfterSame(q, Nothing(), Done(0, 0, h));
  }

  lemma Finish(q: Placed, i: int, h: int)
    requires i >= q.p.dimI
    ensures After(q, Done(i, 0, h)) == Product(q.d, q.p)
  {
    AfterSame(q, Done(i, 0, h), All());
  }

  method General(g: Gemmini, p: Args)
    requires WellPlaced(g.dram, p) && ForCpu(p)
    modifies g`dram
    ensures g.dram == Product(old(g.dram), p)
  {
    ghost var q: Placed := Problem(g.dram, p);
    assert p.dimI >= 0;
    hide WellPlaced, After, Product, Done;
    Start(q, 1);
    var i := 0;
    while i < p.dimI
      invariant 0 <= i <= p.dimI
      invariant g.dram == After(q, Done(i, 0, 1))
    {
      Row(g, p, q, i);
      i := i + 1;
    }
    Finish(q, i, 1);
  }

  // ---------- the unrolled path ----------

  predicate ByFour(x: int) { x % 4 == 0 }

  lemma NextFour(i: int, n: int)
    requires ByFour(i) && ByFour(n)
    ensures i < n ==> i + 4 <= n
    ensures ByFour(i + 4)
  {}

  datatype Row4 = Row4(r0: int, r1: int, r2: int, r3: int)

  /** The partial sums of cells (i, j) to (i, j + 3). */
  function Row4At(q: Problem, i: int, j: int, k: int): Row4 {
    Row4(Partial(q.d, q.p, i, j, k), Partial(q.d, q.p, i, j + 1, k),
         Partial(q.d, q.p, i, j + 2, k), Partial(q.d, q.p, i, j + 3, k))
  }

  method Row4Bias(d: Dram, p: Args, ghost q: Placed, i: int, j: int) returns (r: Row4)
    requires p == q.p && ForCpu(p) && Unchanged(q.d, d, p)
    requires 0 <= i < p.dimI && 0 <= j <= p.dimJ - 4
    ensures r == Row4At(q, i, j, 0)
  {
    r := if p.D == NULL then Row4(0, 0, 0, 0)
         else Row4(Get(d, DAddr(p, i, j)), Get(d, DAddr(p, i, j + 1)),
                   Get(d, DAddr(p, i, j + 2)), Get(d, DAddr(p, i, j + 3)));
  }

  method Row4Step(d: Dram, p: Args, ghost q: Placed, i: int, j: int, k: int, r: Row4) returns (r': Row4)
    requires p == q.p && ForCpu(p) && Unchanged(q.d, d, p)
    requires 0 <= i < p.dimI && 0 <= j <= p.dimJ - 4 && 0 <= k < p.dimK
    requires r == Row4At(q, i, j, k)
    ensures r' == Row4At(q, i, j, k + 1)
  {
    r' := Row4(r.r0 + Prod(d, p, i, j, k),
               r.r1 + Prod(d, p, i, j + 1, k),
               r.r2 + Prod(d, p, i, j + 2, k),
               r.r3 + Prod(d, p, i, j + 3, k));
    Accumulate(q, d, i, j, k);
    Accumulate(q, d, i, j + 1, k);
    Accumulate(q, d, i, j + 2, k);
    Accumulate(q, d, i, j + 3, k);
  }

  /** The k loop over one 4x4 block. */
  method Accumulate4x4(d: Dram, p: Args, ghost q: Placed, i: int, j: int)
    returns (r0: Row4, r1: Row4, r2: Row4, r3: Row4)
    requires p == q.p && ForCpu(p) && Unchanged(q.d, d, p)
    requires 0 <= i <= p.dimI - 4 && 0 <= j <= p.dimJ - 4
    ensures r0 == Row4At(q, i, j, p.dimK) && r1 == Row4At(q, i + 1, j, p.dimK)
    ensures r2 == Row4At(q, i + 2, j, p.dimK) && r3 == Row4At(q, i + 3, j, p.dimK)
  {
    hide Row4At;
    r0 := Row4Bias(d, p, q, i, j);
    r1 := Row4Bias(d, p, q, i + 1, j);
    r2 := Row4Bias(d, p, q, i + 2, j);
    r3 := Row4Bias(d, p, q, i + 3, j);
    var k := 0;
    while k < p.dimK
      invariant 0 <= k <= p.dimK
      invariant r0 == Row4At(q, i, j, k) && r1 == Row4At(q, i + 1, j, k)
      invariant r2 == Row4At(q, i + 2, j, k) && r3 == Row4At(q, i + 3, j, k)
    {
      r0 := Row4Step(d, p, q, i, j, k, r0);
      r1 := Row4Step(d, p, q, i + 1, j, k, r1);
      r2 := Row4Step(d, p, q, i + 2, j, k, r2);
      r3 := Row4Step(d, p, q, i + 3, j, k, r3);
      k := k + 1;
    }
  }

  method Put(g: Gemmini, p: Args, ghost q: Placed, ghost i: int, ghost j: int, row: int, col: int, ghost n: int, x: int)
    requires p == q.p && ForCpu(p)
    requires 0 <= i <= row < p.dimI && 0 <= j <= col < p.dimJ && row < i + 4 && col < j + 4
    requires n == 4 * (row - i) + (col - j)
    requires g.dram == After(q, DoneBlock(i, j, n))
    requires x == Partial(q.d, p, row, col, p.dimK)
    modifies g`dram
    ensures g.dram == After(q, DoneBlock(i, j, n + 1))
  {
    AfterStore(q, DoneBlock(i, j, n), row, col, DoneBlock(i, j, n + 1));
    g.dram := g.dram[CAddr(p, row, col) := ScaleAndSat(x, p.act, p.scale, p.relu6Shift)];
  }

  /** Scales and stores one row of the 4x4 block at (i, j), n cells of it being stored already. */
  method Row4Store(g: Gemmini, p: Args, ghost q: Placed, ghost i: int, j: int, row: int, ghost n: int, r: Row4)
    requires p == q.p && ForCpu(p)
    requires 0 <= i <= row < p.dimI && row < i + 4 && 0 <= j <= p.dimJ - 4 && n == 4 * (row - i)
    requires g.dram == After(q, DoneBlock(i, j, n))
    requires r == Row4At(q, row, j, p.dimK)
    modifies g`dram
    ensures g.dram == After(q, DoneBlock(i, j, n + 4))
  {
    hide Partial;
    Put(g, p, q, i, j, row, j, n, r.r0);
    Put(g, p, q, i, j, row, j + 1, n + 1, r.r1);
    Put(g, p, q, i, j, row, j + 2, n + 2, r.r2);
    Put(g, p, q, i, j, row, j + 3, n + 3, r.r3);
  }

  /** Before the first and after the last cell of a block. */
  lemma BlockEnds(q: Placed, i: int, j: int)
    ensures After(q, Done(i, j, 4)) == After(q, DoneBlock(i, j, 0))
    ensures After(q, DoneBlock(i, j, 16)) == After(q, Done(i, j + 4, 4))
  {
    hide After, WellPlaced;
    AfterSame(q, Done(i, j, 4), DoneBlock(i, j, 0));
    AfterSame(q, DoneBlock(i, j, 16), Done(i, j + 4, 4));
  }

  method Block4x4(g: Gemmini, p: Args, ghost q: Placed, i: int, j: int)
    requires p == q.p && ForCpu(p)
    requires 0 <= i <= p.dimI - 4 && 0 <= j <= p.dimJ - 4
    requires g.dram == After(q, Done(i, j, 4))
    modifies g`dram
    ensures g.dram == After(q, Done(i, j + 4, 4))
  {
    hide *;
    AfterUnchanged(q, Done(i, j, 4));
    BlockEnds(q, i, j);
    var r0, r1, r2, r3 := Accumulate4x4(g.dram, p, q, i, j);
    Row4Store(g, p, q, i, j, i, 0, r0);
    Row4Store(g, p, q, i, j, i + 1, 4, r1);
    Row4Store(g, p, q, i, j, i + 2, 8, r2);
    Row4Store(g, p, q, i, j, i + 3, 12, r3);
  }

  /** Four rows of C on the unrolled path. */
  method Band(g: Gemmini, p: Args, ghost q: Placed, i: int)
    requires p == q.p && ForCpu(p) && 0 <= i <= p.dimI - 4 && ByFour(p.dimJ)
    requires g.dram == After(q, Done(i, 0, 4))
    modifies g`dram
    ensures g.dram == After(q, Done(i + 4, 0, 4))
  {
    assert ByFour(0);
    hide ByFour;
    var j := 0;
    while j < p.dimJ
      invariant 0 <= j <= p.dimJ && ByFour(j)
      invariant g.dram == After(q, Done(i, j, 4))
    {
      NextFour(j, p.dimJ);
      Block4x4(g, p, q, i, j);
      j := j + 4;
    }
    AfterSame(q, Done(i, p.dimJ, 4), Done(i + 4, 0, 4));
  }

  method Unrolled(g: Gemmini, p: Args)
    requires WellPlaced(g.dram, p) && ForCpu(p)
    requires !p.transA && !p.transB && ByFour(p.dimI) && ByFour(p.dimJ)
    modifies g`dram
    ensures g.dram == Product(old(g.dram), p)
  {
    ghost var q: Placed := Problem(g.dram, p);
    assert ByFour(0);
    hide ByFour;
    Start(q, 4);
    var i := 0;
    while i < p.dimI
      invariant 0 <= i <= p.dimI && ByFour(i)
      invariant g.dram == After(q, Done(i, 0, 4))
    {
      NextFour(i, p.dimI);
      Band(g, p, q, i);
      i := i + 4;
    }
    Finish(q, i, 4);
  }

  method MatmulCpu(g: Gemmini, p: Args)
    requires WellPlaced(g.dram, p) && ForCpu(p)
    modifies g`dram
    ensures g.dram == Product(old(g.dram), p)
  {
    if !p.transA && !p.transB && ByFour(p.dimI) && ByFour(p.dimJ) {
      Unrolled(g, p);
    } else {
      General(g, p);
    }
  }
}
