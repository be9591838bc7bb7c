/** What a matrix multiply leaves in DRAM, independently of who computes it. */
module MatmulSpec {
  import opened Accelerator
  import opened Config
  import opened Quantize
  import opened Sums

  /** The arguments of a multiply. Pointers are byte addresses; strides count elements. */
  datatype Args = Args(
    transA: bool, transB: bool,
    dimI: int, dimJ: int, dimK: int,
    A: int, B: int, D: int, C: int,
    strideA: int, strideB: int, strideD: int, strideC: int,
    scaleA: Scale, scaleB: Scale, scaleD: Scale,
    act: int, scale: Scale, relu6Shift: nat,
    repeatingBias: bool, fullC: bool, lowD: bool)

  function AAddr(p: Args, i: int, k: int): int {
    if p.transA then ElemAddr(p.A, 1, p.strideA, i, k) else ElemAddr(p.A, p.strideA, 1, i, k)
  }

  function BAddr(p: Args, k: int, j: int): int {
    if p.transB then ElemAddr(p.B, 1, p.strideB, k, j) else ElemAddr(p.B, p.strideB, 1, k, j)
  }

  function DAddr(p: Args, i: int, j: int): int {
    ElemAddr(p.D, if p.repeatingBias then 0 else p.strideD * SizeofD(p.lowD), SizeofD(p.lowD), i, j)
  }

  function CAddr(p: Args, i: int, j: int): int {
    ElemAddr(p.C, p.strideC * SizeofC(p.fullC), SizeofC(p.fullC), i, j)
  }

  /** Rows of the matrices lie a stride apart, of the transposed ones the columns; sizes count in bytes. */
  lemma Addresses(p: Args, i: int, j: int)
    ensures AAddr(p, i, j) == p.A + (if p.transA then j * p.strideA + i else i * p.strideA + j)
    ensures BAddr(p, i, j) == p.B + (if p.transB then j * p.strideB + i else i * p.strideB + j)
    ensures CAddr(p, i, j) == p.C + (i * p.strideC + j) * (if p.fullC then 4 else 1)
    ensures DAddr(p, i, j) == p.D + ((if p.repeatingBias then 0 else i * p.strideD) + j) * (if p.lowD then 1 else 4)
  {
    Scaled(i, p.strideC, j, SizeofC(p.fullC));
    Scaled(i, p.strideD, j, SizeofD(p.lowD));
  }

  lemma Scaled(i: int, stride: int, j: int, size: int)
    ensures i * (stride * size) + j * size == (i * stride + j) * size
  {}

  ghost predicate InC(p: Args, a: int) {
    InMatrix(a, p.C, p.strideC * SizeofC(p.fullC), SizeofC(p.fullC), p.dimI, p.dimJ)
  }

  function Term(d: Dram, p: Args, i: int, j: int): int -> int {
    k => p.scaleA(Get(d, AAddr(p, i, k))) * p.scaleB(Get(d, BAddr(p, k, j)))
  }

  /** A bias of element width is scaled; one of accumulator width is not. */
  function Bias(d: Dram, p: Args, i: int, j: int): int {
    if p.D == NULL then 0
    else if p.lowD then p.scaleD(Get(d, DAddr(p, i, j)))
    else Get(d, DAddr(p, i, j))
  }

  /** Bias plus the products with index below k. */
  function Partial(d: Dram, p: Args, i: int, j: int, k: int): int {
    Bias(d, p, i, j) + Sum(0, k, Term(d, p, i, j))
  }

  function Out(x: int, p: Args): int {
    if p.fullC then x else ScaleAndSat(x, p.act, p.scale, p.relu6Shift)
  }

  /** Every operand is in DRAM, rows of C do not overlap, and C overlaps no operand. A null D
      means no bias and is never read. */
  ghost predicate WellPlaced(d: Dram, p: Args) {
    && p.dimI >= 0 && p.dimJ >= 0 && p.dimK >= 0
    && p.A > 0 && p.B > 0 && p.D >= 0 && p.C > 0
    && p.strideA >= 0 && p.strideB >= 0 && p.strideD >= 0 && p.strideC >= p.dimJ
    && (forall i, k :: 0 <= i < p.dimI && 0 <= k < p.dimK ==> AAddr(p, i, k) in d && !InC(p, AAddr(p, i, k)))
    && (forall k, j :: 0 <= k < p.dimK && 0 <= j < p.dimJ ==> BAddr(p, k, j) in d && !InC(p, BAddr(p, k, j)))
    && (p.D != NULL ==>
        forall i, j :: 0 <= i < p.dimI && 0 <= j < p.dimJ ==> DAddr(p, i, j) in d && !InC(p, DAddr(p, i, j)))
    && (forall i, j :: 0 <= i < p.dimI && 0 <= j < p.dimJ ==> CAddr(p, i, j) in d)
  }

  /** A multiply together with the DRAM it starts from. */
  datatype Problem = Problem(d: Dram, p: Args)

  type Placed = q: Problem | WellPlaced(q.d, q.p)
    ghost witness Problem(map[], Args(false, false, 0, 0, 0, 1, 1, 0, 1, 0, 0, 0, 0, x => x, x => x, x => x, 0,
                                      x => x, 0, false, false, false))

  ghost predicate Unchanged(d: Dram, d': Dram, p: Args) {
    forall a :: a in d && !InC(p, a) ==> Get(d', a) == Get(d, a)
  }

  // ---------- the result ----------

  /** A value of C cell (i, j) computed from the initial DRAM. */
  function OutAt(q: Problem, i: int, j: int): int {
    Out(Partial(q.d, q.p, i, j, q.p.dimK), q.p)
  }

  /** The C cell stored at address a, among those selected by `done`. */
  ghost predicate Selects(p: Args, done: (int, int) -> bool, a: int, i: int, j: int) {
    0 <= i < p.dimI && 0 <= j < p.dimJ && done(i, j) && a == CAddr(p, i, j)
  }

  ghost function ValueAt(q: Problem, done: (int, int) -> bool, a: int): int
    requires a in q.d
  {
    if exists i, j :: Selects(q.p, done, a, i, j)
    then var i, j :| Selects(q.p, done, a, i, j); OutAt(q, i, j)
    else q.d[a]
  }

  /** The initial DRAM with exactly the selected C cells final. */
  ghost function After(q: Problem, done: (int, int) -> bool): Dram {
    map a | a in q.d :: ValueAt(q, done, a)
  }

  function All(): (int, int) -> bool { (i, j) => true }
  function Nothing(): (int, int) -> bool { (i, j) => false }

  /** DRAM after the multiply: C holds the product, every other cell is as it was. */
  ghost function Product(d: Dram, p: Args): Dram { After(Problem(d, p), All()) }

  lemma CAddrInjective(p: Args, i: int, j: int, i': int, j': int)
    requires p.strideC >= p.dimJ && 0 <= j < p.dimJ && 0 <= j' < p.dimJ
    requires CAddr(p, i, j) == CAddr(p, i', j')
    ensures i == i' && j == j'
  {
    ElemAddrInjective(p.C, p.strideC * SizeofC(p.fullC), SizeofC(p.fullC), p.dimJ, i, j, i', j');
  }

  lemma AfterCell(q: Placed, done: (int, int) -> bool, i: int, j: int)
    requires 0 <= i < q.p.dimI && 0 <= j < q.p.dimJ
    ensures CAddr(q.p, i, j) in q.d
    ensures After(q, done)[CAddr(q.p, i, j)] == if done(i, j) then OutAt(q, i, j) else q.d[CAddr(q.p, i, j)]
  {
    var a := CAddr(q.p, i, j);
    forall i', j' | Selects(q.p, done, a, i', j') ensures i' == i && j' == j {
      CAddrInjective(q.p, i, j, i', j');
    }
    if done(i, j) {
      assert Selects(q.p, done, a, i, j);
    }
  }

  lemma AfterElsewhere(q: Problem, done: (int, int) -> bool, a: int)
    requires a in q.d && !InC(q.p, a)
    ensures After(q, done)[a] == q.d[a]
  {}

  /** DRAM that agrees with the initial one off C, and on C as `done` says, is After(q, done). */
  lemma IsAfter(q: Placed, done: (int, int) -> bool, d: Dram)
    requires d.Keys == q.d.Keys
    requires forall i, j :: 0 <= i < q.p.dimI && 0 <= j < q.p.dimJ ==>
               Get(d, CAddr(q.p, i, j)) == if done(i, j) then OutAt(q, i, j) else Get(q.d, CAddr(q.p, i, j))
    requires Unchanged(q.d, d, q.p)
    ensures d == After(q, done)
  {
    forall a | a in d
      ensures d[a] == After(q, done)[a]
    {
      if InC(q.p, a) {
        var i, j :| 0 <= i < q.p.dimI && 0 <= j < q.p.dimJ
                    && a == ElemAddr(q.p.C, q.p.strideC * SizeofC(q.p.fullC), SizeofC(q.p.fullC), i, j);
        assert a == CAddr(q.p, i, j);
        AfterCell(q, done, i, j);
        assert Get(d, a) == d[a];
      } else {
        AfterElsewhere(q, done, a);
        assert Get(d, a) == d[a];
      }
    }
  }

  lemma AfterUnchanged(q: Problem, done: (int, int) -> bool)
    ensures Unchanged(q.d, After(q, done), q.p)
  {}

  lemma AfterSame(q: Placed, done: (int, int) -> bool, done': (int, int) -> bool)
    requires forall i, j :: 0 <= i < q.p.dimI && 0 <= j < q.p.dimJ ==> done(i, j) == done'(i, j)
    ensures After(q, done) == After(q, done')
  {
    AfterUnchanged(q, done);
    forall i, j | 0 <= i < q.p.dimI && 0 <= j < q.p.dimJ
      ensures Get(After(q, done), CAddr(q.p, i, j))
           == if done'(i, j) then OutAt(q, i, j) else Get(q.d, CAddr(q.p, i, j))
    {
      AfterCell(q, done, i, j);
    }
    IsAfter(q, done', After(q, done));
  }

  lemma AfterNothing(q: Placed)
    ensures After(q, Nothing()) == q.d
  {
    IsAfter(q, Nothing(), q.d);
  }

  /** Storing the final value of one more cell. */
  lemma AfterStore(q: Placed, done: (int, int) -> bool, i: int, j: int, done': (int, int) -> bool)
    requires 0 <= i < q.p.dimI && 0 <= j < q.p.dimJ
    requires forall i', j' :: 0 <= i' < q.p.dimI && 0 <= j' < q.p.dimJ ==>
               done'(i', j') == (done(i', j') || (i' == i && j' == j))
    ensures After(q, done)[CAddr(q.p, i, j) := OutAt(q, i, j)] == After(q, done')
  {
    var d := After(q, done)[CAddr(q.p, i, j) := OutAt(q, i, j)];
    AfterCell(q, done, i, j);
    AfterUnchanged(q, done);
    assert InC(q.p, CAddr(q.p, i, j));
    forall i', j' | 0 <= i' < q.p.dimI && 0 <= j' < q.p.dimJ
      ensures Get(d, CAddr(q.p, i', j'))
           == if done'(i', j') then OutAt(q, i', j') else Get(q.d, CAddr(q.p, i', j'))
    {
      AfterCell(q, done, i', j');
      if CAddr(q.p, i', j') == CAddr(q.p, i, j) {
        CAddrInjective(q.p, i, j, i', j');
      }
    }
    assert d.Keys == q.d.Keys;
    IsAfter(q, done', d);
  }

  lemma ProductCell(q: Placed, i: int, j: int)
    requires 0 <= i < q.p.dimI && 0 <= j < q.p.dimJ
    ensures Get(Product(q.d, q.p), CAddr(q.p, i, j)) == Out(Partial(q.d, q.p, i, j, q.p.dimK), q.p)
  {
    AfterCell(q, All(), i, j);
    hide After, WellPlaced, Partial, CAddr;
  }
}
