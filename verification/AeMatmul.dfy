/** ae_matmul.c: parallel transpose, then blocked multiply, on `n` cores over shared memory.
    Any core may take the next step; a step is at most one access to shared memory. */
module AeMatmul {
  import opened Arith
  import opened SenseBarrier
  import opened Sums
  import opened Tensor

  datatype Job = Job(L: int, n: nat, A: seq<int>, B: seq<int>) {
    /** lda divisible by ncores and by 8, and small enough for the static array BB. */
    ghost predicate Ok() {
      && n > 0 && L > 0 && L % n == 0 && L % 8 == 0 && L * L <= 1024
      && |A| == L * L && |B| == L * L
    }
    /** Rows of each core, and the first and one-past-last row of core c. */
    function R(): int requires n > 0 { L / n }
    function Lo(c: int): int requires n > 0 { c * R() }
    function Hi(c: int): int requires n > 0 { (c + 1) * R() }
    function Owner(i: int): int requires n > 0 { if R() > 0 then i / R() else 0 }
  }

  type GoodJob = w: Job | w.Ok() ghost witness Job(8, 1, seq(64, i => 0), seq(64, i => 0))

  function Ix(L: int, r: int, c: int): int { r * L + c }

  function Prod(w: Job, j: int, i: int): int -> int { k => At(w.A, Ix(w.L, j, k)) * At(w.B, Ix(w.L, k, i)) }

  /** The first m products of element (j, i) of A * B. */
  function Dot(w: Job, j: int, i: int, m: int): int { Sum(0, m, Prod(w, j, i)) }

  datatype Pc =
    | Transpose(k: int, i: int)                              // head of the inner transpose loop
    | TransposeBarrier(k: int)
    | Read(i: int, j: int, k8: int, q: int, t: int)          // c(q+1) += a(t+1) * b(q+1)[k8+t]
    | Write(i: int, j: int, q: int)                          // C[i+q + j*lda] = c(q+1)
    | MultiplyBarrier(i: int, j: int)
    | Finished

  /** A core's program counter and its running sums c1 to c4. */
  datatype Core = Core(pc: Pc, sums: seq<int>)

  datatype State = State(BB: seq<int>, C: seq<int>, cores: seq<Core>, bar: Barrier)

  const ZEROS: seq<int> := [0, 0, 0, 0]

  function Initial(w: GoodJob, C: seq<int>, BB: seq<int>): State {
    State(BB, C, seq(w.n, c => Core(Transpose(0, w.Lo(c)), ZEROS)), Start(w.n))
  }

  function AfterTranspose(w: GoodJob, c: int, k: int): Core {
    if k + 1 < w.L then Core(Transpose(k + 1, w.Lo(c)), ZEROS) else Core(Read(0, w.Lo(c), 0, 0, 0), ZEROS)
  }

  function AfterMultiply(w: GoodJob, c: int, i: int, j: int): Core {
    if j + 1 < w.Hi(c) then Core(Read(i, j + 1, 0, 0, 0), ZEROS)
    else if i + 4 < w.L then Core(Read(i + 4, w.Lo(c), 0, 0, 0), ZEROS)
    else Core(Finished, ZEROS)
  }

  /** The next term: across the 8 products of a block, then to the next running sum, then to the
      next block of k, then to the stores. */
  function AfterRead(w: GoodJob, i: int, j: int, k8: int, q: int, t: int): Pc {
    if t + 1 < 8 then Read(i, j, k8, q, t + 1)
    else if q + 1 < 4 then Read(i, j, k8, q + 1, 0)
    else if k8 + 8 < w.L then Read(i, j, k8 + 8, 0, 0)
    else Write(i, j, 0)
  }

  /** One step inside, or into, barrier(); `next` is where the core goes once through. */
  function BarrierStep(w: GoodJob, s: State, c: nat, next: Core): State
    requires c < w.n && |s.cores| == w.n && Shaped(s.bar, w.n)
  {
    if s.bar.pos[c] == Outside then s.(bar := Arrive(s.bar, w.n, c))
    else
      var bar := Advance(s.bar, w.n, c);
      s.(bar := bar, cores := if bar.pos[c] == Outside then s.cores[c := next] else s.cores)
  }

  /** The step of core c. */
  function Step(w: GoodJob, s: State, c: nat): State
    requires c < w.n && |s.cores| == w.n && Shaped(s.bar, w.n)
  {
    var core := s.cores[c];
    match core.pc
    case Transpose(k, i) =>
      if i < w.Hi(c)
      then s.(BB := Put(s.BB, Ix(w.L, i, k), At(w.B, Ix(w.L, k, i))),
              cores := s.cores[c := core.(pc := Transpose(k, i + 1))])
      else s.(cores := s.cores[c := core.(pc := TransposeBarrier(k))])
    case TransposeBarrier(k) =>
      BarrierStep(w, s, c, AfterTranspose(w, c, k))
    case Read(i, j, k8, q, t) =>
      var x := At(w.A, Ix(w.L, j, k8 + t)) * At(s.BB, Ix(w.L, i + q, k8 + t));
      s.(cores := s.cores[c := Core(AfterRead(w, i, j, k8, q, t), Put(core.sums, q, At(core.sums, q) + x))])
    case Write(i, j, q) =>
      s.(C := Put(s.C, Ix(w.L, j, i + q), At(core.sums, q)),
         cores := s.cores[c := core.(pc := if q + 1 < 4 then Write(i, j, q + 1) else MultiplyBarrier(i, j))])
    case MultiplyBarrier(i, j) =>
      BarrierStep(w, s, c, AfterMultiply(w, c, i, j))
    case Finished => s
  }

  // ---------- arithmetic of the row split ----------

  lemma RowSplit(w: GoodJob)
    ensures w.R() >= 1 && w.R() * w.n == w.L && w.L >= 8
  {}

  /** Row i belongs to exactly the core Owner(i). */
  lemma OwnerIs(w: GoodJob, c: int, i: int)
    ensures w.R() >= 1
    ensures w.Lo(c) <= i < w.Hi(c) <==> w.Owner(i) == c
    ensures w.Hi(c) == w.Lo(c) + w.R()
    ensures 0 <= i < w.L ==> 0 <= w.Owner(i) < w.n
    ensures 0 <= c < w.n ==> 0 <= w.Lo(c) && w.Hi(c) <= w.L
  {
    RowSplit(w);
    hide Job.R;
    Shares(w.R(), w.n, w.L, c, i);
  }

  lemma IxInjective(L: int, r: int, c: int, r': int, c': int)
    requires 0 <= c < L && 0 <= c' < L && Ix(L, r, c) == Ix(L, r', c')
    ensures r == r' && c == c'
  {
    MixedRadix(r, c, r', c', L);
  }

  lemma IxBound(L: int, r: int, c: int)
    requires 0 <= r < L && 0 <= c < L
    ensures 0 <= Ix(L, r, c) < L * L
  {
    MulLe(0, r, L);
    MulLe(r + 1, L, L);
  }

  /** A store to one element of a matrix, read back. */
  lemma PutCell(s: seq<int>, L: int, r: int, c: int, x: int, r': int, c': int)
    requires |s| >= L * L && 0 <= r < L && 0 <= c < L && 0 <= r' < L && 0 <= c' < L
    ensures At(Put(s, Ix(L, r, c), x), Ix(L, r', c')) == if r' == r && c' == c then x else At(s, Ix(L, r', c'))
  {
    IxBound(L, r, c);
    IxBound(L, r', c');
    if Ix(L, r', c') == Ix(L, r, c) { IxInjective(L, r', c', r, c); }
  }

  // ---------- the invariant ----------

  predicate AtBarrier(pc: Pc) { pc.TransposeBarrier? || pc.MultiplyBarrier? }

  predicate InBlock(w: GoodJob, c: int, i: int, j: int) {
    0 <= i && i + 4 <= w.L && i % 4 == 0 && w.Lo(c) <= j < w.Hi(c)
  }

  predicate PcOk(w: GoodJob, c: int, pc: Pc) {
    match pc
    case Transpose(k, i) => 0 <= k < w.L && w.Lo(c) <= i <= w.Hi(c)
    case TransposeBarrier(k) => 0 <= k < w.L
    case Read(i, j, k8, q, t) =>
      InBlock(w, c, i, j) && 0 <= k8 && k8 + 8 <= w.L && k8 % 8 == 0 && 0 <= q < 4 && 0 <= t < 8
    case Write(i, j, q) => InBlock(w, c, i, j) && 0 <= q < 4
    case MultiplyBarrier(i, j) => InBlock(w, c, i, j)
    case Finished => true
  }

  /** Barriers core c has entered when it is at pc; `inside` tells whether it is in one now. */
  function Arrivals(w: GoodJob, c: int, pc: Pc, inside: bool): int {
    match pc
    case Transpose(k, i) => k
    case TransposeBarrier(k) => k + (if inside then 1 else 0)
    case Read(i, j, k8, q, t) => w.L + i / 4 * w.R() + (j - w.Lo(c))
    case Write(i, j, q) => w.L + i / 4 * w.R() + (j - w.Lo(c))
    case MultiplyBarrier(i, j) => w.L + i / 4 * w.R() + (j - w.Lo(c)) + (if inside then 1 else 0)
    case Finished => w.L + w.L / 4 * w.R()
  }

  /** Products already in running sum x at Read(i, j, k8, q, t). */
  function Mark(k8: int, q: int, t: int, x: int): int {
    if x < q then k8 + 8 else if x == q then k8 + t else k8
  }

  ghost predicate SumsOk(w: GoodJob, core: Core) {
    && |core.sums| == 4
    && (core.pc.Read? ==> forall x :: 0 <= x < 4 ==>
          core.sums[x] == Dot(w, core.pc.j, core.pc.i + x, Mark(core.pc.k8, core.pc.q, core.pc.t, x)))
    && (core.pc.Write? ==> forall x :: 0 <= x < 4 ==>
          core.sums[x] == Dot(w, core.pc.j, core.pc.i + x, w.L))
  }

  ghost predicate CoreOk(w: GoodJob, s: State, c: int)
    requires 0 <= c < |s.cores| && c < |s.bar.pos| && c < |s.bar.arrived|
  {
    && PcOk(w, c, s.cores[c].pc) && SumsOk(w, s.cores[c])
    && (s.bar.pos[c] != Outside ==> AtBarrier(s.cores[c].pc))
    && s.bar.arrived[c] == Arrivals(w, c, s.cores[c].pc, s.bar.pos[c] != Outside)
  }

  /** Whether a core at pc has stored its row i of column k of the transpose. */
  predicate WroteBB(pc: Pc, k: int, i: int) {
    match pc
    case Transpose(k0, i0) => k < k0 || (k == k0 && i < i0)
    case TransposeBarrier(k0) => k <= k0
    case _ => true
  }

  /** Whether a core at pc has stored its row j of column i of the product. */
  predicate WroteC(pc: Pc, i: int, j: int) {
    match pc
    case Transpose(_, _) => false
    case TransposeBarrier(_) => false
    case Read(i0, j0, _, _, _) => i < i0 || (i < i0 + 4 && j < j0)
    case Write(i0, j0, q) => i < i0 || (i < i0 + 4 && j < j0) || (j == j0 && i < i0 + q)
    case MultiplyBarrier(i0, j0) => i < i0 || (i < i0 + 4 && j <= j0)
    case Finished => true
  }

  ghost predicate TransposeOk(w: GoodJob, s: State)
    requires |s.cores| == w.n
  {
    forall k, i :: 0 <= k < w.L && 0 <= i < w.L && (RowOwner(w, i); WroteBB(s.cores[w.Owner(i)].pc, k, i)) ==>
      At(s.BB, Ix(w.L, i, k)) == At(w.B, Ix(w.L, k, i))
  }

  ghost predicate ProductOk(w: GoodJob, s: State)
    requires |s.cores| == w.n
  {
    forall i, j :: 0 <= i < w.L && 0 <= j < w.L && (RowOwner(w, j); WroteC(s.cores[w.Owner(j)].pc, i, j)) ==>
      At(s.C, Ix(w.L, j, i)) == Dot(w, j, i, w.L)
  }

  lemma RowOwner(w: GoodJob, i: int)
    requires 0 <= i < w.L
    ensures w.R() >= 1 && 0 <= w.Owner(i) < w.n
  {
    OwnerIs(w, 0, i);
  }

  ghost predicate Inv(w: GoodJob, s: State) {
    && |s.BB| >= w.L * w.L && |s.C| >= w.L * w.L && |s.cores| == w.n
    && BarrierInv(s.bar, w.n)
    && (forall c :: 0 <= c < w.n ==> CoreOk(w, s, c))
    && TransposeOk(w, s)
    && ProductOk(w, s)
  }

  // ---------- one step keeps the invariant ----------

  /** s' is s with core c replaced, memories aside. */
  ghost predicate Moves(w: GoodJob, s: State, s': State, c: int) {
    && |s.cores| == w.n && |s'.cores| == w.n && 0 <= c < w.n
    && (forall c' :: 0 <= c' < w.n && c' != c ==> s'.cores[c'] == s.cores[c'])
  }

  lemma TransposeKept(w: GoodJob, s: State, s': State, c: int)
    requires Moves(w, s, s', c) && TransposeOk(w, s) && s'.BB == s.BB
    requires forall k, i :: 0 <= k < w.L && w.Lo(c) <= i < w.Hi(c) && WroteBB(s'.cores[c].pc, k, i) ==>
               WroteBB(s.cores[c].pc, k, i)
    ensures TransposeOk(w, s')
  {
    forall k, i | 0 <= k < w.L && 0 <= i < w.L && (RowOwner(w, i); WroteBB(s'.cores[w.Owner(i)].pc, k, i))
      ensures At(s'.BB, Ix(w.L, i, k)) == At(w.B, Ix(w.L, k, i))
    {
      RowOwner(w, i);
      OwnerIs(w, c, i);
      hide Job.Owner, Job.R, Job.Lo, Job.Hi, Ix;
      assert WroteBB(s.cores[w.Owner(i)].pc, k, i);
    }
  }

  lemma ProductKept(w: GoodJob, s: State, s': State, c: int)
    requires Moves(w, s, s', c) && ProductOk(w, s) && s'.C == s.C
    requires forall i, j :: 0 <= i < w.L && w.Lo(c) <= j < w.Hi(c) && WroteC(s'.cores[c].pc, i, j) ==>
               WroteC(s.cores[c].pc, i, j)
    ensures ProductOk(w, s')
  {
    forall i, j | 0 <= i < w.L && 0 <= j < w.L && (RowOwner(w, j); WroteC(s'.cores[w.Owner(j)].pc, i, j))
      ensures At(s'.C, Ix(w.L, j, i)) == Dot(w, j, i, w.L)
    {
      RowOwner(w, j);
      OwnerIs(w, c, j);
      hide Job.Owner, Job.R, Job.Lo, Job.Hi, Ix, Dot;
      assert WroteC(s.cores[w.Owner(j)].pc, i, j);
    }
  }

  /** A core that moves without touching the barrier leaves the others' part of the invariant. */
  lemma CoresKept(w: GoodJob, s: State, s': State, c: int)
    requires Inv(w, s) && Moves(w, s, s', c) && s'.bar == s.bar && CoreOk(w, s', c)
    ensures forall c' :: 0 <= c' < w.n ==> CoreOk(w, s', c')
  {
    forall c' | 0 <= c' < w.n ensures CoreOk(w, s', c') {
      assert CoreOk(w, s, c');
    }
  }

  lemma TransposeStep(w: GoodJob, s: State, c: nat)
    requires Inv(w, s) && c < w.n && s.cores[c].pc.Transpose?
    ensures Inv(w, Step(w, s, c))
  {
    var Transpose(k, i) := s.cores[c].pc;
    var s' := Step(w, s, c);
    assert CoreOk(w, s, c);
    OwnerIs(w, c, i);
    assert CoreOk(w, s', c);
    CoresKept(w, s, s', c);
    hide Job.R;
    ProductKept(w, s, s', c);
    if i < w.Hi(c) {
      TransposeWrite(w, s, s', c, k, i);
    } else {
      TransposeKept(w, s, s', c);
    }
  }

  lemma TransposeWrite(w: GoodJob, s: State, s': State, c: nat, k: int, i: int)
    requires Moves(w, s, s', c) && TransposeOk(w, s) && |s.BB| >= w.L * w.L
    requires 0 <= k < w.L && 0 <= i < w.L && w.Owner(i) == c
    requires s.cores[c].pc == Transpose(k, i) && s'.cores[c].pc == Transpose(k, i + 1)
    requires s'.BB == Put(s.BB, Ix(w.L, i, k), At(w.B, Ix(w.L, k, i)))
    ensures TransposeOk(w, s')
  {
    hide Ix, Put, At, Job.Owner, Job.R, Job.Lo, Job.Hi;
    forall k', i' | 0 <= k' < w.L && 0 <= i' < w.L && (RowOwner(w, i'); WroteBB(s'.cores[w.Owner(i')].pc, k', i'))
      ensures At(s'.BB, Ix(w.L, i', k')) == At(w.B, Ix(w.L, k', i'))
    {
      RowOwner(w, i');
      PutCell(s.BB, w.L, i, k, At(w.B, Ix(w.L, k, i)), i', k');
      if !(i' == i && k' == k) {
        assert WroteBB(s.cores[w.Owner(i')].pc, k', i');
      }
    }
  }

  lemma BlockArrivals(w: GoodJob, c: int, i: int, j: int)
    requires InBlock(w, c, i, j)
    ensures i / 4 * w.R() + (j - w.Lo(c)) >= 0
  {}

  /** Once some core is past the transpose barriers, every core has stored all of its part of BB. */
  lemma TransposeFinished(w: GoodJob, s: State, c: nat, c': nat)
    requires Inv(w, s) && c < w.n && c' < w.n
    requires s.cores[c].pc.Read? || s.cores[c].pc.Write? || s.cores[c].pc.MultiplyBarrier? || s.cores[c].pc.Finished?
    ensures !s.cores[c'].pc.Transpose?
    ensures forall k, i :: 0 <= k < w.L ==> WroteBB(s.cores[c'].pc, k, i)
  {
    assert CoreOk(w, s, c) && CoreOk(w, s, c');
    RowSplit(w);
    MulLe(0, w.L / 4, w.R());
    match s.cores[c].pc {
      case Read(i, j, _, _, _) => BlockArrivals(w, c, i, j);
      case Write(i, j, _) => BlockArrivals(w, c, i, j);
      case MultiplyBarrier(i, j) => BlockArrivals(w, c, i, j);
      case _ =>
    }
    ArrivedPast(w, s, c, c');
  }

  lemma ArrivedPast(w: GoodJob, s: State, c: nat, c': nat)
    requires Inv(w, s) && c < w.n && c' < w.n
    requires s.bar.arrived[c] - (if s.bar.pos[c] == Outside then 0 else 1) >= w.L
    ensures s.bar.arrived[c'] >= w.L
  {}

  /** Every element of BB that is read holds its final value. */
  lemma ReadsAreFinal(w: GoodJob, s: State, c: nat, k: int, i: int)
    requires Inv(w, s) && c < w.n && s.cores[c].pc.Read?
    requires 0 <= k < w.L && 0 <= i < w.L
    ensures 0 <= Ix(w.L, i, k) < |s.BB|
    ensures At(s.BB, Ix(w.L, i, k)) == At(w.B, Ix(w.L, k, i))
  {
    RowOwner(w, i);
    IxBound(w.L, i, k);
    TransposeFinished(w, s, c, w.Owner(i));
  }

  lemma SumsStep(w: GoodJob, i: int, j: int, k8: int, q: int, t: int, sums: seq<int>, x: int)
    requires SumsOk(w, Core(Read(i, j, k8, q, t), sums)) && 0 <= q < 4 && 0 <= t < 8 && k8 >= 0 && k8 + 8 <= w.L
    requires w.L % 8 == 0 && k8 % 8 == 0
    requires x == Prod(w, j, i + q)(k8 + t)
    ensures SumsOk(w, Core(AfterRead(w, i, j, k8, q, t), Put(sums, q, At(sums, q) + x)))
  {
    hide Prod, Sum, Dot;
    DotNext(w, j, i + q, k8 + t);
  }

  lemma DotNext(w: GoodJob, j: int, i: int, m: int)
    requires m >= 0
    ensures Dot(w, j, i, m + 1) == Dot(w, j, i, m) + Prod(w, j, i)(m)
  {
    hide Prod;
  }

  lemma ReadStep(w: GoodJob, s: State, c: nat)
    requires Inv(w, s) && c < w.n && s.cores[c].pc.Read?
    ensures Inv(w, Step(w, s, c))
  {
    var s' := Step(w, s, c);
    ReadCore(w, s, c);
    CoresKept(w, s, s', c);
    assert CoreOk(w, s, c);
    hide Job.R, Job.Lo, Job.Hi, SumsOk, CoreOk, BarrierInv;
    TransposeKept(w, s, s', c);
    ProductKept(w, s, s', c);
  }

  lemma ReadCore(w: GoodJob, s: State, c: nat)
    requires Inv(w, s) && c < w.n && s.cores[c].pc.Read?
    ensures CoreOk(w, Step(w, s, c), c)
  {
    var Read(i, j, k8, q, t) := s.cores[c].pc;
    ReadCoreOk(w, s, Step(w, s, c), c, i, j, k8, q, t, s.cores[c].sums);
  }

  lemma ReadCoreOk(w: GoodJob, s: State, s': State, c: nat, i: int, j: int, k8: int, q: int, t: int, sums: seq<int>)
    requires Inv(w, s) && c < w.n && s.cores[c] == Core(Read(i, j, k8, q, t), sums) && s' == Step(w, s, c)
    ensures CoreOk(w, s', c)
  {
    ReadStepIs(w, s, c, i, j, k8, q, t, sums);
    hide Step, Inv, SumsOk, Prod, Ix, Dot, AfterRead, Put, At, PcOk, Arrivals, CoreOk;
    ReadFacts(w, s, c, i, j, k8, q, t, sums);
    ReadAgain(w, c, i, j, k8, q, t, sums);
    CoreOkIs(w, s', c);
  }

  lemma ReadAgain(w: GoodJob, c: int, i: int, j: int, k8: int, q: int, t: int, sums: seq<int>)
    requires PcOk(w, c, Read(i, j, k8, q, t)) && SumsOk(w, Core(Read(i, j, k8, q, t), sums))
    ensures var pc := AfterRead(w, i, j, k8, q, t);
      && PcOk(w, c, pc) && SumsOk(w, Core(pc, Put(sums, q, At(sums, q) + Prod(w, j, i + q)(k8 + t))))
      && Arrivals(w, c, pc, false) == Arrivals(w, c, Read(i, j, k8, q, t), false)
  {
    hide SumsOk, Prod, Ix, Dot, AfterRead, Put, At, PcOk, Arrivals;
    ReadPc(w, c, i, j, k8, q, t);
    PcFacts(w, c, i, j, k8, q, t);
    SumsStep(w, i, j, k8, q, t, sums, Prod(w, j, i + q)(k8 + t));
  }

  lemma CoreOkIs(w: GoodJob, s: State, c: nat)
    requires c < |s.cores| && c < |s.bar.pos| && c < |s.bar.arrived|
    requires PcOk(w, c, s.cores[c].pc) && SumsOk(w, s.cores[c]) && s.bar.pos[c] == Outside
    requires s.bar.arrived[c] == Arrivals(w, c, s.cores[c].pc, false)
    ensures CoreOk(w, s, c)
  {}

  lemma ReadFacts(w: GoodJob, s: State, c: nat, i: int, j: int, k8: int, q: int, t: int, sums: seq<int>)
    requires Inv(w, s) && c < w.n && s.cores[c] == Core(Read(i, j, k8, q, t), sums)
    ensures PcOk(w, c, Read(i, j, k8, q, t)) && SumsOk(w, Core(Read(i, j, k8, q, t), sums))
    ensures s.bar.pos[c] == Outside && s.bar.arrived[c] == Arrivals(w, c, Read(i, j, k8, q, t), false)
  {
    assert CoreOk(w, s, c);
    hide TransposeOk, ProductOk, BarrierInv, SumsOk, PcOk, Arrivals;
  }

  lemma PcFacts(w: GoodJob, c: int, i: int, j: int, k8: int, q: int, t: int)
    requires PcOk(w, c, Read(i, j, k8, q, t))
    ensures 0 <= q < 4 && 0 <= t < 8 && k8 >= 0 && k8 + 8 <= w.L && k8 % 8 == 0 && w.L % 8 == 0
  {}

  lemma ReadRange(w: GoodJob, c: int, i: int, j: int, k8: int, q: int, t: int)
    requires PcOk(w, c, Read(i, j, k8, q, t))
    ensures 0 <= k8 + t < w.L && 0 <= i + q < w.L
  {}

  /** A read step adds the next true product, BB standing in for B transposed. */
  lemma ReadStepIs(w: GoodJob, s: State, c: nat, i: int, j: int, k8: int, q: int, t: int, sums: seq<int>)
    requires Inv(w, s) && c < w.n && s.cores[c] == Core(Read(i, j, k8, q, t), sums)
    ensures Step(w, s, c) == s.(cores := s.cores[c := Core(AfterRead(w, i, j, k8, q, t),
      Put(sums, q, At(sums, q) + Prod(w, j, i + q)(k8 + t)))])
  {
    hide CoreOk, PcOk, SumsOk, TransposeOk, ProductOk, BarrierInv, AfterRead, Ix, Put, Job.R, Job.Lo, Job.Hi;
    ReadFacts(w, s, c, i, j, k8, q, t, sums);
    PcFacts(w, c, i, j, k8, q, t);
    ReadRange(w, c, i, j, k8, q, t);
    ReadsAreFinal(w, s, c, k8 + t, i + q);
  }

  lemma ReadPc(w: GoodJob, c: int, i: int, j: int, k8: int, q: int, t: int)
    requires PcOk(w, c, Read(i, j, k8, q, t))
    ensures PcOk(w, c, AfterRead(w, i, j, k8, q, t))
    ensures Arrivals(w, c, AfterRead(w, i, j, k8, q, t), false) == Arrivals(w, c, Read(i, j, k8, q, t), false)
  {
    hide Job.R, Job.Lo, Job.Hi;
  }

  lemma WriteStep(w: GoodJob, s: State, c: nat)
    requires Inv(w, s) && c < w.n && s.cores[c].pc.Write?
    ensures Inv(w, Step(w, s, c))
  {
    var Write(i, j, q) := s.cores[c].pc;
    var s' := Step(w, s, c);
    WriteCore(w, s, c);
    WriteChange(w, s, s', c, i, j, q);
    hide Step, Dot, CoreOk, BarrierInv, TransposeOk, ProductOk, Ix, Put;
    CoresKept(w, s, s', c);
    TransposeKept(w, s, s', c);
    ProductWrite(w, s, s', c, i, j, q);
  }

  /** A write step stores one finished running sum, in a row of the core's own. */
  lemma WriteChange(w: GoodJob, s: State, s': State, c: nat, i: int, j: int, q: int)
    requires Inv(w, s) && c < w.n && s.cores[c].pc == Write(i, j, q) && s' == Step(w, s, c)
    ensures Moves(w, s, s', c) && s'.BB == s.BB && s'.bar == s.bar
    ensures 0 <= i && i + 4 <= w.L && 0 <= j < w.L && 0 <= q < 4 && w.Owner(j) == c
    ensures s'.cores[c].pc == if q + 1 < 4 then Write(i, j, q + 1) else MultiplyBarrier(i, j)
    ensures s'.C == Put(s.C, Ix(w.L, j, i + q), Dot(w, j, i + q, w.L))
  {
    hide Dot, TransposeOk, ProductOk, Ix, Put, SumsOk;
    assert CoreOk(w, s, c);
    OwnerIs(w, c, j);
    WriteCore(w, s, c);
    hide Job.R, Job.Lo, Job.Hi, Job.Owner, BarrierInv;
  }

  lemma WriteCore(w: GoodJob, s: State, c: nat)
    requires Inv(w, s) && c < w.n && s.cores[c].pc.Write?
    ensures CoreOk(w, Step(w, s, c), c)
    ensures At(s.cores[c].sums, s.cores[c].pc.q) == Dot(w, s.cores[c].pc.j, s.cores[c].pc.i + s.cores[c].pc.q, w.L)
  {
    hide Job.R, Job.Lo, Job.Hi, TransposeOk, ProductOk, Dot, Ix, Put;
    assert CoreOk(w, s, c);
  }

  lemma ProductWrite(w: GoodJob, s: State, s': State, c: nat, i: int, j: int, q: int)
    requires Moves(w, s, s', c) && ProductOk(w, s) && |s.C| >= w.L * w.L
    requires 0 <= i && i + 4 <= w.L && 0 <= j < w.L && 0 <= q < 4 && w.Owner(j) == c
    requires s.cores[c].pc == Write(i, j, q)
    requires s'.cores[c].pc == if q + 1 < 4 then Write(i, j, q + 1) else MultiplyBarrier(i, j)
    requires s'.C == Put(s.C, Ix(w.L, j, i + q), Dot(w, j, i + q, w.L))
    ensures ProductOk(w, s')
  {
    hide Ix, Put, At, Job.Owner, Job.R, Job.Lo, Job.Hi, Dot;
    forall i', j' | 0 <= i' < w.L && 0 <= j' < w.L && (RowOwner(w, j'); WroteC(s'.cores[w.Owner(j')].pc, i', j'))
      ensures At(s'.C, Ix(w.L, j', i')) == Dot(w, j', i', w.L)
    {
      RowOwner(w, j');
      PutCell(s.C, w.L, j, i + q, Dot(w, j, i + q, w.L), j', i');
      if !(i' == i + q && j' == j) {
        assert WroteC(s.cores[w.Owner(j')].pc, i', j');
      }
    }
  }

  /** Where a core goes once through the barrier at pc. */
  function NextCore(w: GoodJob, c: int, pc: Pc): Core
    requires AtBarrier(pc)
  {
    match pc
    case TransposeBarrier(k) => AfterTranspose(w, c, k)
    case MultiplyBarrier(i, j) => AfterMultiply(w, c, i, j)
  }

  lemma NextFourRows(i: int, r: int)
    ensures (i + 4) / 4 == i / 4 + 1 && (i / 4 + 1) * r == i / 4 * r + r
  {}

  lemma NextCoreOk(w: GoodJob, c: int, pc: Pc)
    requires 0 <= c < w.n && AtBarrier(pc) && PcOk(w, c, pc)
    ensures var next := NextCore(w, c, pc);
      && PcOk(w, c, next.pc) && SumsOk(w, next) && !AtBarrier(next.pc)
      && Arrivals(w, c, next.pc, false) == Arrivals(w, c, pc, true)
  {
    assert w.L % 8 == 0;
    hide *;
    OwnerIs(w, c, 0);
    RowSplit(w);
    NextCases(w, c, pc);
    match pc
    case TransposeBarrier(k) => FirstPcs(w, c, k);
    case MultiplyBarrier(i, j) => NextPcs(w, c, i, j);
  }

  lemma NextCases(w: GoodJob, c: int, pc: Pc)
    requires AtBarrier(pc)
    ensures var next := NextCore(w, c, pc); SumsOk(w, next) && !AtBarrier(next.pc)
    ensures match pc
      case TransposeBarrier(k) =>
        NextCore(w, c, pc) == AfterTranspose(w, c, k) && (PcOk(w, c, pc) ==> 0 <= k < w.L)
      case MultiplyBarrier(i, j) =>
        NextCore(w, c, pc) == AfterMultiply(w, c, i, j) && (PcOk(w, c, pc) ==> InBlock(w, c, i, j) && i % 4 == 0)
  {
    hide SumsOk, Job.Lo, Job.Hi, Job.Ok;
    ZeroSums(w, NextCore(w, c, pc));
  }

  lemma NextPcs(w: GoodJob, c: int, i: int, j: int)
    requires InBlock(w, c, i, j) && i % 4 == 0 && w.L % 8 == 0 && w.L >= 8
    requires w.Hi(c) == w.Lo(c) + w.R() && w.R() >= 1
    ensures var pc := AfterMultiply(w, c, i, j).pc;
      PcOk(w, c, pc) && Arrivals(w, c, pc, false) == Arrivals(w, c, MultiplyBarrier(i, j), true)
  {
    hide *;
    NextBlock(i, w.L);
    NextArrivals(w, c, i, j);
    NextPcOk(w, c, i, j);
  }

  lemma NextPcOk(w: GoodJob, c: int, i: int, j: int)
    requires InBlock(w, c, i, j) && w.Hi(c) == w.Lo(c) + w.R() && w.R() >= 1 && w.L >= 8
    requires (i + 4) % 4 == 0 && (i + 4 < w.L ==> i + 8 <= w.L)
    ensures PcOk(w, c, AfterMultiply(w, c, i, j).pc)
  {
    hide Job.R, Job.Lo, Job.Hi, Job.Ok;
  }

  lemma NextBlock(i: int, L: int)
    requires L % 8 == 0
    ensures L % 4 == 0
    ensures i % 4 == 0 ==> (i + 4) % 4 == 0 && (i + 4 < L ==> i + 8 <= L)
  {}

  lemma FirstPcs(w: GoodJob, c: int, k: int)
    requires 0 <= k < w.L && w.Lo(c) < w.Hi(c) && w.L >= 8
    ensures var pc := AfterTranspose(w, c, k).pc;
      PcOk(w, c, pc) && Arrivals(w, c, pc, false) == Arrivals(w, c, TransposeBarrier(k), true)
  {
    hide Job.R, Job.Lo, Job.Hi;
    NextFourRows(0, w.R());
  }

  lemma ZeroSums(w: GoodJob, core: Core)
    requires core.sums == ZEROS && (core.pc.Read? ==> core.pc.k8 == 0 && core.pc.q == 0 && core.pc.t == 0)
    requires !core.pc.Write?
    ensures SumsOk(w, core)
  {
    hide Prod;
  }

  lemma NextArrivals(w: GoodJob, c: int, i: int, j: int)
    requires InBlock(w, c, i, j) && w.L % 4 == 0 && w.Hi(c) == w.Lo(c) + w.R() && w.R() >= 1
    ensures Arrivals(w, c, AfterMultiply(w, c, i, j).pc, false) == Arrivals(w, c, MultiplyBarrier(i, j), true)
  {
    hide Job.R, Job.Lo, Job.Hi;
    NextFourRows(i, w.R());
    if i + 4 >= w.L { assert w.L / 4 == (i + 4) / 4; }
  }

  lemma NextCoreWrites(w: GoodJob, c: int, pc: Pc)
    requires 0 <= c < w.n && AtBarrier(pc) && PcOk(w, c, pc)
    ensures var next := NextCore(w, c, pc);
      && (forall k, i :: 0 <= k < w.L && w.Lo(c) <= i < w.Hi(c) && WroteBB(next.pc, k, i) ==> WroteBB(pc, k, i))
      && (forall i, j :: 0 <= i < w.L && w.Lo(c) <= j < w.Hi(c) && WroteC(next.pc, i, j) ==> WroteC(pc, i, j))
  {}

  /** The barrier's own record changes only for the core that steps. */
  ghost predicate BarMoves(w: GoodJob, b: Barrier, b': Barrier, c: int) {
    && Shaped(b, w.n) && Shaped(b', w.n) && 0 <= c < w.n
    && (forall c' :: 0 <= c' < w.n && c' != c ==> b'.pos[c'] == b.pos[c'] && b'.arrived[c'] == b.arrived[c'])
  }

  lemma CoresKeptBar(w: GoodJob, s: State, s': State, c: int)
    requires Inv(w, s) && Moves(w, s, s', c) && BarMoves(w, s.bar, s'.bar, c) && CoreOk(w, s', c)
    ensures forall c' :: 0 <= c' < w.n ==> CoreOk(w, s', c')
  {
    forall c' | 0 <= c' < w.n ensures CoreOk(w, s', c') {
      assert CoreOk(w, s, c');
    }
  }

  lemma BarrierCore(w: GoodJob, s: State, c: nat)
    requires Inv(w, s) && c < w.n && AtBarrier(s.cores[c].pc)
    ensures var s' := BarrierStep(w, s, c, NextCore(w, c, s.cores[c].pc));
      CoreOk(w, s', c) && BarMoves(w, s.bar, s'.bar, c) && Moves(w, s, s', c)
  {
    assert CoreOk(w, s, c);
    NextCoreOk(w, c, s.cores[c].pc);
    hide NextCore, PcOk, SumsOk, TransposeOk, ProductOk, Job.R, Job.Lo, Job.Hi;
  }

  lemma BarrierCase(w: GoodJob, s: State, c: nat)
    requires Inv(w, s) && c < w.n && AtBarrier(s.cores[c].pc)
    ensures Inv(w, BarrierStep(w, s, c, NextCore(w, c, s.cores[c].pc)))
  {
    var s' := BarrierStep(w, s, c, NextCore(w, c, s.cores[c].pc));
    assert CoreOk(w, s, c);
    BarrierCore(w, s, c);
    CoresKeptBar(w, s, s', c);
    NextCoreWrites(w, c, s.cores[c].pc);
    assert BarrierInv(s'.bar, w.n) by {
      if s.bar.pos[c] == Outside { ArriveInv(s.bar, w.n, c); } else { AdvanceInv(s.bar, w.n, c); }
      hide BarrierInv, NextCore, TransposeOk, ProductOk, CoreOk;
    }
    hide NextCore, CoreOk, BarrierInv, Job.R, Job.Lo, Job.Hi;
    TransposeKept(w, s, s', c);
    ProductKept(w, s, s', c);
  }

  /** Every step of every core keeps the invariant. */
  lemma StepInv(w: GoodJob, s: State, c: nat)
    requires Inv(w, s) && c < w.n
    ensures Inv(w, Step(w, s, c))
  {
    match s.cores[c].pc
    case Transpose(_, _) => TransposeStep(w, s, c);
    case TransposeBarrier(_) => BarrierCase(w, s, c);
    case Read(_, _, _, _, _) => ReadStep(w, s, c);
    case Write(_, _, _) => WriteStep(w, s, c);
    case MultiplyBarrier(_, _) => BarrierCase(w, s, c);
    case Finished =>
  }

  // ---------- whole runs ----------

  /** The state after the cores named by the schedule have stepped in that order; every
      interleaving is such a schedule. */
  ghost function Exec(w: GoodJob, s: State, schedule: seq<nat>): State {
    if schedule == [] then s
    else
      var before := Exec(w, s, schedule[..|schedule| - 1]);
      var c := schedule[|schedule| - 1];
      if c < w.n && |before.cores| == w.n && Shaped(before.bar, w.n) then Step(w, before, c) else before
  }

  lemma InitialInv(w: GoodJob, C: seq<int>, BB: seq<int>)
    requires |C| >= w.L * w.L && |BB| >= w.L * w.L
    ensures Inv(w, Initial(w, C, BB))
  {
    var s := Initial(w, C, BB);
    StartInv(w.n);
    forall c | 0 <= c < w.n ensures CoreOk(w, s, c) {
      OwnerIs(w, c, 0);
      RowSplit(w);
    }
    forall k, i | 0 <= k < w.L && 0 <= i < w.L
      ensures (RowOwner(w, i); !WroteBB(s.cores[w.Owner(i)].pc, k, i) && !WroteC(s.cores[w.Owner(i)].pc, k, i))
    {
      RowOwner(w, i);
      OwnerIs(w, w.Owner(i), i);
    }
  }

  lemma {:induction false} ExecInv(w: GoodJob, s: State, schedule: seq<nat>)
    requires Inv(w, s)
    ensures Inv(w, Exec(w, s, schedule))
  {
    if schedule != [] {
      ExecInv(w, s, schedule[..|schedule| - 1]);
      var c := schedule[|schedule| - 1];
      if c < w.n {
        StepInv(w, Exec(w, s, schedule[..|schedule| - 1]), c);
      }
      hide CoreOk, BarrierInv, TransposeOk, ProductOk, Step;
    }
  }

  ghost predicate AllFinished(w: GoodJob, s: State) {
    |s.cores| == w.n && forall c :: 0 <= c < w.n ==> s.cores[c].pc.Finished?
  }

  /** Whatever the interleaving, when all cores have finished C is A * B. */
  lemma FinalProduct(w: GoodJob, C: seq<int>, BB: seq<int>, schedule: seq<nat>, i: int, j: int)
    requires |C| >= w.L * w.L && |BB| >= w.L * w.L
    requires AllFinished(w, Exec(w, Initial(w, C, BB), schedule)) && 0 <= i < w.L && 0 <= j < w.L
    ensures At(Exec(w, Initial(w, C, BB), schedule).C, j * w.L + i) == Sum(0, w.L, Prod(w, j, i))
  {
    hide Inv, Exec, Initial, Ix, AllFinished;
    InitialInv(w, C, BB);
    ExecInv(w, Initial(w, C, BB), schedule);
    FinishedProduct(w, Exec(w, Initial(w, C, BB), schedule), i, j);
    RowMajor(w.L, j, i);
  }

  lemma RowMajor(L: int, r: int, c: int)
    ensures Ix(L, r, c) == r * L + c
  {}

  /** The terms of the product: row j of A by column i of B, both row-major. */
  lemma ProductTerm(w: GoodJob, j: int, i: int, k: int)
    ensures Prod(w, j, i)(k) == At(w.A, j * w.L + k) * At(w.B, k * w.L + i)
  {}

  lemma FinishedProduct(w: GoodJob, s: State, i: int, j: int)
    requires Inv(w, s) && AllFinished(w, s) && 0 <= i < w.L && 0 <= j < w.L
    ensures At(s.C, Ix(w.L, j, i)) == Sum(0, w.L, Prod(w, j, i))
  {
    RowOwner(w, j);
    hide CoreOk, BarrierInv, TransposeOk;
  }

  // ---------- races ----------

  datatype Access = NoAccess | ReadsBB(ix: int) | WritesBB(ix: int) | WritesC(ix: int)

  /** The array access core c makes in its next step. */
  function Next(w: GoodJob, s: State, c: nat): Access
    requires c < |s.cores|
  {
    match s.cores[c].pc
    case Transpose(k, i) => if i < w.Hi(c) then WritesBB(Ix(w.L, i, k)) else NoAccess
    case Read(i, j, k8, q, t) => ReadsBB(Ix(w.L, i + q, k8 + t))
    case Write(i, j, q) => WritesC(Ix(w.L, j, i + q))
    case _ => NoAccess
  }

  /** Next names every write of a step. */
  lemma NextWrites(w: GoodJob, s: State, c: nat, x: int)
    requires c < w.n && |s.cores| == w.n && Shaped(s.bar, w.n)
    ensures At(Step(w, s, c).BB, x) != At(s.BB, x) ==> Next(w, s, c) == WritesBB(x)
    ensures At(Step(w, s, c).C, x) != At(s.C, x) ==> Next(w, s, c) == WritesC(x)
  {
    hide AfterTranspose, AfterMultiply, AfterRead, BarrierStep;
    if s.cores[c].pc.TransposeBarrier? || s.cores[c].pc.MultiplyBarrier? {
      BarrierKeeps(w, s, c);
    }
  }

  lemma BarrierKeeps(w: GoodJob, s: State, c: nat)
    requires c < w.n && |s.cores| == w.n && Shaped(s.bar, w.n)
    ensures forall next :: BarrierStep(w, s, c, next).BB == s.BB && BarrierStep(w, s, c, next).C == s.C
  {}

  /** And the one element of BB it depends on, if any. */
  lemma NextReads(w: GoodJob, s: State, c: nat, BB: seq<int>)
    requires c < w.n && |s.cores| == w.n && Shaped(s.bar, w.n)
    requires Next(w, s, c).ReadsBB? ==> At(BB, Next(w, s, c).ix) == At(s.BB, Next(w, s, c).ix)
    ensures var s1, s2 := Step(w, s, c), Step(w, s.(BB := BB), c);
      s1.C == s2.C && s1.cores == s2.cores && s1.bar == s2.bar
  {
    hide AfterTranspose, AfterMultiply, AfterRead;
  }

  /** In no reachable state are two cores about to race on a cell of BB or C. */
  lemma NoRace(w: GoodJob, s: State, c: nat, c': nat)
    requires Inv(w, s) && c < w.n && c' < w.n && c != c'
    ensures var a, b := Next(w, s, c), Next(w, s, c');
      (a.WritesBB? && (b.WritesBB? || b.ReadsBB?)) || (a.ReadsBB? && b.WritesBB?) || (a.WritesC? && b.WritesC?)
      ==> a.ix != b.ix
  {
    assert CoreOk(w, s, c) && CoreOk(w, s, c');
    var a, b := Next(w, s, c), Next(w, s, c');
    if a.ReadsBB? { TransposeFinished(w, s, c, c'); }
    if b.ReadsBB? { TransposeFinished(w, s, c', c); }
    if a.WritesBB? && b.WritesBB? {
      NoSharedRow(w, c, c', s.cores[c].pc.i, s.cores[c].pc.k, s.cores[c'].pc.i, s.cores[c'].pc.k);
    }
    if a.WritesC? && b.WritesC? {
      NoSharedRow(w, c, c', s.cores[c].pc.j, s.cores[c].pc.i + s.cores[c].pc.q,
                  s.cores[c'].pc.j, s.cores[c'].pc.i + s.cores[c'].pc.q);
    }
  }

  lemma NoSharedRow(w: GoodJob, c: int, c': int, r: int, x: int, r': int, x': int)
    requires c != c' && w.Lo(c) <= r < w.Hi(c) && w.Lo(c') <= r' < w.Hi(c')
    requires 0 <= x < w.L && 0 <= x' < w.L
    ensures Ix(w.L, r, x) != Ix(w.L, r', x')
  {
    OwnerIs(w, c, r);
    OwnerIs(w, c', r');
    if Ix(w.L, r, x) == Ix(w.L, r', x') { IxInjective(w.L, r, x, r', x'); }
  }

  // ---------- progress ----------

  /** Barriers each core enters in all, the same for every core. */
  function TotalBarriers(w: GoodJob): int { w.L + w.L / 4 * w.R() }

  lemma ArrivalsBound(w: GoodJob, c: nat, pc: Pc)
    requires c < w.n && PcOk(w, c, pc)
    ensures Arrivals(w, c, pc, true) <= TotalBarriers(w)
    ensures !pc.Finished? ==> Arrivals(w, c, pc, false) < TotalBarriers(w)
    ensures Arrivals(w, c, pc, false) >= 0
  {
    RowSplit(w);
    OwnerIs(w, c, 0);
    MulLe(1, w.L / 4, w.R());
    match pc {
      case Read(i, j, _, _, _) => BlockBound(w, c, i, j);
      case Write(i, j, _) => BlockBound(w, c, i, j);
      case MultiplyBarrier(i, j) => BlockBound(w, c, i, j);
      case _ =>
    }
    hide Job.R, Job.Lo, Job.Hi;
  }

  lemma BlockBound(w: GoodJob, c: int, i: int, j: int)
    requires InBlock(w, c, i, j)
    ensures 0 <= i / 4 * w.R() + (j - w.Lo(c)) < w.L / 4 * w.R()
  {
    BlockArrivals(w, c, i, j);
    OwnerIs(w, c, j);
    MulLe(i / 4 + 1, w.L / 4, w.R());
    assert (i / 4 + 1) * w.R() == i / 4 * w.R() + w.R();
  }

  /** A core whose step changes nothing is finished, or spinning on a barrier it has entered. */
  lemma CanOnlySpin(w: GoodJob, s: State, c: nat)
    requires Inv(w, s) && c < w.n && !s.cores[c].pc.Finished? && Step(w, s, c) == s
    ensures s.bar.pos[c] != Outside && Advance(s.bar, w.n, c) == s.bar
    ensures s.bar.arrived[c] == s.bar.epoch + 1 <= TotalBarriers(w)
  {
    assert CoreOk(w, s, c);
    assert Step(w, s, c).cores[c] == s.cores[c];
    ArrivalsBound(w, c, s.cores[c].pc);
    hide Job.R, Job.Lo, Job.Hi, SumsOk, TransposeOk, ProductOk, Arrivals, BarrierInv, PcOk;
    assert AtBarrier(s.cores[c].pc);
    assert s.bar.pos[c] == Outside ==> Arrive(s.bar, w.n, c).count == s.bar.count + 1;
    assert s.bar.pos[c] != Outside ==> Advance(s.bar, w.n, c) == Step(w, s, c).bar;
    StuckHasArrived(s.bar, w.n, c);
  }

  /** While some core is unfinished, some core has a step that does something: no barrier is
      ever waited at in vain. */
  lemma NotStuck(w: GoodJob, s: State, c: nat) returns (c': nat)
    requires Inv(w, s) && c < w.n && !s.cores[c].pc.Finished?
    ensures c' < w.n && Step(w, s, c') != s
  {
    if Step(w, s, c) != s {
      c' := c;
    } else {
      CanOnlySpin(w, s, c);
      c' := SpinningWaitsForSomeone(s.bar, w.n, c);
      BehindCanMove(w, s, c, c');
    }
  }

  /** Every core that finishes has been through the same number of barriers. */
  lemma FinishedArrivals(w: GoodJob, s: State, c: nat)
    requires Inv(w, s) && c < w.n && s.cores[c].pc.Finished?
    ensures s.bar.pos[c] == Outside && s.bar.arrived[c] == TotalBarriers(w)
  {
    assert CoreOk(w, s, c);
    hide Job.R, TransposeOk, ProductOk, BarrierInv;
  }

  lemma BehindCanMove(w: GoodJob, s: State, c: nat, c': nat)
    requires Inv(w, s) && c < w.n && c' < w.n
    requires s.bar.arrived[c] == s.bar.epoch + 1 <= TotalBarriers(w)
    requires Leads(s.bar.pos[c']) || s.bar.arrived[c'] < s.bar.arrived[c]
    ensures Step(w, s, c') != s
  {
    assert CoreOk(w, s, c');
    if s.cores[c'].pc.Finished? { FinishedArrivals(w, s, c'); }
    if !s.cores[c'].pc.Finished? && Step(w, s, c') == s {
      CanOnlySpin(w, s, c');
      StuckHasArrived(s.bar, w.n, c');
    }
    hide Step;
  }

  /** More than the steps a core takes between two barriers. */
  function Unit(w: GoodJob): int { 4 * w.L + w.R() + 10 }

  function Local(w: GoodJob, c: int, pc: Pc, pos: Pos): int {
    match pc
    case Transpose(k, i) => 3 + (i - w.Lo(c))
    case Read(i, j, k8, q, t) => 3 + 4 * k8 + 8 * q + t
    case Write(i, j, q) => 3 + 4 * w.L + q
    case Finished => 3
    case _ => if pos == Reset then 0 else if pos != Outside then 1 else 7 + 4 * w.L + w.R()
  }

  /** How far core c has got. */
  function Progress(w: GoodJob, s: State, c: int): int {
    if 0 <= c < |s.cores| && c < |s.bar.pos| && c < |s.bar.arrived|
    then Unit(w) * s.bar.arrived[c] + Local(w, c, s.cores[c].pc, s.bar.pos[c])
    else 0
  }

  function ProgressFn(w: GoodJob, s: State): int -> int { c => Progress(w, s, c) }
  function Total(w: GoodJob, s: State): int { Sum(0, w.n, ProgressFn(w, s)) }

  lemma LocalBound(w: GoodJob, c: nat, pc: Pc, pos: Pos)
    requires c < w.n && PcOk(w, c, pc)
    ensures 0 <= Local(w, c, pc, pos) < Unit(w)
  {}

  /** A step that changes anything takes its core strictly further. */
  lemma StepProgress(w: GoodJob, s: State, c: nat)
    requires Inv(w, s) && c < w.n && Step(w, s, c) != s
    ensures Progress(w, Step(w, s, c), c) > Progress(w, s, c)
    ensures forall c' :: 0 <= c' < w.n && c' != c ==> Progress(w, Step(w, s, c), c') == Progress(w, s, c')
  {
    assert CoreOk(w, s, c);
    OwnerIs(w, c, 0);
    RowSplit(w);
    if AtBarrier(s.cores[c].pc) {
      BarrierProgress(w, s, c);
    } else {
      hide Job.R, Job.Lo, Job.Hi, SumsOk, BarrierInv, TransposeOk, ProductOk, Put, Ix;
    }
  }

  lemma BarrierProgress(w: GoodJob, s: State, c: nat)
    requires Inv(w, s) && c < w.n && AtBarrier(s.cores[c].pc) && Step(w, s, c) != s
    ensures Progress(w, Step(w, s, c), c) > Progress(w, s, c)
    ensures forall c' :: 0 <= c' < w.n && c' != c ==> Progress(w, Step(w, s, c), c') == Progress(w, s, c')
  {
    if s.bar.pos[c] == Outside {
      ArriveProgress(w, s, c);
    } else {
      AdvanceProgress(w, s, c);
    }
  }

  lemma ArriveProgress(w: GoodJob, s: State, c: nat)
    requires Inv(w, s) && c < w.n && AtBarrier(s.cores[c].pc) && s.bar.pos[c] == Outside
    ensures Progress(w, Step(w, s, c), c) > Progress(w, s, c)
    ensures forall c' :: 0 <= c' < w.n && c' != c ==> Progress(w, Step(w, s, c), c') == Progress(w, s, c')
  {
    assert CoreOk(w, s, c);
    var a, s' := s.bar.arrived[c], Step(w, s, c);
    assert s' == s.(bar := Arrive(s.bar, w.n, c));
    LocalBound(w, c, s.cores[c].pc, s.bar.pos[c]);
    LocalBound(w, c, s.cores[c].pc, s'.bar.pos[c]);
    UnitStep(w, a);
    hide Job.R, Job.Lo, Job.Hi, CoreOk, BarrierInv, TransposeOk, ProductOk, Unit, NextCore, Step, Local;
  }

  lemma UnitStep(w: GoodJob, a: int)
    ensures Unit(w) * (a + 1) == Unit(w) * a + Unit(w)
  {}

  lemma AdvanceProgress(w: GoodJob, s: State, c: nat)
    requires Inv(w, s) && c < w.n && AtBarrier(s.cores[c].pc) && s.bar.pos[c] != Outside && Step(w, s, c) != s
    ensures Progress(w, Step(w, s, c), c) > Progress(w, s, c)
    ensures forall c' :: 0 <= c' < w.n && c' != c ==> Progress(w, Step(w, s, c), c') == Progress(w, s, c')
  {
    var s' := Step(w, s, c);
    assert s' == BarrierStep(w, s, c, NextCore(w, c, s.cores[c].pc));
    NextLocal(w, c, s.cores[c].pc);
    hide Job.R, Job.Lo, Job.Hi, CoreOk, BarrierInv, TransposeOk, ProductOk, Unit, NextCore, Step;
  }

  lemma NextLocal(w: GoodJob, c: int, pc: Pc)
    requires AtBarrier(pc)
    ensures Local(w, c, NextCore(w, c, pc).pc, Outside) >= 3
  {}

  lemma {:induction false} SumGrows(n: nat, f: int -> int, g: int -> int, c: nat)
    requires c < n && f(c) < g(c) && forall x :: 0 <= x < n && x != c ==> f(x) == g(x)
    ensures Sum(0, n, f) < Sum(0, n, g)
  {
    if c == n - 1 {
      SumEq(0, n - 1, f, g);
    } else {
      SumGrows(n - 1, f, g, c);
    }
  }

  /** Steps of a schedule that change the state. */
  ghost function Effective(w: GoodJob, s: State, schedule: seq<nat>): nat {
    if schedule == [] then 0
    else
      var rest := schedule[..|schedule| - 1];
      Effective(w, s, rest) + (if Exec(w, s, schedule) != Exec(w, s, rest) then 1 else 0)
  }

  lemma {:induction false} EffectiveBelowTotal(w: GoodJob, s: State, schedule: seq<nat>)
    requires Inv(w, s)
    ensures Effective(w, s, schedule) <= Total(w, Exec(w, s, schedule)) - Total(w, s)
  {
    if schedule != [] {
      var rest := schedule[..|schedule| - 1];
      var c := schedule[|schedule| - 1];
      EffectiveBelowTotal(w, s, rest);
      ExecInv(w, s, rest);
      var before := Exec(w, s, rest);
      hide Inv, Sum;
      if Exec(w, s, schedule) != before {
        assert Exec(w, s, schedule) == Step(w, before, c);
        StepProgress(w, before, c);
        SumGrows(w.n, ProgressFn(w, before), ProgressFn(w, Step(w, before, c)), c);
      }
    }
  }

  /** No interleaving can run forever: the number of steps that do anything is bounded. */
  lemma BoundedWork(w: GoodJob, s: State, schedule: seq<nat>)
    requires Inv(w, s)
    ensures Effective(w, s, schedule) <= w.n * (Unit(w) * (TotalBarriers(w) + 1))
  {
    EffectiveBelowTotal(w, s, schedule);
    ExecInv(w, s, schedule);
    TotalBounds(w, s);
    TotalBounds(w, Exec(w, s, schedule));
  }

  lemma TotalBounds(w: GoodJob, s: State)
    requires Inv(w, s)
    ensures 0 <= Total(w, s) <= w.n * (Unit(w) * (TotalBarriers(w) + 1))
  {
    forall c | 0 <= c < w.n ensures 0 <= Progress(w, s, c) <= Unit(w) * (TotalBarriers(w) + 1) {
      ProgressBounds(w, s, c);
    }
    hide Progress, Inv;
    SumBetween(w.n, ProgressFn(w, s), Unit(w) * (TotalBarriers(w) + 1));
  }

  lemma ProgressBounds(w: GoodJob, s: State, c: nat)
    requires Inv(w, s) && c < w.n
    ensures 0 <= Progress(w, s, c) <= Unit(w) * (TotalBarriers(w) + 1)
  {
    assert CoreOk(w, s, c);
    LocalBound(w, c, s.cores[c].pc, s.bar.pos[c]);
    ArrivalsBound(w, c, s.cores[c].pc);
    var a := s.bar.arrived[c];
    hide Inv, CoreOk, Job.R, Local, Arrivals;
    assert a <= TotalBarriers(w);
    RowSplit(w);
    MulLe(a, TotalBarriers(w), Unit(w));
    MulLe(0, a, Unit(w));
    assert Unit(w) * (TotalBarriers(w) + 1) == Unit(w) * TotalBarriers(w) + Unit(w);
  }

  lemma {:induction false} SumBetween(n: nat, f: int -> int, b: int)
    requires forall x :: 0 <= x < n ==> 0 <= f(x) <= b
    ensures 0 <= Sum(0, n, f) <= n * b
  {
    if n > 0 {
      SumBetween(n - 1, f, b);
      assert n * b == (n - 1) * b + b;
    }
  }
}
