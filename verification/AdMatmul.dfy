/** ad_matmul.c: rows of C updated in place with +=, a barrier after every two terms. The row
    length is the constant 32; C starts at zero. */
module AdMatmul {
  import opened Arith
  import opened SenseBarrier
  import opened Sums
  import opened AeMatmul
  import opened Tensor

  datatype Task = Task(n: nat, A: seq<int>, B: seq<int>) {
    ghost predicate Ok() { n > 0 && 32 % n == 0 && |A| == 1024 && |B| == 1024 }
    function R(): int requires n > 0 { 32 / n }
    function Lo(c: int): int requires n > 0 { c * R() }
    function Hi(c: int): int requires n > 0 { (c + 1) * R() }
    function Owner(j: int): int requires n > 0 { if R() > 0 then j / R() else 0 }
  }

  type GoodTask = w: Task | w.Ok() ghost witness Task(1, seq(1024, i => 0), seq(1024, i => 0))

  function Term(w: Task, j: int, i: int): int -> int { k => At(w.A, Ix(32, j, k)) * At(w.B, Ix(32, k, i)) }
  function DotAd(w: Task, j: int, i: int, m: int): int { Sum(0, m, Term(w, j, i)) }

  datatype AdPc =
    | Update(j: int, k: int, i: int, h: int)   // Cj32[i] += A[k+h + j32] * B[(k+h)*32 + i]
    | KBarrier(j: int, k: int)
    | Done

  datatype AdState = AdState(C: seq<int>, pcs: seq<AdPc>, bar: Barrier)

  function InitialAd(w: GoodTask, C: seq<int>): AdState {
    AdState(C, seq(w.n, c => Update(w.Lo(c), 0, 0, 0)), Start(w.n))
  }

  function AfterUpdate(j: int, k: int, i: int, h: int): AdPc {
    if h == 0 then Update(j, k, i, 1) else if i + 1 < 32 then Update(j, k, i + 1, 0) else KBarrier(j, k)
  }

  function AfterBarrier(w: GoodTask, c: int, j: int, k: int): AdPc {
    if k + 2 < 32 then Update(j, k + 2, 0, 0)
    else if j + 1 < w.Hi(c) then Update(j + 1, 0, 0, 0)
    else Done
  }

  function StepAd(w: GoodTask, s: AdState, c: nat): AdState
    requires c < w.n && |s.pcs| == w.n && Shaped(s.bar, w.n)
  {
    match s.pcs[c]
    case Update(j, k, i, h) =>
      var x := At(w.A, Ix(32, j, k + h)) * At(w.B, Ix(32, k + h, i));
      s.(C := Put(s.C, Ix(32, j, i), At(s.C, Ix(32, j, i)) + x), pcs := s.pcs[c := AfterUpdate(j, k, i, h)])
    case KBarrier(j, k) =>
      if s.bar.pos[c] == Outside then s.(bar := Arrive(s.bar, w.n, c))
      else
        var bar := Advance(s.bar, w.n, c);
        s.(bar := bar, pcs := if bar.pos[c] == Outside then s.pcs[c := AfterBarrier(w, c, j, k)] else s.pcs)
    case Done => s
  }

  // ---------- the invariant ----------

  lemma RowsOf(w: GoodTask, c: int, j: int)
    ensures w.R() >= 1
    ensures w.Lo(c) <= j < w.Hi(c) <==> w.Owner(j) == c
    ensures w.Hi(c) == w.Lo(c) + w.R()
    ensures 0 <= j < 32 ==> 0 <= w.Owner(j) < w.n
    ensures 0 <= c < w.n ==> 0 <= w.Lo(c) && w.Hi(c) <= 32
  {
    RowsPerCore(w);
    hide Task.R;
    MulLtCancel(0, w.R(), w.n);
    Shares(w.R(), w.n, 32, c, j);
  }

  lemma RowOf(w: GoodTask, j: int)
    requires 0 <= j < 32
    ensures w.R() >= 1 && 0 <= w.Owner(j) < w.n
  {
    RowsOf(w, 0, j);
  }

  predicate PcGood(w: GoodTask, c: int, pc: AdPc) {
    match pc
    case Update(j, k, i, h) => w.Lo(c) <= j < w.Hi(c) && 0 <= k <= 30 && k % 2 == 0 && 0 <= i < 32 && 0 <= h < 2
    case KBarrier(j, k) => w.Lo(c) <= j < w.Hi(c) && 0 <= k <= 30 && k % 2 == 0
    case Done => true
  }

  function Entered(w: GoodTask, c: int, pc: AdPc, inside: bool): int {
    match pc
    case Update(j, k, i, h) => 16 * (j - w.Lo(c)) + k / 2
    case KBarrier(j, k) => 16 * (j - w.Lo(c)) + k / 2 + (if inside then 1 else 0)
    case Done => 16 * w.R()
  }

  /** Terms already in element (j, i) of a row whose core is at pc. */
  function Terms(pc: AdPc, j: int, i: int): int {
    match pc
    case Update(j0, k, i0, h) =>
      if j < j0 then 32 else if j > j0 then 0 else if i < i0 then k + 2 else if i == i0 then k + h else k
    case KBarrier(j0, k) => if j < j0 then 32 else if j > j0 then 0 else k + 2
    case Done => 32
  }

  ghost predicate CoreGood(w: GoodTask, s: AdState, c: int)
    requires 0 <= c < |s.pcs| && c < |s.bar.pos| && c < |s.bar.arrived|
  {
    && PcGood(w, c, s.pcs[c])
    && (s.bar.pos[c] != Outside ==> s.pcs[c].KBarrier?)
    && s.bar.arrived[c] == Entered(w, c, s.pcs[c], s.bar.pos[c] != Outside)
  }

  /** Where the core that owns row j stands. */
  function PcOf(w: GoodTask, s: AdState, j: int): AdPc {
    if w.R() > 0 && 0 <= w.Owner(j) < |s.pcs| then s.pcs[w.Owner(j)] else Done
  }

  ghost predicate RowsOk(w: GoodTask, s: AdState) {
    forall j, i :: 0 <= j < 32 && 0 <= i < 32 ==>
      At(s.C, Ix(32, j, i)) == DotAd(w, j, i, Terms(PcOf(w, s, j), j, i))
  }

  ghost predicate InvAd(w: GoodTask, s: AdState) {
    && |s.C| >= 1024 && |s.pcs| == w.n
    && BarrierInv(s.bar, w.n)
    && (forall c :: 0 <= c < w.n ==> CoreGood(w, s, c))
    && RowsOk(w, s)
  }

  ghost predicate MovesAd(w: GoodTask, s: AdState, s': AdState, c: int) {
    && |s.pcs| == w.n && |s'.pcs| == w.n && 0 <= c < w.n
    && Shaped(s.bar, w.n) && Shaped(s'.bar, w.n)
    && (forall c' :: 0 <= c' < w.n && c' != c ==>
          s'.pcs[c'] == s.pcs[c'] && s'.bar.pos[c'] == s.bar.pos[c'] && s'.bar.arrived[c'] == s.bar.arrived[c'])
  }

  lemma CoresStay(w: GoodTask, s: AdState, s': AdState, c: int)
    requires InvAd(w, s) && MovesAd(w, s, s', c) && CoreGood(w, s', c)
    ensures forall c' :: 0 <= c' < w.n ==> CoreGood(w, s', c')
  {
    forall c' | 0 <= c' < w.n ensures CoreGood(w, s', c') {
      assert CoreGood(w, s, c');
    }
  }

  lemma TermsAfterBarrier(w: GoodTask, c: int, j: int, k: int, j': int, i': int)
    requires 0 <= k <= 30 && k % 2 == 0 && w.Lo(c) <= j < w.Hi(c) && w.Lo(c) <= j' < w.Hi(c) && 0 <= i' < 32
    ensures Terms(AfterBarrier(w, c, j, k), j', i') == Terms(KBarrier(j, k), j', i')
  {}

  lemma UpdateCore(w: GoodTask, s: AdState, c: nat)
    requires InvAd(w, s) && c < w.n && s.pcs[c].Update?
    ensures CoreGood(w, StepAd(w, s, c), c) && MovesAd(w, s, StepAd(w, s, c), c)
  {
    assert CoreGood(w, s, c);
    UpdatePc(w, c, s.pcs[c].j, s.pcs[c].k, s.pcs[c].i, s.pcs[c].h);
    hide Task.R, Task.Lo, Task.Hi, BarrierInv, RowsOk, Put, At, Ix, PcGood, Entered, AfterUpdate;
  }

  lemma UpdatePc(w: GoodTask, c: int, j: int, k: int, i: int, h: int)
    requires PcGood(w, c, Update(j, k, i, h))
    ensures PcGood(w, c, AfterUpdate(j, k, i, h))
    ensures Entered(w, c, AfterUpdate(j, k, i, h), false) == Entered(w, c, Update(j, k, i, h), false)
  {}

  lemma UpdateStep(w: GoodTask, s: AdState, c: nat)
    requires InvAd(w, s) && c < w.n && s.pcs[c].Update?
    ensures InvAd(w, StepAd(w, s, c))
  {
    UpdateCore(w, s, c);
    CoresStay(w, s, StepAd(w, s, c), c);
    UpdateKeepsRows(w, s, c);
    hide CoreGood, BarrierInv, RowsOk, AfterUpdate, Ix, At, MovesAd;
  }

  lemma UpdateKeepsRows(w: GoodTask, s: AdState, c: nat)
    requires InvAd(w, s) && c < w.n && s.pcs[c].Update?
    ensures RowsOk(w, StepAd(w, s, c))
  {
    var Update(j, k, i, h) := s.pcs[c];
    var s' := StepAd(w, s, c);
    hide InvAd, RowsOk, StepAd, Updates;
    UpdateInRange(w, s, s', c, j, k, i, h);
    UpdateRows(w, s, s', c, j, k, i, h);
  }

  /** From s to s' core c, at Update(j, k, i, h), has added one term. */
  ghost predicate Updates(w: GoodTask, s: AdState, s': AdState, c: nat, j: int, k: int, i: int, h: int) {
    && MovesAd(w, s, s', c) && |s.C| >= 1024
    && s.pcs[c] == Update(j, k, i, h) && s'.pcs[c] == AfterUpdate(j, k, i, h)
    && 0 <= j < 32 && 0 <= k <= 30 && 0 <= i < 32 && 0 <= h < 2 && w.R() > 0 && w.Owner(j) == c
    && s'.C == Put(s.C, Ix(32, j, i), At(s.C, Ix(32, j, i)) + Term(w, j, i)(k + h))
  }

  lemma UpdateInRange(w: GoodTask, s: AdState, s': AdState, c: nat, j: int, k: int, i: int, h: int)
    requires InvAd(w, s) && c < w.n && s.pcs[c] == Update(j, k, i, h) && s' == StepAd(w, s, c)
    ensures Updates(w, s, s', c, j, k, i, h)
  {
    hide StepAd, Task.R, Task.Owner, Task.Ok, CoreGood, BarrierInv, RowsOk, AfterUpdate, Put, Ix, At, MovesAd;
    UpdateCore(w, s, c);
    UpdateRange(w, s, c, j, k, i, h);
    UpdateChange(w, s, c, j, k, i, h);
  }

  lemma UpdateRange(w: GoodTask, s: AdState, c: nat, j: int, k: int, i: int, h: int)
    requires InvAd(w, s) && c < w.n && s.pcs[c] == Update(j, k, i, h)
    ensures 0 <= j < 32 && 0 <= k <= 30 && 0 <= i < 32 && 0 <= h < 2 && w.R() > 0 && w.Owner(j) == c
  {
    assert CoreGood(w, s, c);
    RowsOf(w, c, j);
    hide Task.R, Task.Lo, Task.Hi, BarrierInv, RowsOk, Entered, Task.Owner;
  }

  lemma UpdateChange(w: GoodTask, s: AdState, c: nat, j: int, k: int, i: int, h: int)
    requires InvAd(w, s) && c < w.n && s.pcs[c] == Update(j, k, i, h)
    ensures StepAd(w, s, c).pcs[c] == AfterUpdate(j, k, i, h)
    ensures StepAd(w, s, c).C == Put(s.C, Ix(32, j, i), At(s.C, Ix(32, j, i)) + Term(w, j, i)(k + h))
  {
    hide CoreGood, BarrierInv, RowsOk, AfterUpdate, Ix, At, Put;
  }

  lemma UpdateRows(w: GoodTask, s: AdState, s': AdState, c: nat, j: int, k: int, i: int, h: int)
    requires RowsOk(w, s) && Updates(w, s, s', c, j, k, i, h)
    ensures RowsOk(w, s')
  {
    hide PcOf, MovesAd, AfterUpdate, Terms, Term, DotAd, At, Ix, Put, Task.Owner, Task.R, Task.Ok;
    UpdateTerms(w, s, s', c, j, k, i, h, j, i);
    forall j', i' | 0 <= j' < 32 && 0 <= i' < 32
      ensures At(s'.C, Ix(32, j', i')) == DotAd(w, j', i', Terms(PcOf(w, s', j'), j', i'))
    {
      UpdateTerms(w, s, s', c, j, k, i, h, j', i');
      UpdateCell(w, s, s', j, i, k + h, j', i');
    }
  }

  lemma UpdateTerms(w: GoodTask, s: AdState, s': AdState, c: nat, j: int, k: int, i: int, h: int, j': int, i': int)
    requires MovesAd(w, s, s', c) && s.pcs[c] == Update(j, k, i, h) && s'.pcs[c] == AfterUpdate(j, k, i, h)
    requires 0 <= j < 32 && w.R() > 0 && w.Owner(j) == c && 0 <= i < 32 && 0 <= h < 2 && 0 <= i' < 32
    ensures Terms(PcOf(w, s', j'), j', i') == Terms(PcOf(w, s, j'), j', i') + (if j' == j && i' == i then 1 else 0)
    ensures Terms(PcOf(w, s, j), j, i) == k + h
  {}

  lemma UpdateCell(w: GoodTask, s: AdState, s': AdState, j: int, i: int, m: int, j': int, i': int)
    requires RowsOk(w, s) && |s.C| >= 1024 && 0 <= j < 32 && 0 <= i < 32 && 0 <= j' < 32 && 0 <= i' < 32
    requires m >= 0 && Terms(PcOf(w, s, j), j, i) == m
    requires Terms(PcOf(w, s', j'), j', i') == Terms(PcOf(w, s, j'), j', i') + (if j' == j && i' == i then 1 else 0)
    requires s'.C == Put(s.C, Ix(32, j, i), At(s.C, Ix(32, j, i)) + Term(w, j, i)(m))
    ensures At(s'.C, Ix(32, j', i')) == DotAd(w, j', i', Terms(PcOf(w, s', j'), j', i'))
  {
    hide PcOf, Term, DotAd, Terms, Ix, At, Put, Task.Ok;
    PutCell(s.C, 32, j, i, At(s.C, Ix(32, j, i)) + Term(w, j, i)(m), j', i');
    DotStep(w, j, i, m);
  }

  lemma DotStep(w: GoodTask, j: int, i: int, m: int)
    requires m >= 0
    ensures DotAd(w, j, i, m + 1) == DotAd(w, j, i, m) + Term(w, j, i)(m)
  {}

  lemma BarrierCoreAd(w: GoodTask, s: AdState, c: nat)
    requires InvAd(w, s) && c < w.n && s.pcs[c].KBarrier?
    ensures CoreGood(w, StepAd(w, s, c), c) && MovesAd(w, s, StepAd(w, s, c), c)
  {
    assert CoreGood(w, s, c);
    RowsOf(w, c, s.pcs[c].j);
    NextPcGood(w, c, s.pcs[c].j, s.pcs[c].k);
    hide Task.R, Task.Lo, Task.Hi, RowsOk, AfterBarrier, PcGood;
  }

  lemma NextPcGood(w: GoodTask, c: int, j: int, k: int)
    requires PcGood(w, c, KBarrier(j, k))
    ensures var pc := AfterBarrier(w, c, j, k);
      PcGood(w, c, pc) && Entered(w, c, pc, false) == Entered(w, c, KBarrier(j, k), true)
  {
    RowsOf(w, c, j);
    hide Task.R, Task.Lo, Task.Hi;
  }

  lemma BarrierStays(w: GoodTask, s: AdState, c: nat)
    requires InvAd(w, s) && c < w.n && s.pcs[c].KBarrier?
    ensures InvAd(w, StepAd(w, s, c))
  {
    var KBarrier(j, k) := s.pcs[c];
    var s' := StepAd(w, s, c);
    assert CoreGood(w, s, c);
    BarrierCoreAd(w, s, c);
    CoresStay(w, s, s', c);
    BarrierInvAd(w, s, c);
    hide BarrierInv, CoreGood, Task.R, Task.Lo, Task.Hi;
    BarrierRows(w, s, s', c, j, k);
  }

  lemma BarrierInvAd(w: GoodTask, s: AdState, c: nat)
    requires InvAd(w, s) && c < w.n && s.pcs[c].KBarrier?
    ensures BarrierInv(StepAd(w, s, c).bar, w.n)
  {
    if s.bar.pos[c] == Outside { ArriveInv(s.bar, w.n, c); } else { AdvanceInv(s.bar, w.n, c); }
    hide BarrierInv, RowsOk, CoreGood, AfterBarrier;
  }

  lemma BarrierRows(w: GoodTask, s: AdState, s': AdState, c: nat, j: int, k: int)
    requires MovesAd(w, s, s', c) && RowsOk(w, s) && s'.C == s.C
    requires s.pcs[c] == KBarrier(j, k) && (s'.pcs[c] == s.pcs[c] || s'.pcs[c] == AfterBarrier(w, c, j, k))
    requires 0 <= k <= 30 && k % 2 == 0 && w.Lo(c) <= j < w.Hi(c)
    ensures RowsOk(w, s')
  {
    forall j', i' | 0 <= j' < 32 && 0 <= i' < 32
      ensures At(s'.C, Ix(32, j', i')) == DotAd(w, j', i', Terms(PcOf(w, s', j'), j', i'))
    {
      RowOf(w, j');
      RowsOf(w, c, j');
      if w.Owner(j') == c { TermsAfterBarrier(w, c, j, k, j', i'); }
      hide Task.Owner, Task.R, Task.Lo, Task.Hi, DotAd, Ix, Terms, AfterBarrier;
    }
  }

  lemma StepInvAd(w: GoodTask, s: AdState, c: nat)
    requires InvAd(w, s) && c < w.n
    ensures InvAd(w, StepAd(w, s, c))
  {
    match s.pcs[c]
    case Update(_, _, _, _) => UpdateStep(w, s, c);
    case KBarrier(_, _) => BarrierStays(w, s, c);
    case Done =>
  }

  // ---------- whole runs ----------

  ghost function ExecAd(w: GoodTask, s: AdState, schedule: seq<nat>): AdState {
    if schedule == [] then s
    else
      var before := ExecAd(w, s, schedule[..|schedule| - 1]);
      var c := schedule[|schedule| - 1];
      if c < w.n && |before.pcs| == w.n && Shaped(before.bar, w.n) then StepAd(w, before, c) else before
  }

  lemma InitialInvAd(w: GoodTask, C: seq<int>)
    requires |C| >= 1024 && forall x :: 0 <= x < 1024 ==> C[x] == 0
    ensures InvAd(w, InitialAd(w, C))
  {
    var s := InitialAd(w, C);
    StartInv(w.n);
    forall c | 0 <= c < w.n ensures CoreGood(w, s, c) {
      RowsOf(w, c, w.Lo(c));
    }
    forall j, i | 0 <= j < 32 && 0 <= i < 32
      ensures At(s.C, Ix(32, j, i)) == DotAd(w, j, i, Terms(PcOf(w, s, j), j, i))
    {
      RowOf(w, j);
      RowsOf(w, w.Owner(j), j);
      IxBound(32, j, i);
    }
  }

  lemma {:induction false} ExecInvAd(w: GoodTask, s: AdState, schedule: seq<nat>)
    requires InvAd(w, s)
    ensures InvAd(w, ExecAd(w, s, schedule))
  {
    if schedule != [] {
      ExecInvAd(w, s, schedule[..|schedule| - 1]);
      var c := schedule[|schedule| - 1];
      if c < w.n {
        StepInvAd(w, ExecAd(w, s, schedule[..|schedule| - 1]), c);
      }
      hide CoreGood, BarrierInv, RowsOk, StepAd;
    }
  }

  ghost predicate AllDone(w: GoodTask, s: AdState) { |s.pcs| == w.n && forall c :: 0 <= c < w.n ==> s.pcs[c].Done? }

  /** Whatever the interleaving, the in-place updates end in the product A * B. */
  lemma FinalProductAd(w: GoodTask, C: seq<int>, schedule: seq<nat>, i: int, j: int)
    requires |C| >= 1024 && forall x :: 0 <= x < 1024 ==> C[x] == 0
    requires AllDone(w, ExecAd(w, InitialAd(w, C), schedule)) && 0 <= i < 32 && 0 <= j < 32
    ensures At(ExecAd(w, InitialAd(w, C), schedule).C, j * 32 + i) == Sum(0, 32, Term(w, j, i))
  {
    hide InvAd, ExecAd, InitialAd, Ix, AllDone;
    InitialInvAd(w, C);
    ExecInvAd(w, InitialAd(w, C), schedule);
    DoneProduct(w, ExecAd(w, InitialAd(w, C), schedule), i, j);
    AeMatmul.RowMajor(32, j, i);
  }

  /** The terms of the product: row j of A by column i of B, both row-major. */
  lemma ProductTermAd(w: GoodTask, j: int, i: int, k: int)
    ensures Term(w, j, i)(k) == At(w.A, j * 32 + k) * At(w.B, k * 32 + i)
  {}

  /** On 32 x 32 operands the two programs end in the same C. */
  lemma SameProduct(w: GoodTask, job: AeMatmul.GoodJob, C: seq<int>, schedule: seq<nat>, D: seq<int>, BB: seq<int>,
                    schedule': seq<nat>, i: int, j: int)
    requires job.L == 32 && job.A == w.A && job.B == w.B && 0 <= i < 32 && 0 <= j < 32
    requires |C| >= 1024 && forall x :: 0 <= x < 1024 ==> C[x] == 0
    requires |D| >= 1024 && |BB| >= 1024
    requires AllDone(w, ExecAd(w, InitialAd(w, C), schedule))
    requires AllFinished(job, Exec(job, Initial(job, D, BB), schedule'))
    ensures At(ExecAd(w, InitialAd(w, C), schedule).C, Ix(32, j, i))
         == At(Exec(job, Initial(job, D, BB), schedule').C, Ix(32, j, i))
  {
    hide ExecAd, InitialAd, Exec, Initial, AllDone, AllFinished;
    FinalProductAd(w, C, schedule, i, j);
    FinalProduct(job, D, BB, schedule', i, j);
    SumEq(0, 32, Term(w, j, i), Prod(job, j, i));
  }

  lemma DoneProduct(w: GoodTask, s: AdState, i: int, j: int)
    requires InvAd(w, s) && AllDone(w, s) && 0 <= i < 32 && 0 <= j < 32
    ensures At(s.C, Ix(32, j, i)) == Sum(0, 32, Term(w, j, i))
  {
    DoneRow(w, s, i, j);
    DotAd32(w, j, i);
    hide *;
  }

  lemma DoneRow(w: GoodTask, s: AdState, i: int, j: int)
    requires RowsOk(w, s) && AllDone(w, s) && 0 <= i < 32 && 0 <= j < 32
    ensures At(s.C, Ix(32, j, i)) == DotAd(w, j, i, 32)
  {
    DoneTerms(w, s, i, j);
    hide DotAd, Ix, At, Term, Terms, PcOf, AllDone, Task.Ok;
  }

  lemma DoneTerms(w: GoodTask, s: AdState, i: int, j: int)
    requires AllDone(w, s) && 0 <= j < 32
    ensures Terms(PcOf(w, s, j), j, i) == 32
  {}

  lemma DotAd32(w: GoodTask, j: int, i: int)
    ensures DotAd(w, j, i, 32) == Sum(0, 32, Term(w, j, i))
  {}

  /** The cells two cores are about to update are never the same. */
  lemma NoRaceAd(w: GoodTask, s: AdState, c: nat, c': nat)
    requires InvAd(w, s) && c < w.n && c' < w.n && c != c' && s.pcs[c].Update? && s.pcs[c'].Update?
    ensures Ix(32, s.pcs[c].j, s.pcs[c].i) != Ix(32, s.pcs[c'].j, s.pcs[c'].i)
  {
    assert CoreGood(w, s, c) && CoreGood(w, s, c');
    RowsOf(w, c, s.pcs[c].j);
    RowsOf(w, c', s.pcs[c'].j);
    if Ix(32, s.pcs[c].j, s.pcs[c].i) == Ix(32, s.pcs[c'].j, s.pcs[c'].i) {
      IxInjective(32, s.pcs[c].j, s.pcs[c].i, s.pcs[c'].j, s.pcs[c'].i);
    }
  }

  lemma EnteredBound(w: GoodTask, c: nat, pc: AdPc)
    requires c < w.n && PcGood(w, c, pc)
    ensures 0 <= Entered(w, c, pc, false) <= Entered(w, c, pc, true) <= 16 * w.R()
  {}

  lemma OnlySpinsAd(w: GoodTask, s: AdState, c: nat)
    requires InvAd(w, s) && c < w.n && !s.pcs[c].Done? && StepAd(w, s, c) == s
    ensures s.bar.pos[c] != Outside && Advance(s.bar, w.n, c) == s.bar
    ensures s.bar.arrived[c] == s.bar.epoch + 1 <= 16 * w.R()
  {
    assert CoreGood(w, s, c);
    assert StepAd(w, s, c).pcs[c] == s.pcs[c];
    EnteredBound(w, c, s.pcs[c]);
    hide Task.R, Task.Lo, Task.Hi, RowsOk, Entered, BarrierInv, PcGood;
    assert s.pcs[c].KBarrier?;
    assert StepAd(w, s, c).bar.count == s.bar.count;
    StuckHasArrived(s.bar, w.n, c);
  }

  /** While some core is not done, some core has a step that does something. */
  lemma NotStuckAd(w: GoodTask, s: AdState, c: nat) returns (c': nat)
    requires InvAd(w, s) && c < w.n && !s.pcs[c].Done?
    ensures c' < w.n && StepAd(w, s, c') != s
  {
    if StepAd(w, s, c) != s {
      c' := c;
    } else {
      OnlySpinsAd(w, s, c);
      c' := SpinningWaitsForSomeone(s.bar, w.n, c);
      BehindCanMoveAd(w, s, c, c');
    }
  }

  lemma DoneEntered(w: GoodTask, s: AdState, c: nat)
    requires InvAd(w, s) && c < w.n && s.pcs[c].Done?
    ensures s.bar.pos[c] == Outside && s.bar.arrived[c] == 16 * w.R()
  {
    assert CoreGood(w, s, c);
    hide Task.R, RowsOk, BarrierInv;
  }

  lemma BehindCanMoveAd(w: GoodTask, s: AdState, c: nat, c': nat)
    requires InvAd(w, s) && c < w.n && c' < w.n
    requires s.bar.arrived[c] == s.bar.epoch + 1 <= 16 * w.R()
    requires Leads(s.bar.pos[c']) || s.bar.arrived[c'] < s.bar.arrived[c]
    ensures StepAd(w, s, c') != s
  {
    if s.pcs[c'].Done? { DoneEntered(w, s, c'); }
    if !s.pcs[c'].Done? && StepAd(w, s, c') == s {
      OnlySpinsAd(w, s, c');
      StuckHasArrived(s.bar, w.n, c');
    }
    hide StepAd;
  }

  // ---------- how long a run can take ----------

  /** More than the steps a core takes between two barriers: 64 updates and those inside barrier(). */
  const UNIT: int := 68

  function LocalAd(pc: AdPc, pos: Pos): int {
    match pc
    case Update(j, k, i, h) => 3 + 2 * i + h
    case KBarrier(j, k) => if pos == Reset then 0 else if pos != Outside then 1 else 67
    case Done => 3
  }

  /** How far core c has got. */
  function ProgressAd(w: GoodTask, s: AdState, c: int): int {
    if 0 <= c < |s.pcs| && c < |s.bar.pos| && c < |s.bar.arrived|
    then UNIT * s.bar.arrived[c] + LocalAd(s.pcs[c], s.bar.pos[c])
    else 0
  }

  function ProgressFnAd(w: GoodTask, s: AdState): int -> int { c => ProgressAd(w, s, c) }
  function TotalAd(w: GoodTask, s: AdState): int { Sum(0, w.n, ProgressFnAd(w, s)) }

  lemma StepCore(w: GoodTask, s: AdState, c: nat)
    requires InvAd(w, s) && c < w.n
    ensures MovesAd(w, s, StepAd(w, s, c), c) && PcGood(w, c, s.pcs[c])
    ensures s.bar.pos[c] != Outside ==> s.pcs[c].KBarrier?
  {
    assert CoreGood(w, s, c);
    match s.pcs[c]
    case Update(_, _, _, _) => UpdateCore(w, s, c);
    case KBarrier(_, _) => BarrierCoreAd(w, s, c);
    case Done =>
  }

  /** A step that changes anything takes its core strictly further, and no other back. */
  lemma StepProgressAd(w: GoodTask, s: AdState, c: nat)
    requires InvAd(w, s) && c < w.n && StepAd(w, s, c) != s
    ensures ProgressAd(w, StepAd(w, s, c), c) > ProgressAd(w, s, c)
    ensures forall c' :: 0 <= c' < w.n && c' != c ==> ProgressAd(w, StepAd(w, s, c), c') == ProgressAd(w, s, c')
  {
    StepCore(w, s, c);
    hide InvAd, PcGood, Put, Ix, At, AfterBarrier, AfterUpdate;
    if s.pcs[c].KBarrier? { BarrierFurther(w, s, c); } else { UpdateFurther(w, s, c); }
    hide StepAd, LocalAd;
  }

  lemma UpdateFurther(w: GoodTask, s: AdState, c: nat)
    requires |s.pcs| == w.n && Shaped(s.bar, w.n) && c < w.n && !s.pcs[c].KBarrier? && StepAd(w, s, c) != s
    requires PcGood(w, c, s.pcs[c]) && s.bar.pos[c] == Outside
    ensures ProgressAd(w, StepAd(w, s, c), c) > ProgressAd(w, s, c)
  {
    hide Task.R, Task.Lo, Task.Hi, Put, Ix, At;
  }

  lemma NextFurther(w: GoodTask, c: int, j: int, k: int)
    ensures LocalAd(AfterBarrier(w, c, j, k), Outside) == 3
  {}

  lemma BarrierFurther(w: GoodTask, s: AdState, c: nat)
    requires |s.pcs| == w.n && Shaped(s.bar, w.n) && c < w.n && s.pcs[c].KBarrier? && StepAd(w, s, c) != s
    ensures ProgressAd(w, StepAd(w, s, c), c) > ProgressAd(w, s, c)
  {
    NextFurther(w, c, s.pcs[c].j, s.pcs[c].k);
    hide AfterBarrier, Task.R;
  }

  /** Steps of a schedule that change the state. */
  ghost function EffectiveAd(w: GoodTask, s: AdState, schedule: seq<nat>): nat {
    if schedule == [] then 0
    else
      var rest := schedule[..|schedule| - 1];
      EffectiveAd(w, s, rest) + (if ExecAd(w, s, schedule) != ExecAd(w, s, rest) then 1 else 0)
  }

  lemma {:induction false} EffectiveBelowTotalAd(w: GoodTask, s: AdState, schedule: seq<nat>)
    requires InvAd(w, s)
    ensures EffectiveAd(w, s, schedule) <= TotalAd(w, ExecAd(w, s, schedule)) - TotalAd(w, s)
  {
    if schedule != [] {
      var rest := schedule[..|schedule| - 1];
      var c := schedule[|schedule| - 1];
      EffectiveBelowTotalAd(w, s, rest);
      ExecInvAd(w, s, rest);
      var before := ExecAd(w, s, rest);
      hide InvAd, Sum, StepAd;
      if ExecAd(w, s, schedule) != before {
        assert ExecAd(w, s, schedule) == StepAd(w, before, c);
        StepProgressAd(w, before, c);
        SumGrows(w.n, ProgressFnAd(w, before), ProgressFnAd(w, StepAd(w, before, c)), c);
      }
    }
  }

  lemma ProgressBoundsAd(w: GoodTask, s: AdState, c: nat)
    requires InvAd(w, s) && c < w.n
    ensures 0 <= ProgressAd(w, s, c) <= UNIT * (16 * w.R() + 1)
  {
    assert CoreGood(w, s, c);
    EnteredBound(w, c, s.pcs[c]);
    hide Task.R, Task.Lo, Task.Hi, RowsOk, BarrierInv, Entered;
  }

  /** No interleaving can run forever: at most 68 * (512 + n) steps do anything. */
  lemma BoundedWorkAd(w: GoodTask, s: AdState, schedule: seq<nat>)
    requires InvAd(w, s)
    ensures EffectiveAd(w, s, schedule) <= UNIT * (512 + w.n)
  {
    EffectiveBelowTotalAd(w, s, schedule);
    ExecInvAd(w, s, schedule);
    TotalBoundsAd(w, s);
    TotalBoundsAd(w, ExecAd(w, s, schedule));
    hide *;
  }

  lemma TotalBoundsAd(w: GoodTask, s: AdState)
    requires InvAd(w, s)
    ensures 0 <= TotalAd(w, s) <= UNIT * (512 + w.n)
  {
    forall c | 0 <= c < w.n ensures 0 <= ProgressAd(w, s, c) <= UNIT * (16 * w.R() + 1) {
      ProgressBoundsAd(w, s, c);
    }
    RowsPerCore(w);
    hide ProgressAd, InvAd, Task.R, Sum;
    SumBetween(w.n, ProgressFnAd(w, s), UNIT * (16 * w.R() + 1));
    AllBarriers(w.n, w.R());
  }

  lemma RowsPerCore(w: GoodTask)
    ensures w.R() * w.n == 32
  {
    DivMul(32, w.n);
  }

  lemma AllBarriers(n: int, r: int)
    requires r * n == 32
    ensures n * (UNIT * (16 * r + 1)) == UNIT * (512 + n)
  {
    assert n * (UNIT * (16 * r + 1)) == UNIT * 16 * (r * n) + UNIT * n;
  }
}
