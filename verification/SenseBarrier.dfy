/** The sense-reversing barrier of riscv-tests/benchmarks/common/util.h, one shared access a step. */
module SenseBarrier {
  /** Where a core is inside barrier(): not in it, about to zero the count, about to flip the
      sense, or spinning. */
  datatype Pos = Outside | Reset | Release | Spin

  /** `epoch` counts completed barriers and `arrived` the calls each core has entered; both are
      history, read by no step. */
  datatype Barrier = Barrier(sense: bool, count: int, tsense: seq<bool>, pos: seq<Pos>,
                             epoch: nat, arrived: seq<nat>)

  function Start(n: nat): Barrier {
    Barrier(false, 0, seq(n, c => false), seq(n, c => Outside), 0, seq(n, c => 0))
  }

  ghost predicate Shaped(b: Barrier, n: nat) {
    n > 0 && |b.tsense| == n && |b.pos| == n && |b.arrived| == n
  }

  /** threadsense = !threadsense; then the atomic fetch-and-add. */
  function Arrive(b: Barrier, n: nat, c: nat): Barrier
    requires Shaped(b, n) && c < n
  {
    b.(tsense := b.tsense[c := !b.tsense[c]],
       count := b.count + 1,
       pos := b.pos[c := if b.count == n - 1 then Reset else Spin],
       arrived := b.arrived[c := b.arrived[c] + 1])
  }

  /** The next shared access of a core inside the barrier. A spin that fails changes nothing. */
  function Advance(b: Barrier, n: nat, c: nat): Barrier
    requires Shaped(b, n) && c < n
  {
    match b.pos[c]
    case Outside => b
    case Reset => b.(count := 0, pos := b.pos[c := Release])
    case Release => b.(sense := b.tsense[c], pos := b.pos[c := Outside], epoch := b.epoch + 1)
    case Spin => if b.sense == b.tsense[c] then b.(pos := b.pos[c := Outside]) else b
  }

  function CountOf(s: seq<nat>, e: nat): nat {
    if s == [] then 0 else CountOf(s[..|s| - 1], e) + (if s[|s| - 1] == e then 1 else 0)
  }

  predicate Odd(x: nat) { x % 2 == 1 }

  lemma OddStep(x: nat)
    ensures Odd(x + 1) == !Odd(x)
  {}

  predicate Leads(p: Pos) { p == Reset || p == Release }

  /** A core outside has been through every completed barrier, and no more; a leader exists only
      once all have arrived, and everybody else then spins. */
  ghost predicate BarrierInv(b: Barrier, n: nat) {
    && Shaped(b, n)
    && b.sense == Odd(b.epoch)
    && (forall c :: 0 <= c < n ==>
          && b.epoch <= b.arrived[c] <= b.epoch + 1
          && b.tsense[c] == Odd(b.arrived[c])
          && (b.pos[c] == Outside ==> b.arrived[c] == b.epoch))
    && (forall c :: 0 <= c < n && Leads(b.pos[c]) ==>
          && (forall c' :: 0 <= c' < n ==> b.arrived[c'] == b.epoch + 1)
          && (forall c' :: 0 <= c' < n && c' != c ==> b.pos[c'] == Spin)
          && b.count == (if b.pos[c] == Reset then n else 0))
    && ((forall c :: 0 <= c < n ==> !Leads(b.pos[c])) ==>
          b.count == CountOf(b.arrived, b.epoch + 1) < n)
  }

  lemma {:induction false} CountNone(s: seq<nat>, e: nat)
    requires forall c :: 0 <= c < |s| ==> s[c] != e
    ensures CountOf(s, e) == 0
  {
    if s != [] {
      CountNone(s[..|s| - 1], e);
    }
  }

  lemma {:induction false} CountAll(s: seq<nat>, e: nat)
    ensures CountOf(s, e) <= |s|
    ensures CountOf(s, e) == |s| <==> forall c :: 0 <= c < |s| ==> s[c] == e
  {
    if s != [] {
      CountAll(s[..|s| - 1], e);
    }
  }

  lemma {:induction false} CountUpdate(s: seq<nat>, e: nat, c: nat, x: nat)
    requires c < |s|
    ensures CountOf(s[c := x], e) == CountOf(s, e) - (if s[c] == e then 1 else 0) + (if x == e then 1 else 0)
  {
    var n := |s| - 1;
    if c == n {
      assert s[c := x][..n] == s[..n];
    } else {
      CountUpdate(s[..n], e, c, x);
      assert s[c := x][..n] == s[..n][c := x];
    }
  }

  lemma StartInv(n: nat)
    requires n > 0
    ensures BarrierInv(Start(n), n)
  {
    CountNone(Start(n).arrived, 1);
  }

  lemma ArriveInv(b: Barrier, n: nat, c: nat)
    requires BarrierInv(b, n) && c < n && b.pos[c] == Outside
    ensures BarrierInv(Arrive(b, n, c), n)
  {
    if b.count == n - 1 {
      LastArrives(b, n, c);
    } else {
      EarlyArrives(b, n, c);
    }
  }

  lemma NoLeader(b: Barrier, n: nat, c: nat)
    requires BarrierInv(b, n) && c < n && b.pos[c] == Outside
    ensures forall c' :: 0 <= c' < n ==> !Leads(b.pos[c'])
    ensures b.count == CountOf(b.arrived, b.epoch + 1) < n
  {}

  lemma EarlyArrives(b: Barrier, n: nat, c: nat)
    requires BarrierInv(b, n) && c < n && b.pos[c] == Outside && b.count != n - 1
    ensures BarrierInv(Arrive(b, n, c), n)
  {
    hide CountOf, Odd;
    var b' := Arrive(b, n, c);
    NoLeader(b, n, c);
    OddStep(b.arrived[c]);
    CountUpdate(b.arrived, b.epoch + 1, c, b.arrived[c] + 1);
    assert forall c' :: 0 <= c' < n ==> !Leads(b'.pos[c']);
  }

  lemma LastArrives(b: Barrier, n: nat, c: nat)
    requires BarrierInv(b, n) && c < n && b.pos[c] == Outside && b.count == n - 1
    ensures BarrierInv(Arrive(b, n, c), n)
  {
    hide CountOf, Odd;
    var b' := Arrive(b, n, c);
    NoLeader(b, n, c);
    OddStep(b.arrived[c]);
    CountUpdate(b.arrived, b.epoch + 1, c, b.arrived[c] + 1);
    CountAll(b'.arrived, b.epoch + 1);
    assert forall c' :: 0 <= c' < n ==> b'.arrived[c'] == b.epoch + 1;
    forall c' | 0 <= c' < n && c' != c ensures b'.pos[c'] == Spin {
      assert b'.arrived[c'] == b.arrived[c'] && b'.pos[c'] == b.pos[c'];
      assert !Leads(b.pos[c']) && b'.pos[c'] == b.pos[c'];
    }
    assert Leads(b'.pos[c]) && b'.pos[c] == Reset && b'.count == n;
  }

  lemma AdvanceInv(b: Barrier, n: nat, c: nat)
    requires BarrierInv(b, n) && c < n
    ensures BarrierInv(Advance(b, n, c), n)
  {
    match b.pos[c]
    case Outside =>
    case Reset =>
      hide Odd, CountOf;
    case Release =>
      ReleaseInv(b, n, c);
    case Spin =>
      SpinInv(b, n, c);
  }

  lemma ReleaseInv(b: Barrier, n: nat, c: nat)
    requires BarrierInv(b, n) && c < n && b.pos[c] == Release
    ensures BarrierInv(Advance(b, n, c), n)
  {
    var b' := Advance(b, n, c);
    CountNone(b'.arrived, b'.epoch + 1);
    hide Odd, CountOf;
    assert forall c' :: 0 <= c' < n ==> !Leads(b'.pos[c']);
  }

  lemma SpinInv(b: Barrier, n: nat, c: nat)
    requires BarrierInv(b, n) && c < n && b.pos[c] == Spin
    ensures BarrierInv(Advance(b, n, c), n)
  {
    if b.sense == b.tsense[c] {
      OddStep(b.epoch);
      assert b.arrived[c] == b.epoch;
      var b' := Advance(b, n, c);
      hide Odd, CountOf;
      assert forall c' :: 0 <= c' < n ==> !Leads(b.pos[c']) && !Leads(b'.pos[c']);
    }
  }

  /** Nobody leaves a barrier before everybody has entered it. */
  lemma NobodyBehind(b: Barrier, n: nat, c: nat, c': nat)
    requires BarrierInv(b, n) && c < n && c' < n && b.pos[c] == Outside
    ensures b.arrived[c'] >= b.arrived[c]
  {}

  lemma StuckHasArrived(b: Barrier, n: nat, c: nat)
    requires BarrierInv(b, n) && c < n && Advance(b, n, c) == b && b.pos[c] != Outside
    ensures b.pos[c] == Spin && b.arrived[c] == b.epoch + 1
  {}

  /** A core can be stuck spinning only while another one still has work to do for this barrier. */
  lemma SpinningWaitsForSomeone(b: Barrier, n: nat, c: nat) returns (c': nat)
    requires BarrierInv(b, n) && c < n && Advance(b, n, c) == b && b.pos[c] != Outside
    ensures c' < n && (Leads(b.pos[c']) || b.arrived[c'] < b.arrived[c])
  {
    StuckHasArrived(b, n, c);
    if c0 :| 0 <= c0 < n && Leads(b.pos[c0]) {
      c' := c0;
    } else {
      CountAll(b.arrived, b.epoch + 1);
      c' :| 0 <= c' < n && b.arrived[c'] != b.epoch + 1;
    }
  }
}
