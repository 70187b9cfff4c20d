/**
 * Background actor capacity: a bounded semaphore inside each process, one locked slot file per lease across
 * processes, and leases whose references nested helpers may share.
 */
module Capacity {
  import opened Basics

  // ---------------------------------------------------------------- one lease

  /** The references of a lease and whether its last owner has let go. */
  datatype Count = Count(references: nat, released: bool)

  datatype Use = Retain | Release

  /** A retain of a released lease is refused; a release of one does nothing. */
  function AfterUse(c: Count, use: Use): Count {
    if c.released then c
    else match use
      case Retain => c.(references := c.references + 1)
      case Release =>
        if c.references > 1 then c.(references := c.references - 1) else Count(0, true)
  }

  /** The permits a sequence of uses returns, starting from a fresh lease. */
  function Returned(uses: seq<Use>): nat {
    if uses == [] then 0
    else
      var before := Played(uses[..|uses| - 1]);
      Returned(uses[..|uses| - 1]) + if !before.released && Played(uses).released then 1 else 0
  }

  function Played(uses: seq<Use>): Count {
    if uses == [] then Count(1, false) else AfterUse(Played(uses[..|uses| - 1]), uses[|uses| - 1])
  }

  /** One, plus the retains, minus the releases. */
  function Balance(uses: seq<Use>): int {
    if uses == [] then 1
    else Balance(uses[..|uses| - 1]) + if uses[|uses| - 1].Retain? then 1 else -1
  }

  ghost predicate EverSettled(uses: seq<Use>) {
    exists i :: 0 <= i <= |uses| && Balance(uses[..i]) == 0
  }

  /**
   * However retains and releases interleave, one permit goes back exactly when for the first time there have been
   * one release more than retains, and never again.
   */
  lemma {:induction false} OnePermitPerLease(uses: seq<Use>)
    ensures Returned(uses) == if EverSettled(uses) then 1 else 0
    ensures Played(uses).released <==> EverSettled(uses)
    ensures !EverSettled(uses) ==> Played(uses).references == Balance(uses) >= 1
  {
    if uses == [] {
      assert uses[..0] == uses;
    } else {
      var init := uses[..|uses| - 1];
      OnePermitPerLease(init);
      assert forall i :: 0 <= i <= |init| ==> uses[..i] == init[..i];
      assert uses[..|uses|] == uses;
      if EverSettled(init) {
        var i :| 0 <= i <= |init| && Balance(init[..i]) == 0;
        assert Balance(uses[..i]) == 0;
      }
    }
  }

  class Semaphore {
    const capacity: nat
    var permits: nat

    constructor (capacity: nat)
      ensures this.capacity == capacity && permits == capacity
    {
      this.capacity := capacity;
      permits := capacity;
    }

    /** A bounded semaphore refuses to hold more permits than it started with. */
    method Put()
      requires permits < capacity
      modifies this
      ensures permits == old(permits) + 1
    {
      permits := permits + 1;
    }
  }

  class ProviderLease {
    const slot: nat
    const semaphore: Semaphore
    var references: nat
    var released: bool
    var locked: bool

    constructor (slot: nat, semaphore: Semaphore)
      ensures this.slot == slot && this.semaphore == semaphore && Counted() == Count(1, false) && locked
    {
      this.slot := slot;
      this.semaphore := semaphore;
      references := 1;
      released := false;
      locked := true;
    }

    function Counted(): Count
      reads this
    {
      Count(references, released)
    }

    method Retain() returns (ok: bool)
      modifies this
      ensures ok == !old(released)
      ensures Counted() == AfterUse(old(Counted()), Use.Retain) && locked == old(locked)
    {
      if released {
        return false;
      }
      references := references + 1;
      return true;
    }

    /** The last release unlocks the slot file and puts the permit back; every other one touches neither. */
    method Release()
      requires !released ==> references >= 1 && semaphore.permits < semaphore.capacity
      modifies this, semaphore
      ensures Counted() == AfterUse(old(Counted()), Use.Release)
      ensures locked == (old(locked) && (old(released) || !released))
      ensures semaphore.permits == old(semaphore.permits) + if !old(released) && released then 1 else 0
    {
      if released {
        return;
      }
      references := references - 1;
      if references > 0 {
        return;
      }
      released := true;
      locked := false;
      semaphore.Put();
    }
  }

  // ---------------------------------------------------------------- all processes

  /** An execution context of some process. */
  datatype Actor = Actor(process: nat, ident: nat)

  type LeaseId = nat

  /** `Closing` has no owner left, `Unlocked` has also given up its slot file but not yet its permit. */
  datatype Phase = Live | Closing | Unlocked

  datatype Lease = Lease(process: nat, slot: nat, references: nat, phase: Phase)

  datatype State = State(
    capacity: nat,
    crashed: set<nat>,
    spent: map<nat, nat>,
    scanning: map<Actor, nat>,
    leases: map<LeaseId, Lease>,
    nextLease: LeaseId,
    slots: map<nat, LeaseId>,
    current: map<Actor, LeaseId>)

  datatype Step =
    | TakePermit(a: Actor)
    | TrySlot(a: Actor)
    | GiveUp(a: Actor)
    | Nested(a: Actor)
    | CopyContext(a: Actor, b: Actor)
    | Drop(l: LeaseId)
    | FreeSlot(l: LeaseId)
    | ReturnPermit(l: LeaseId, a: Actor)
    | Crash(p: nat)

  /** Permits taken out of the semaphore of `p`. */
  function Spent(s: State, p: nat): nat {
    if p in s.spent then s.spent[p] else 0
  }

  predicate OwnsLive(s: State, a: Actor) {
    a in s.current && s.current[a] in s.leases && s.leases[s.current[a]].phase.Live?
  }

  predicate Enabled(s: State, step: Step) {
    match step
    case TakePermit(a) =>
      a.process !in s.crashed && a !in s.scanning && !OwnsLive(s, a) && Spent(s, a.process) < s.capacity
    case TrySlot(a) => a in s.scanning
    case GiveUp(a) => a in s.scanning && Spent(s, a.process) > 0
    case Nested(a) => OwnsLive(s, a)
    case CopyContext(a, b) => a in s.current && b.process == a.process && b !in s.scanning
    case Drop(l) => l in s.leases && s.leases[l].phase.Live?
    case FreeSlot(l) => l in s.leases && s.leases[l].phase.Closing?
    case ReturnPermit(l, _) => l in s.leases && s.leases[l].phase.Unlocked? && Spent(s, s.leases[l].process) > 0
    case Crash(p) => p !in s.crashed
  }

  function Referenced(l: Lease, use: Use): Lease {
    var c := AfterUse(Count(l.references, !l.phase.Live?), use);
    l.(references := c.references, phase := if c.released && l.phase.Live? then Closing else l.phase)
  }

  function Effect(s: State, step: Step): State
    requires Enabled(s, step)
  {
    match step
    case TakePermit(a) =>
      s.(spent := s.spent[a.process := Spent(s, a.process) + 1], scanning := s.scanning[a := 0], current := s.current - {a})
    case TrySlot(a) =>
      var k := s.scanning[a];
      if k >= s.capacity then s.(scanning := s.scanning[a := 0])
      else if k in s.slots then s.(scanning := s.scanning[a := k + 1])
      else s.(scanning := s.scanning - {a},
              leases := s.leases[s.nextLease := Lease(a.process, k, 1, Live)],
              nextLease := s.nextLease + 1,
              slots := s.slots[k := s.nextLease],
              current := s.current[a := s.nextLease])
    case GiveUp(a) => s.(scanning := s.scanning - {a}, spent := s.spent[a.process := Spent(s, a.process) - 1])
    case Nested(a) => var l := s.current[a]; s.(leases := s.leases[l := Referenced(s.leases[l], Retain)])
    case CopyContext(a, b) => s.(current := s.current[b := s.current[a]])
    case Drop(l) => s.(leases := s.leases[l := Referenced(s.leases[l], Release)])
    case FreeSlot(l) =>
      s.(leases := s.leases[l := s.leases[l].(phase := Unlocked)], slots := s.slots - {s.leases[l].slot})
    case ReturnPermit(l, a) =>
      var p := s.leases[l].process;
      s.(leases := s.leases - {l},
         spent := s.spent[p := Spent(s, p) - 1],
         current := if a in s.current && s.current[a] == l then s.current - {a} else s.current)
    case Crash(p) =>
      s.(crashed := s.crashed + {p},
         scanning := map a | a in s.scanning && a.process != p :: s.scanning[a],
         leases := map l | l in s.leases && s.leases[l].process != p :: s.leases[l],
         slots := map k | k in s.slots && (s.slots[k] in s.leases ==> s.leases[s.slots[k]].process != p) :: s.slots[k],
         current := map a | a in s.current && a.process != p :: s.current[a])
  }

  // ---------------------------------------------------------------- what every step keeps

  function ScannerOf(p: nat): (Actor, nat) -> nat {
    (a: Actor, k: nat) => if a.process == p then 1 else 0
  }

  function LeaseOf(p: nat): (LeaseId, Lease) -> nat {
    (l: LeaseId, lease: Lease) => if lease.process == p then 1 else 0
  }

  /** Permits in use are exactly those of the scanning contexts and of the leases not yet fully released. */
  ghost predicate Conserved(s: State, p: nat) {
    p !in s.crashed ==>
      && Spent(s, p) == Sum(s.scanning, ScannerOf(p)) + Sum(s.leases, LeaseOf(p))
      && Spent(s, p) <= s.capacity
  }

  ghost predicate LeaseOk(s: State, l: LeaseId) {
    l in s.leases ==>
      var lease := s.leases[l];
      && l < s.nextLease && lease.process !in s.crashed && lease.slot < s.capacity
      && (lease.phase.Live? <==> lease.references >= 1)
      && (!lease.phase.Unlocked? ==> lease.slot in s.slots && s.slots[lease.slot] == l)
  }

  ghost predicate SlotOk(s: State, k: nat) {
    k in s.slots ==> s.slots[k] in s.leases && s.leases[s.slots[k]].slot == k && !s.leases[s.slots[k]].phase.Unlocked?
  }

  ghost predicate ContextOk(s: State, a: Actor) {
    && (a in s.scanning ==> a.process !in s.crashed && a !in s.current)
    && (a in s.current ==> s.current[a] < s.nextLease)
    && (a in s.current && s.current[a] in s.leases ==> s.leases[s.current[a]].process == a.process)
  }

  ghost predicate Inv(s: State) {
    && (forall p :: Conserved(s, p))
    && (forall l :: LeaseOk(s, l))
    && (forall k :: SlotOk(s, k))
    && (forall a :: ContextOk(s, a))
  }

  ghost predicate Initial(s: State) {
    s.spent == map[] && s.scanning == map[] && s.leases == map[] && s.slots == map[] && s.current == map[]
  }

  ghost predicate Reachable(s: State) {
    exists tr: seq<State>, steps: seq<Step> :: IsRun(tr, steps) && Initial(tr[0]) && tr[|steps|] == s
  }

  ghost predicate IsRun(tr: seq<State>, steps: seq<Step>) {
    && |tr| == |steps| + 1
    && forall i {:trigger steps[i]} :: 0 <= i < |steps| ==> Enabled(tr[i], steps[i]) && tr[i + 1] == Effect(tr[i], steps[i])
  }

  /** A free slot turns the permit of a scanning context into the permit of a lease. */
  lemma LeaseConserves(s: State, a: Actor, p: nat)
    requires Conserved(s, p) && LeaseOk(s, s.nextLease) && a in s.scanning
    requires s.scanning[a] < s.capacity && s.scanning[a] !in s.slots
    ensures Conserved(Effect(s, TrySlot(a)), p)
  {
    SumSplit(s.scanning, ScannerOf(p), a);
    SumInsert(s.leases, LeaseOf(p), s.nextLease, Lease(a.process, s.scanning[a], 1, Live));
  }

  lemma AcquireConserves(s: State, step: Step, p: nat)
    requires Conserved(s, p) && LeaseOk(s, s.nextLease) && Enabled(s, step)
    requires step.TakePermit? || step.TrySlot? || step.GiveUp?
    ensures Conserved(Effect(s, step), p)
  {
    var s' := Effect(s, step);
    match step
    case TakePermit(a) => SumInsert(s.scanning, ScannerOf(p), a, 0);
    case TrySlot(a) =>
      if a in s'.scanning {
        SumUpdate(s.scanning, ScannerOf(p), a, s'.scanning[a]);
      } else {
        LeaseConserves(s, a, p);
      }
    case GiveUp(a) => SumSplit(s.scanning, ScannerOf(p), a);
  }

  lemma ReleaseConserves(s: State, step: Step, p: nat)
    requires Conserved(s, p) && Enabled(s, step)
    requires !step.TakePermit? && !step.TrySlot? && !step.GiveUp?
    ensures Conserved(Effect(s, step), p)
  {
    var s' := Effect(s, step);
    match step
    case Nested(a) => SumUpdate(s.leases, LeaseOf(p), s.current[a], s'.leases[s.current[a]]);
    case CopyContext(_, _) =>
    case Drop(l) => SumUpdate(s.leases, LeaseOf(p), l, s'.leases[l]);
    case FreeSlot(l) => SumUpdate(s.leases, LeaseOf(p), l, s'.leases[l]);
    case ReturnPermit(l, _) => SumSplit(s.leases, LeaseOf(p), l);
    case Crash(q) =>
      if p != q {
        SumDrop(s.scanning, s'.scanning, ScannerOf(p));
        SumDrop(s.leases, s'.leases, LeaseOf(p));
      }
  }

  lemma LeasesKeep(s: State, step: Step, l: LeaseId)
    requires Inv(s) && Enabled(s, step)
    ensures LeaseOk(Effect(s, step), l)
  {
    assert LeaseOk(s, l);
    if step.FreeSlot? {
      assert LeaseOk(s, step.l);
    } else if step.TrySlot? {
      assert ContextOk(s, step.a);
    }
  }

  lemma SlotsKeep(s: State, step: Step, k: nat)
    requires Inv(s) && Enabled(s, step)
    ensures SlotOk(Effect(s, step), k)
  {
    assert SlotOk(s, k);
    if k in s.slots {
      assert LeaseOk(s, s.slots[k]);
    }
    if step.FreeSlot? || step.Drop? {
      assert LeaseOk(s, step.l);
    }
  }

  lemma StepKeeps(s: State, step: Step)
    requires Inv(s) && Enabled(s, step)
    ensures Inv(Effect(s, step))
  {
    var s' := Effect(s, step);
    forall p ensures Conserved(s', p) {
      assert Conserved(s, p) && LeaseOk(s, s.nextLease);
      if step.TakePermit? || step.TrySlot? || step.GiveUp? {
        AcquireConserves(s, step, p);
      } else {
        ReleaseConserves(s, step, p);
      }
    }
    forall l ensures LeaseOk(s', l) {
      LeasesKeep(s, step, l);
    }
    forall k ensures SlotOk(s', k) {
      SlotsKeep(s, step, k);
    }
    forall a ensures ContextOk(s', a) {
      assert ContextOk(s, a);
      if step.CopyContext? {
        assert ContextOk(s, step.a);
      }
    }
  }

  // ---------------------------------------------------------------- whole runs

  lemma {:induction false} RunKeeps(tr: seq<State>, steps: seq<Step>, i: nat)
    requires IsRun(tr, steps) && Inv(tr[0]) && i <= |steps|
    ensures Inv(tr[i])
  {
    if i > 0 {
      RunKeeps(tr, steps, i - 1);
      StepKeeps(tr[i - 1], steps[i - 1]);
    }
  }

  /** Permit conservation in every process that is alive, on every path. */
  lemma PermitsAreConserved(s: State, p: nat)
    requires Reachable(s) && p !in s.crashed
    ensures (s.capacity - Spent(s, p)) + Sum(s.scanning, ScannerOf(p)) + Sum(s.leases, LeaseOf(p)) == s.capacity
    ensures 0 <= s.capacity - Spent(s, p) <= s.capacity
  {
    ReachableInv(s);
    assert Conserved(s, p);
  }

  /** The bounded semaphore is never overfilled: whoever gives a permit back finds room for it. */
  lemma PermitsFitBack(s: State)
    requires Reachable(s)
    ensures forall a :: a in s.scanning ==> Enabled(s, GiveUp(a))
    ensures forall l, a :: l in s.leases && s.leases[l].phase.Unlocked? ==> Enabled(s, ReturnPermit(l, a))
  {
    ReachableInv(s);
    forall a | a in s.scanning ensures Enabled(s, GiveUp(a)) {
      assert ContextOk(s, a) && Conserved(s, a.process);
      SumSplit(s.scanning, ScannerOf(a.process), a);
    }
    forall l, a | l in s.leases && s.leases[l].phase.Unlocked? ensures Enabled(s, ReturnPermit(l, a)) {
      assert LeaseOk(s, l) && Conserved(s, s.leases[l].process);
      SumSplit(s.leases, LeaseOf(s.leases[l].process), l);
    }
  }

  lemma ReachableInv(s: State)
    requires Reachable(s)
    ensures Inv(s)
  {
    var tr: seq<State>, steps: seq<Step> :| IsRun(tr, steps) && Initial(tr[0]) && tr[|steps|] == s;
    RunKeeps(tr, steps, |steps|);
  }

  lemma {:induction false} BoundedByInjection(ids: set<LeaseId>, leases: map<LeaseId, Lease>, n: nat)
    requires ids <= leases.Keys
    requires forall l :: l in ids ==> leases[l].slot < n
    requires forall l, j :: l in ids && j in ids && l != j ==> leases[l].slot != leases[j].slot
    ensures |ids| <= n
    decreases n
  {
    if n == 0 {
      assert ids == {};
    } else if l :| l in ids && leases[l].slot == n - 1 {
      BoundedByInjection(ids - {l}, leases, n - 1);
    } else {
      BoundedByInjection(ids, leases, n - 1);
    }
  }

  /** Across all processes, live leases hold pairwise distinct slots, so there are never more than the capacity. */
  lemma NeverMoreThanCapacity(s: State, live: set<LeaseId>)
    requires Reachable(s)
    requires live == set l | l in s.leases && s.leases[l].phase.Live?
    ensures forall l, j :: l in live && j in live && l != j ==> s.leases[l].slot != s.leases[j].slot
    ensures |live| <= s.capacity
  {
    ReachableInv(s);
    forall l, j | l in live && j in live && l != j ensures s.leases[l].slot != s.leases[j].slot {
      assert LeaseOk(s, l) && LeaseOk(s, j);
    }
    forall l | l in live ensures s.leases[l].slot < s.capacity {
      assert LeaseOk(s, l);
    }
    BoundedByInjection(live, s.leases, s.capacity);
  }

  /** As long as it is there, a lease is of the same process and on the same slot. */
  lemma {:induction false} LeaseKeepsItsSlot(tr: seq<State>, steps: seq<Step>, l: LeaseId, i: nat, j: nat)
    requires IsRun(tr, steps) && Inv(tr[0]) && i <= j <= |steps|
    requires l in tr[i].leases && l in tr[j].leases
    ensures forall k :: i <= k <= j ==> l in tr[k].leases
    ensures tr[j].leases[l].slot == tr[i].leases[l].slot && tr[j].leases[l].process == tr[i].leases[l].process
    ensures tr[j].leases[l].phase.Live? ==> tr[i].leases[l].phase.Live?
  {
    if i < j {
      RunKeeps(tr, steps, i);
      LeaseIsFresh(tr, steps, l, i, j - 1);
      assert tr[j] == Effect(tr[j - 1], steps[j - 1]);
      LeaseKeepsItsSlot(tr, steps, l, i, j - 1);
    }
  }

  lemma {:induction false} LeaseIsFresh(tr: seq<State>, steps: seq<Step>, l: LeaseId, i: nat, j: nat)
    requires IsRun(tr, steps) && i <= j <= |steps| && Inv(tr[i]) && l in tr[i].leases
    ensures l < tr[j].nextLease
  {
    if i == j {
      assert LeaseOk(tr[i], l);
    } else {
      LeaseIsFresh(tr, steps, l, i, j - 1);
      assert tr[j] == Effect(tr[j - 1], steps[j - 1]);
    }
  }

  /**
   * A context that owns a live lease throughout a stretch of a run takes no permit and looks for no slot in it, however
   * often it acquires; and that lease holds one and the same slot all along.
   */
  lemma NestedTakesNoSlot(tr: seq<State>, steps: seq<Step>, a: Actor, l: LeaseId, i: nat, j: nat)
    requires IsRun(tr, steps) && Inv(tr[0]) && i <= j <= |steps|
    requires forall k :: i <= k <= j ==> OwnsLive(tr[k], a) && tr[k].current[a] == l
    ensures forall k :: i <= k < j ==> steps[k] != TakePermit(a) && steps[k] != TrySlot(a)
    ensures forall k :: i <= k < j && steps[k] == Nested(a) ==>
      && tr[k + 1] == tr[k].(leases := tr[k + 1].leases) && tr[k + 1].leases.Keys == tr[k].leases.Keys
      && tr[k + 1].leases[l] == tr[k].leases[l].(references := tr[k].leases[l].references + 1)
    ensures l in tr[i].leases
    ensures forall k :: i <= k <= j ==>
      && a !in tr[k].scanning && Enabled(tr[k], Nested(a))
      && tr[i].leases[l].slot in tr[k].slots && tr[k].slots[tr[i].leases[l].slot] == l
  {
    assert OwnsLive(tr[i], a);
    forall k | i <= k <= j
      ensures a !in tr[k].scanning && tr[i].leases[l].slot in tr[k].slots && tr[k].slots[tr[i].leases[l].slot] == l
    {
      RunKeeps(tr, steps, k);
      assert OwnsLive(tr[k], a);
      assert ContextOk(tr[k], a) && LeaseOk(tr[k], l);
      LeaseKeepsItsSlot(tr, steps, l, i, k);
    }
    forall k | i <= k < j ensures steps[k] != TakePermit(a) && steps[k] != TrySlot(a) {
      assert OwnsLive(tr[k], a) && Enabled(tr[k], steps[k]);
    }
    forall k | i <= k < j && steps[k] == Nested(a)
      ensures tr[k + 1] == tr[k].(leases := tr[k + 1].leases) && tr[k + 1].leases.Keys == tr[k].leases.Keys
      ensures tr[k + 1].leases[l] == tr[k].leases[l].(references := tr[k].leases[l].references + 1)
    {
      assert OwnsLive(tr[k], a) && tr[k + 1] == Effect(tr[k], steps[k]);
    }
  }

  lemma {:induction false} LockedSlotsAreLeases(s: State, p: nat, n: nat, rest: map<LeaseId, Lease>)
    requires Inv(s) && forall k :: 0 <= k < n ==> k in s.slots && s.slots[k] in rest
    requires forall l :: l in rest ==> l in s.leases && rest[l] == s.leases[l]
    requires forall l :: l in rest ==> rest[l].process == p
    ensures Sum(rest, LeaseOf(p)) >= n
  {
    if n > 0 {
      var l := s.slots[n - 1];
      forall k | 0 <= k < n - 1 ensures s.slots[k] != l {
        assert SlotOk(s, k) && SlotOk(s, n - 1);
      }
      LockedSlotsAreLeases(s, p, n - 1, rest - {l});
      SumSplit(rest, LeaseOf(p), l);
    }
  }

  /** When no other process has leases, whoever holds a permit but no slot always finds a free slot. */
  lemma PermitHolderFindsASlot(s: State, a: Actor)
    requires Reachable(s) && a in s.scanning
    requires forall l :: l in s.leases ==> s.leases[l].process == a.process
    ensures exists k :: 0 <= k < s.capacity && k !in s.slots
  {
    ReachableInv(s);
    assert ContextOk(s, a) && Conserved(s, a.process);
    if forall k :: 0 <= k < s.capacity ==> k in s.slots {
      forall k | 0 <= k < s.capacity ensures s.slots[k] in s.leases {
        assert SlotOk(s, k);
      }
      LockedSlotsAreLeases(s, a.process, s.capacity, s.leases);
      SumSplit(s.scanning, ScannerOf(a.process), a);
      assert false;
    }
  }
}
