/** Foreground priority, gap-free handoff, and the bound on what a crash leaves behind. */
module AdmissionPriority {
  import opened Basics
  import opened Admission
  import opened AdmissionSafety

  // ---------------------------------------------------------------- the marker scan

  /** Somebody holds its lock, or its deadline lies ahead and at most 121 seconds ahead. */
  predicate Blocks(mk: Marker, now: real) {
    mk.lock != Unlocked || (mk.deadline.Some? && now < mk.deadline.value <= now + 121.0)
  }

  /** Visit every marker under the priority mutex: report an active one, delete the stale ones. */
  method ScanWaiters(s: State) returns (active: bool, kept: map<MarkerId, Marker>)
    ensures active == AnyActive(s) && s.(markers := kept) == Scanned(s)
    ensures active <==> exists m :: m in s.markers && Blocks(s.markers[m], s.now)
    ensures forall m :: m in kept <==> m in s.markers && Blocks(s.markers[m], s.now)
    ensures forall m :: m in kept ==> kept[m] == s.markers[m]
  {
    active := false;
    kept := s.markers;
    var todo := s.markers.Keys;
    while todo != {}
      invariant todo <= s.markers.Keys
      invariant active <==> exists m :: m in s.markers && m !in todo && Active(s.markers[m], s.now)
      invariant forall m :: m in kept <==> m in s.markers && (m in todo || Active(s.markers[m], s.now))
      invariant forall m :: m in kept ==> kept[m] == s.markers[m]
      decreases |todo|
    {
      var m :| m in todo;
      todo := todo - {m};
      if !s.markers[m].lock.Unlocked? || InWindow(s.markers[m], s.now) {
        active := true;
      } else {
        kept := kept - {m};
      }
    }
    assert kept == Scanned(s).markers;
    assert forall m :: m in s.markers ==> (Active(s.markers[m], s.now) <==> Blocks(s.markers[m], s.now));
  }

  /** Remove the unlocked markers of an exiting process; the locked ones are its residue and stay. */
  method ReclaimWaiters(s: State, owner: Process) returns (residual: set<MarkerId>, kept: map<MarkerId, Marker>)
    ensures forall m :: m in residual <==> m in s.markers && s.markers[m].owner == owner && !s.markers[m].lock.Unlocked?
    ensures s.(markers := kept) == Reclaimed(s, owner)
    ensures forall m :: m in kept <==> m in s.markers && (s.markers[m].owner == owner ==> s.markers[m].lock != Unlocked)
    ensures forall m :: m in kept ==> kept[m] == s.markers[m]
  {
    residual := {};
    kept := s.markers;
    var own := set m | m in s.markers && s.markers[m].owner == owner;
    var todo := own;
    while todo != {}
      invariant todo <= own
      invariant forall m :: m in residual <==> m in own && m !in todo && !s.markers[m].lock.Unlocked?
      invariant forall m :: m in kept <==> m in s.markers && (m !in own || m in todo || m in residual)
      invariant forall m :: m in kept ==> kept[m] == s.markers[m]
      decreases |todo|
    {
      var m :| m in todo;
      todo := todo - {m};
      if s.markers[m].lock.Unlocked? {
        kept := kept - {m};
      } else {
        residual := residual + {m};
      }
    }
    assert kept == Reclaimed(s, owner).markers;
  }

  // ---------------------------------------------------------------- priority

  /** A background thread whose confirming scan found nobody: about to enter the body, or in it. */
  predicate Committed(s: State, t: Thread) {
    t.process.background && t in s.threads && (s.threads[t].pc.Confirmed? || s.threads[t].pc.InBody?)
  }

  lemma CommittedWait(s: State, u: Thread, wait: Wait, t: Thread)
    requires Enabled(s, Waits(u, wait)) && AnyActive(s) && LocalOk(s, u)
    requires Committed(AfterWait(s, u, wait), t)
    ensures Committed(s, t)
    ensures Inside(s, t) ==> Inside(AfterWait(s, u, wait), t)
  {
  }

  lemma CommittedStep(s: State, step: Step, t: Thread)
    requires Inv(s) && Enabled(s, step) && AnyActive(s)
    requires Committed(Effect(s, step), t)
    ensures Committed(s, t)
    ensures Inside(s, t) ==> Inside(Effect(s, step), t)
  {
    match step
    case Waits(u, wait) => CommittedWait(s, u, wait, t);
    case Works(_, _) =>
    case Finishes(_, _) =>
    case Advance(_, _) =>
    case _ =>
  }

  /** While some marker is active no confirming scan succeeds, so commitments only disappear. */
  lemma {:induction false} NoNewCommitment(r: Run, i: nat, j: nat, t: Thread)
    requires IsRun(r) && Inv(r.states[0]) && i <= j <= |r.steps|
    requires forall k :: i <= k < j ==> AnyActive(r.states[k])
    requires Committed(r.states[j], t)
    ensures forall k :: i <= k <= j ==> Committed(r.states[k], t)
    ensures forall k :: i <= k <= j && Inside(r.states[k], t) ==> Inside(r.states[j], t)
  {
    if i < j {
      RunKeeps(r, j - 1);
      CommittedStep(r.states[j - 1], r.steps[j - 1], t);
      NoNewCommitment(r, i, j - 1, t);
    }
  }

  /** A foreground caller between the publication of its marker and its admission. */
  predicate Waiting(s: State, f: Thread) {
    !f.process.background && f in s.threads && (s.threads[f].pc.AwaitingGate? || s.threads[f].pc.AwaitingSlot?)
  }

  lemma WaitingIsActive(s: State, f: Thread)
    requires Inv(s) && Waiting(s, f)
    ensures AnyActive(s)
  {
    assert LocalOk(s, f) && WaiterOk(s, f);
    assert ActiveMarker(s, s.threads[f].waiter.value);
  }

  /**
   * Throughout the wait of a foreground caller at most one background body is seen: whoever enters had
   * confirmed before the wait began, and two background bodies seen at any two moments are one and the same visit.
   */
  lemma ForegroundPriority(r: Run, f: Thread, t: Thread, u: Thread, i: nat, j: nat)
    requires IsRun(r) && Inv(r.states[0]) && i <= j <= |r.steps|
    requires forall k :: 0 <= k <= |r.steps| ==> Waiting(r.states[k], f)
    requires t.process.background && Inside(r.states[i], t)
    requires u.process.background && Inside(r.states[j], u)
    ensures t == u
    ensures Committed(r.states[0], t)
    ensures forall k :: i <= k <= j ==> Inside(r.states[k], t)
  {
    forall k | 0 <= k < j ensures AnyActive(r.states[k]) {
      RunKeeps(r, k);
      WaitingIsActive(r.states[k], f);
    }
    NoNewCommitment(r, 0, j, u);
    RunKeeps(r, i);
    assert ThreadLocks(r.states[i], t) && ThreadLocks(r.states[i], u);
    forall k | i <= k <= j ensures Inside(r.states[k], t) {
      assert Committed(r.states[k], t);
      NoNewCommitment(r, i, k, t);
    }
  }

  // ---------------------------------------------------------------- handoff

  /** The marker carries the deadline `d` and whoever still holds it will only let go of it. */
  predicate HandedOver(s: State, m: MarkerId, d: real) {
    && m in s.markers && s.markers[m].deadline == Some(d)
    && (s.markers[m].lock.ByThread? ==>
          var t := s.markers[m].lock.thread;
          t in s.threads && (s.threads[t].pc == Unlocking(true) || (s.threads[t].pc.Clearing? && s.threads[t].pc.preserve)))
    && (m in s.reserving ==> s.reserving[m].phase == ReserveClearing(true) || s.reserving[m].phase.Held?)
  }

  /** A successful arming, of an exiting admission or of a lease, hands the marker over. */
  lemma ArmingHandsOver(s: State, step: Step, m: MarkerId, d: real)
    requires Inv(s) && Enabled(s, step)
    requires
      || (step.Finishes? && step.finish.Write? && s.threads[step.t].waiter == Some(m) && s.threads[step.t].pc.deadline == d)
      || (step == Advance(m, WriteLease) && s.reserving[m].phase.deadline == d)
    ensures HandedOver(Effect(s, step), m, d)
  {
    assert ReservationOk(s, m);
    if step.Finishes? {
      assert WaiterOk(s, step.t);
    }
  }

  /** Removing the marker early takes its owner: the exit-time reclaim or the consumed lease. */
  predicate EndsHandoff(step: Step, m: MarkerId, owner: Process) {
    step == Reclaim(owner) || step == Advance(m, ReleaseLease)
  }

  lemma HandoffFinish(s: State, t: Thread, finish: Finish, m: MarkerId, d: real)
    requires Inv(s) && Enabled(s, Finishes(t, finish)) && HandedOver(s, m, d)
    ensures HandedOver(AfterFinish(s, t, finish), m, d)
    ensures AfterFinish(s, t, finish).markers[m].owner == s.markers[m].owner
  {
    assert WaiterOk(s, t) && MarkerOk(s, m);
  }

  lemma HandoffWait(s: State, t: Thread, wait: Wait, m: MarkerId, d: real)
    requires Inv(s) && Enabled(s, Waits(t, wait)) && HandedOver(s, m, d) && s.now < d
    ensures HandedOver(AfterWait(s, t, wait), m, d)
    ensures AfterWait(s, t, wait).markers[m].owner == s.markers[m].owner
  {
    assert WaiterOk(s, t) && MarkerOk(s, m);
  }

  lemma HandoffLease(s: State, j: MarkerId, lease: Lease, m: MarkerId, d: real)
    requires Inv(s) && Enabled(s, Advance(j, lease)) && HandedOver(s, m, d)
    requires j == m ==> !lease.ReleaseLease?
    ensures HandedOver(AfterAdvance(s, j, lease), m, d)
    ensures AfterAdvance(s, j, lease).markers[m].owner == s.markers[m].owner
  {
    assert ReservationOk(s, j);
  }

  lemma HandoffCrash(s: State, p: Process, m: MarkerId, d: real)
    requires Inv(s) && HandedOver(s, m, d)
    ensures HandedOver(Crashed(s, p), m, d)
    ensures Crashed(s, p).markers[m].owner == s.markers[m].owner
  {
    if s.markers[m].lock.ByThread? {
      assert WaiterOk(s, s.markers[m].lock.thread) && MarkerOk(s, m);
    }
  }

  lemma HandoffStep(s: State, step: Step, m: MarkerId, d: real)
    requires Inv(s) && Enabled(s, step) && HandedOver(s, m, d) && s.now < d
    requires !EndsHandoff(step, m, s.markers[m].owner)
    ensures HandedOver(Effect(s, step), m, d)
    ensures Effect(s, step).markers[m].owner == s.markers[m].owner && s.now <= Effect(s, step).now
  {
    assert MarkerOk(s, m) && ReservationOk(s, m);
    match step
    case Waits(t, wait) => HandoffWait(s, t, wait, m, d);
    case Finishes(t, finish) => HandoffFinish(s, t, finish, m, d);
    case Advance(j, lease) => HandoffLease(s, j, lease, m, d);
    case Crash(p) => HandoffCrash(s, p, m, d);
    case _ =>
  }

  /**
   * From a successful arming up to its deadline the marker is active in every state, through the release of the
   * slot, the release of the marker, scans and crashes, unless its owner removes it.
   */
  lemma {:induction false} HandoffHasNoGap(r: Run, m: MarkerId, d: real, i: nat)
    requires IsRun(r) && Inv(r.states[0]) && HandedOver(r.states[0], m, d) && i <= |r.steps|
    requires forall k :: 0 <= k < i ==> !EndsHandoff(r.steps[k], m, r.states[0].markers[m].owner)
    requires r.states[i].now < d
    ensures ActiveMarker(r.states[i], m)
    ensures HandedOver(r.states[i], m, d) && r.states[i].markers[m].owner == r.states[0].markers[m].owner
  {
    if i > 0 {
      RunKeeps(r, i - 1);
      TimeForward(r.states[i - 1], r.steps[i - 1]);
      HandoffHasNoGap(r, m, d, i - 1);
      HandoffStep(r.states[i - 1], r.steps[i - 1], m, d);
    }
    RunKeeps(r, i);
    assert MarkerOk(r.states[i], m);
  }

  lemma TimeForward(s: State, step: Step)
    requires Enabled(s, step)
    ensures s.now <= Effect(s, step).now
  {
    match step
    case Waits(_, _) =>
    case Works(_, _) =>
    case Finishes(_, _) =>
    case Advance(_, _) =>
    case _ =>
  }

  lemma {:induction false} ClockNeverRunsBack(r: Run, i: nat, j: nat)
    requires IsRun(r) && i <= j <= |r.steps|
    ensures r.states[i].now <= r.states[j].now
  {
    if i < j {
      assert Enabled(r.states[j - 1], r.steps[j - 1]) && r.states[j] == Effect(r.states[j - 1], r.steps[j - 1]);
      TimeForward(r.states[j - 1], r.steps[j - 1]);
      ClockNeverRunsBack(r, i, j - 1);
    }
  }

  /**
   * The handoff does what it is for: from the moment an exiting foreground admission has armed its marker and still
   * holds the slot, no background thread gets into a body before the deadline.
   */
  lemma HandoffKeepsBackgroundOut(r: Run, t: Thread, m: MarkerId, d: real, i: nat, u: Thread)
    requires IsRun(r) && Inv(r.states[0]) && i <= |r.steps| && u.process.background
    requires t in r.states[0].threads && r.states[0].threads[t] == Local(Unlocking(true), Some(m))
    requires m in r.states[0].markers && r.states[0].markers[m].deadline == Some(d)
    requires forall k :: 0 <= k < i ==> !EndsHandoff(r.steps[k], m, t.process)
    requires r.states[i].now < d
    ensures !Inside(r.states[i], u) && !Committed(r.states[i], u)
  {
    var s := r.states[0];
    assert WaiterOk(s, t) && ReservationOk(s, m) && ThreadLocks(s, t) && ThreadLocks(s, u) && LocalOk(s, t);
    forall k | 0 <= k < i ensures AnyActive(r.states[k]) {
      ClockNeverRunsBack(r, k, i);
      HandoffHasNoGap(r, m, d, k);
    }
    if Committed(r.states[i], u) {
      NoNewCommitment(r, 0, i, u);
    }
  }

  /** Whatever a crash or a lease leaves unlocked is inactive within the maximal lease of its last write. */
  lemma UnlockedMarkersExpire(s: State, m: MarkerId)
    requires Reachable(s) && m in s.markers && s.markers[m].lock.Unlocked?
    requires s.now >= s.markers[m].written + MAX_LEASE
    ensures !ActiveMarker(s, m) && m !in Effect(s, Sweep).markers
  {
    ReachableInv(s);
    assert MarkerOk(s, m);
  }
}
