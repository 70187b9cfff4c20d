/** What every step of the admission protocol keeps, and mutual exclusion over whole runs. */
module AdmissionSafety {
  import opened Basics
  import opened Admission

  // ---------------------------------------------------------------- locks

  /** The locks change as `t` goes from one grip to another. */
  predicate LocksFollow(s: State, s': State, t: Thread, before: Grip, after: Grip) {
    var p := t.process;
    if before == after || (before.Retained? && after.Nothing?) then
      s'.gate == s.gate && s'.slot == s.slot && s'.sticky == s.sticky
    else if before.GateAndSlot? && after.Retained? then
      s'.gate == s.gate && s'.slot == s.slot && s'.sticky == s.sticky + {p}
    else
      s'.sticky == s.sticky &&
      match (before, after)
      case (Nothing, Gate) => p !in s.gate && p !in s.crashed && s'.gate == s.gate[p := t] && s'.slot == s.slot
      case (Gate, GateAndSlot) => s.slot.None? && s'.slot == Some(t) && s'.gate == s.gate
      case (GateAndSlot, Gate) => s'.slot.None? && s'.gate == s.gate
      case (Gate, Nothing) => s'.gate == s.gate - {p} && s'.slot == s.slot
      case _ => false
  }

  lemma LocksFollowKeeps(s: State, s': State, t: Thread)
    requires LocksOk(s) && s'.crashed == s.crashed
    requires forall u :: u != t ==> GripAt(s', u) == GripAt(s, u)
    requires LocksFollow(s, s', t, GripAt(s, t), GripAt(s', t))
    ensures LocksOk(s')
  {
    assert ThreadLocks(s, t) && GateOk(s, t.process);
    forall u ensures ThreadLocks(s', u) {
      assert ThreadLocks(s, u);
    }
    forall p ensures GateOk(s', p) {
      assert GateOk(s, p);
    }
  }

  // ---------------------------------------------------------------- markers

  /** The markers and who waits on them do not change. */
  ghost predicate SameMarkers(s: State, s': State) {
    && s'.markers == s.markers && s'.nextMarker == s.nextMarker && s'.reserving == s.reserving
    && s'.crashed == s.crashed && s'.now == s.now
    && forall t :: WaiterAt(s', t) == WaiterAt(s, t)
  }

  lemma SameMarkersKeeps(s: State, s': State)
    requires MarkersOk(s) && SameMarkers(s, s')
    ensures MarkersOk(s')
  {
    forall t ensures WaiterOk(s', t) {
      assert WaiterOk(s, t);
    }
    forall m ensures MarkerOk(s', m) {
      assert MarkerOk(s, m);
    }
    forall m ensures ReservationOk(s', m) {
      assert ReservationOk(s, m);
    }
  }

  /** Deleting markers that nobody has locked: scans, exit-time reclaims and consumed leases. */
  lemma DropUnlockedKeeps(s: State, s': State)
    requires Inv(s) && s' == s.(markers := s'.markers)
    requires forall m :: m in s'.markers ==> m in s.markers && s'.markers[m] == s.markers[m]
    requires forall m :: m in s.markers && !s.markers[m].lock.Unlocked? ==> m in s'.markers
    ensures Inv(s')
  {
    forall t ensures WaiterOk(s', t) && ThreadLocks(s', t) && LocalOk(s', t) {
      assert WaiterOk(s, t) && ThreadLocks(s, t) && LocalOk(s, t);
    }
    forall p ensures GateOk(s', p) {
      assert GateOk(s, p);
    }
    forall m ensures MarkerOk(s', m) && ReservationOk(s', m) {
      assert MarkerOk(s, m) && ReservationOk(s, m);
    }
  }

  /** Writing a bounded deadline into a marker. */
  lemma RewriteKeeps(s: State, m: MarkerId, deadline: Option<real>)
    requires Inv(s) && m in s.markers
    requires deadline.Some? ==> deadline.value <= s.now + MAX_LEASE
    ensures Inv(Rewrite(s, m, deadline))
  {
    var s' := Rewrite(s, m, deadline);
    forall t ensures WaiterOk(s', t) && ThreadLocks(s', t) && LocalOk(s', t) {
      assert WaiterOk(s, t) && ThreadLocks(s, t) && LocalOk(s, t);
    }
    forall p ensures GateOk(s', p) {
      assert GateOk(s, p);
    }
    forall j ensures MarkerOk(s', j) && ReservationOk(s', j) {
      assert MarkerOk(s, j) && ReservationOk(s, j);
    }
  }

  // ---------------------------------------------------------------- one thread moves

  /** `t` moves to `pc`, and the locks with it. */
  lemma MoveKeeps(s: State, s': State, t: Thread, pc: Pc)
    requires Inv(s) && t in s.threads
    requires s' == At(s, t, pc).(slot := s'.slot, gate := s'.gate, sticky := s'.sticky)
    requires PlaceOk(t, s.threads[t].(pc := pc), s.now)
    requires LocksFollow(s, s', t, GripOf(s.threads[t].pc), GripOf(pc))
    ensures Inv(s')
  {
    assert LocalOk(s, t);
    forall u ensures LocalOk(s', u) {
      assert LocalOk(s, u);
    }
    LocksFollowKeeps(s, s', t);
    SameMarkersKeeps(s, s');
  }

  lemma WorkKeeps(s: State, t: Thread, work: Work)
    requires Inv(s) && t in s.threads && CanWork(s, t, work)
    ensures Inv(AfterWork(s, t, work))
  {
    var s' := AfterWork(s, t, work);
    assert LocalOk(s, t);
    MoveKeeps(s, s', t, s'.threads[t].pc);
  }

  lemma GateWaitKeeps(s: State, t: Thread, wait: Wait)
    requires Inv(s) && t in s.threads && CanWait(s, t, wait)
    requires wait.CheckSticky? || wait.GateTimeout? || wait.AcquireGate? || wait.AcquireSlot?
    ensures Inv(AfterWait(s, t, wait))
  {
    var s' := AfterWait(s, t, wait);
    assert LocalOk(s, t);
    MoveKeeps(s, s', t, s'.threads[t].pc);
  }

  lemma SlotWaitKeeps(s: State, t: Thread, wait: Wait)
    requires Inv(s) && t in s.threads && CanWait(s, t, wait)
    requires wait.TrySlot? || wait.BackOff? || wait.EnterBody? || wait.Abort?
    ensures Inv(AfterWait(s, t, wait))
  {
    var s' := AfterWait(s, t, wait);
    assert LocalOk(s, t);
    MoveKeeps(s, s', t, s'.threads[t].pc);
  }

  /** `t` enters or leaves the protocol; outside of it a thread owns no marker. */
  lemma PresenceKeeps(s: State, s': State, t: Thread)
    requires Inv(s)
    requires s' == s.(threads := s'.threads, gate := s'.gate)
    requires forall u :: u != t ==> (u in s'.threads <==> u in s.threads)
    requires forall u :: u != t && u in s.threads ==> s'.threads[u] == s.threads[u]
    requires WaiterAt(s, t).None? && WaiterAt(s', t).None?
    requires LocksFollow(s, s', t, GripAt(s, t), GripAt(s', t)) && LocalOk(s', t)
    ensures Inv(s')
  {
    forall u ensures LocalOk(s', u) {
      assert LocalOk(s, u);
    }
    LocksFollowKeeps(s, s', t);
    SameMarkersKeeps(s, s');
  }

  lemma RegisterKeeps(s: State, t: Thread)
    requires Inv(s) && t in s.threads && s.threads[t].pc.Registering?
    ensures Inv(AfterWait(s, t, Register))
  {
    var s' := AfterWait(s, t, Register);
    assert LocalOk(s, t) && MarkerOk(s, s.nextMarker);
    forall u ensures LocalOk(s', u) && WaiterOk(s', u) {
      assert LocalOk(s, u) && WaiterOk(s, u);
    }
    forall m ensures MarkerOk(s', m) && ReservationOk(s', m) {
      assert MarkerOk(s, m) && ReservationOk(s, m);
    }
    LocksFollowKeeps(s, s', t);
  }

  lemma ScanKeeps(s: State)
    requires Inv(s)
    ensures Inv(Scanned(s))
  {
    DropUnlockedKeeps(s, Scanned(s));
  }

  lemma WaitKeeps(s: State, t: Thread, wait: Wait)
    requires Inv(s) && t in s.threads && CanWait(s, t, wait)
    ensures Inv(AfterWait(s, t, wait))
  {
    var s' := AfterWait(s, t, wait);
    assert LocalOk(s, t);
    match wait
    case Register => RegisterKeeps(s, t);
    case RegisterFails => PresenceKeeps(s, s', t);
    case ScanFirst => ScanKeeps(s); MoveKeeps(Scanned(s), s', t, s'.threads[t].pc);
    case ScanConfirm => ScanKeeps(s); MoveKeeps(Scanned(s), s', t, s'.threads[t].pc);
    case TrySlot => SlotWaitKeeps(s, t, wait);
    case BackOff => SlotWaitKeeps(s, t, wait);
    case EnterBody => SlotWaitKeeps(s, t, wait);
    case Abort => SlotWaitKeeps(s, t, wait);
    case _ => GateWaitKeeps(s, t, wait);
  }

  lemma ClearKeepsMarkers(s: State, t: Thread)
    requires Inv(s) && t in s.threads && s.threads[t].pc.Clearing?
    ensures MarkersOk(AfterFinish(s, t, Clear))
  {
    var s' := AfterFinish(s, t, Clear);
    assert WaiterOk(s, t);
    forall u ensures WaiterOk(s', u) {
      assert WaiterOk(s, u);
    }
    forall m ensures MarkerOk(s', m) && ReservationOk(s', m) {
      assert MarkerOk(s, m) && ReservationOk(s, m);
    }
  }

  lemma ClearKeeps(s: State, t: Thread)
    requires Inv(s) && t in s.threads && s.threads[t].pc.Clearing?
    ensures Inv(AfterFinish(s, t, Clear))
  {
    var s' := AfterFinish(s, t, Clear);
    assert LocalOk(s, t);
    forall u ensures LocalOk(s', u) {
      assert LocalOk(s, u);
    }
    ClearKeepsMarkers(s, t);
    LocksFollowKeeps(s, s', t);
  }

  /** Arming writes into the marker of `t` and then moves `t`. */
  lemma ArmKeeps(s: State, t: Thread, written: Option<real>, pc: Pc)
    requires Inv(s) && t in s.threads && WaiterPresent(s, t)
    requires written.Some? ==> written.value <= s.now + MAX_LEASE
    requires PlaceOk(t, s.threads[t].(pc := pc), s.now) && GripOf(s.threads[t].pc) == GripOf(pc)
    ensures Inv(At(Rewrite(s, s.threads[t].waiter.value, written), t, pc))
  {
    var s1 := Rewrite(s, s.threads[t].waiter.value, written);
    RewriteKeeps(s, s.threads[t].waiter.value, written);
    MoveKeeps(s1, At(s1, t, pc), t, pc);
  }

  lemma ArmingKeeps(s: State, t: Thread, finish: Finish)
    requires Inv(s) && t in s.threads && CanFinish(s, t, finish)
    requires finish.Truncate? || finish.Write? || finish.ArmFails?
    ensures Inv(AfterFinish(s, t, finish))
  {
    var s' := AfterFinish(s, t, finish);
    assert LocalOk(s, t);
    match finish
    case Truncate(configured) =>
      var grace := ArmedGrace(s.threads[t].pc.grace, configured);
      if grace <= 0.0 {
        MoveKeeps(s, s', t, Unlocking(false));
      } else {
        ArmKeeps(s, t, None, Stamping(grace));
      }
    case Write => ArmKeeps(s, t, Some(s.threads[t].pc.deadline), Unlocking(true));
    case ArmFails(_) => ArmKeeps(s, t, s'.markers[s.threads[t].waiter.value].deadline, Unlocking(false));
  }

  lemma FinishKeeps(s: State, t: Thread, finish: Finish)
    requires Inv(s) && t in s.threads && CanFinish(s, t, finish)
    ensures Inv(AfterFinish(s, t, finish))
  {
    var s' := AfterFinish(s, t, finish);
    assert LocalOk(s, t);
    match finish
    case Clear => ClearKeeps(s, t);
    case Leave => PresenceKeeps(s, s', t);
    case Stamp => MoveKeeps(s, s', t, s'.threads[t].pc);
    case Unlock => MoveKeeps(s, s', t, s'.threads[t].pc);
    case MarkSticky => MoveKeeps(s, s', t, s'.threads[t].pc);
    case _ => ArmingKeeps(s, t, finish);
  }

  // ---------------------------------------------------------------- leases and the environment

  /** Nothing a thread stands on changes while a reservation works on its own marker `m`. */
  lemma ReservationKeeps(s: State, s': State, m: MarkerId)
    requires Inv(s)
    requires s' == s.(markers := s'.markers, reserving := s'.reserving, nextMarker := s'.nextMarker)
    requires s'.nextMarker >= s.nextMarker
    requires s'.markers - {m} == s.markers - {m} && s'.reserving - {m} == s.reserving - {m}
    requires m in s.markers ==> !s.markers[m].lock.ByThread?
    requires MarkerOk(s', m) && ReservationOk(s', m)
    ensures Inv(s')
  {
    forall t ensures WaiterOk(s', t) && ThreadLocks(s', t) && LocalOk(s', t) {
      assert WaiterOk(s, t) && ThreadLocks(s, t) && LocalOk(s, t);
      assert WaiterAt(s, t) != Some(m);
      assert forall j :: j in s.markers && j != m ==> j in s.markers - {m};
      assert forall j :: j in s'.markers - {m} ==> s'.markers[j] == (s'.markers - {m})[j];
    }
    forall p ensures GateOk(s', p) {
      assert GateOk(s, p);
    }
    forall j | j != m ensures MarkerOk(s', j) && ReservationOk(s', j) {
      assert MarkerOk(s, j) && ReservationOk(s, j);
      assert j in s'.markers <==> j in s'.markers - {m};
      assert j in s'.reserving <==> j in s'.reserving - {m};
      assert j in s.markers <==> j in s.markers - {m};
      assert j in s.reserving <==> j in s.reserving - {m};
    }
  }

  lemma AdvanceKeeps(s: State, m: MarkerId, lease: Lease)
    requires Inv(s) && m in s.reserving && CanAdvance(s, m, lease)
    ensures Inv(AfterAdvance(s, m, lease))
  {
    assert MarkerOk(s, m) && ReservationOk(s, m);
    ReservationKeeps(s, AfterAdvance(s, m, lease), m);
  }

  lemma ReserveKeeps(s: State, p: Process, seconds: Option<real>)
    requires Inv(s) && Enabled(s, Reserve(p, seconds))
    ensures Inv(Effect(s, Reserve(p, seconds)))
  {
    assert MarkerOk(s, s.nextMarker) && ReservationOk(s, s.nextMarker);
    ReservationKeeps(s, Effect(s, Reserve(p, seconds)), s.nextMarker);
  }

  lemma CrashKeeps(s: State, p: Process)
    requires Inv(s)
    ensures Inv(Crashed(s, p))
  {
    var s' := Crashed(s, p);
    forall t ensures WaiterOk(s', t) && ThreadLocks(s', t) && LocalOk(s', t) {
      assert WaiterOk(s, t) && ThreadLocks(s, t) && LocalOk(s, t);
    }
    forall q ensures GateOk(s', q) {
      assert GateOk(s, q);
    }
    forall m ensures MarkerOk(s', m) && ReservationOk(s', m) {
      assert MarkerOk(s, m) && ReservationOk(s, m);
      if m in s.markers && s.markers[m].lock.ByThread? {
        assert WaiterOk(s, s.markers[m].lock.thread);
      }
    }
  }

  lemma TickKeeps(s: State, elapsed: real)
    requires Inv(s) && elapsed > 0.0
    ensures Inv(s.(now := s.now + elapsed))
  {
    var s' := s.(now := s.now + elapsed);
    forall t ensures WaiterOk(s', t) && ThreadLocks(s', t) && LocalOk(s', t) {
      assert WaiterOk(s, t) && ThreadLocks(s, t) && LocalOk(s, t);
    }
    forall q ensures GateOk(s', q) {
      assert GateOk(s, q);
    }
    forall m ensures MarkerOk(s', m) && ReservationOk(s', m) {
      assert MarkerOk(s, m) && ReservationOk(s, m);
    }
  }

  lemma StepKeeps(s: State, step: Step)
    requires Inv(s) && Enabled(s, step)
    ensures Inv(Effect(s, step))
  {
    match step
    case Begin(t) => PresenceKeeps(s, Effect(s, step), t);
    case Waits(t, wait) => WaitKeeps(s, t, wait);
    case Works(t, work) => WorkKeeps(s, t, work);
    case Finishes(t, finish) => FinishKeeps(s, t, finish);
    case Reserve(p, seconds) => ReserveKeeps(s, p, seconds);
    case Advance(m, lease) => AdvanceKeeps(s, m, lease);
    case Sweep => ScanKeeps(s);
    case Reclaim(p) => DropUnlockedKeeps(s, Reclaimed(s, p));
    case Crash(p) => CrashKeeps(s, p);
    case Tick(elapsed) => TickKeeps(s, elapsed);
  }

  // ---------------------------------------------------------------- whole runs

  lemma {:induction false} RunKeeps(r: Run, i: nat)
    requires IsRun(r) && Inv(r.states[0]) && i <= |r.steps|
    ensures Inv(r.states[i])
  {
    if i > 0 {
      RunKeeps(r, i - 1);
      StepKeeps(r.states[i - 1], r.steps[i - 1]);
    }
  }

  lemma ReachableInv(s: State)
    requires Reachable(s)
    ensures Inv(s)
  {
    var r: Run :| IsRun(r) && Initial(r.states[0]) && r.states[|r.steps|] == s;
    RunKeeps(r, |r.steps|);
  }

  predicate Inside(s: State, t: Thread) {
    t in s.threads && s.threads[t].pc.InBody?
  }

  /** Over all runs, with crashes: at most one thread of all processes is in the outermost body. */
  lemma MutualExclusion(s: State, t: Thread, u: Thread)
    requires Reachable(s) && Inside(s, t) && Inside(s, u)
    ensures t == u
    ensures s.slot == Some(t) && OwnsGate(s, t)
  {
    ReachableInv(s);
    assert ThreadLocks(s, t) && ThreadLocks(s, u);
  }

  /** From the outermost body to the return. */
  predicate Visiting(pc: Pc) {
    || pc.InBody? || pc.Arming? || pc.Stamping? || pc.Writing? || pc.Unlocking?
    || pc.Retaining? || pc.Clearing? || pc.Leaving?
  }

  /** What `t` has at `s'` of slot, gate and marker it had already at `s`. */
  ghost predicate TookNothing(s: State, s': State, t: Thread) {
    && (s'.slot == Some(t) ==> s.slot == Some(t))
    && (OwnsGate(s', t) ==> OwnsGate(s, t))
    && (WaiterAt(s', t).Some? ==> WaiterAt(s, t) == WaiterAt(s', t))
  }

  ghost predicate GoesOn(s: State, s': State, t: Thread) {
    t in s'.threads ==> Visiting(s'.threads[t].pc) && TookNothing(s, s', t)
  }

  lemma VisitWait(s: State, u: Thread, wait: Wait, t: Thread)
    requires Enabled(s, Waits(u, wait)) && t in s.threads && Visiting(s.threads[t].pc)
    ensures GoesOn(s, AfterWait(s, u, wait), t)
  {
  }

  lemma VisitFinish(s: State, u: Thread, finish: Finish, t: Thread)
    requires Enabled(s, Finishes(u, finish)) && t in s.threads && Visiting(s.threads[t].pc)
    ensures GoesOn(s, AfterFinish(s, u, finish), t)
  {
  }

  lemma VisitStep(s: State, step: Step, t: Thread)
    requires Enabled(s, step) && t in s.threads && Visiting(s.threads[t].pc)
    ensures GoesOn(s, Effect(s, step), t)
  {
    match step
    case Waits(u, wait) => VisitWait(s, u, wait, t);
    case Finishes(u, finish) => VisitFinish(s, u, finish, t);
    case _ =>
  }

  /**
   * During one visit, whatever scopes are entered and left inside it, slot, gate and marker are each given back at most
   * once and never taken again; and as long as the body lasts none of the three is given back.
   */
  lemma {:induction false} OneVisitTakesOnce(r: Run, t: Thread, i: nat, j: nat)
    requires IsRun(r) && Inv(r.states[0]) && i <= j <= |r.steps|
    requires forall k :: i <= k <= j ==> t in r.states[k].threads
    requires Visiting(r.states[i].threads[t].pc)
    ensures Visiting(r.states[j].threads[t].pc) && TookNothing(r.states[i], r.states[j], t)
    ensures Inside(r.states[j], t) ==>
      && r.states[i].slot == Some(t) && OwnsGate(r.states[i], t)
      && WaiterAt(r.states[i], t) == WaiterAt(r.states[j], t)
  {
    if i < j {
      OneVisitTakesOnce(r, t, i, j - 1);
      VisitStep(r.states[j - 1], r.steps[j - 1], t);
    }
    RunKeeps(r, i);
    RunKeeps(r, j);
    assert ThreadLocks(r.states[j], t) && LocalOk(r.states[i], t) && LocalOk(r.states[j], t);
  }

  /** A thread that has returned has left nothing behind, unless its slot was retained. */
  lemma NothingLeftBehind(s: State, t: Thread)
    requires Reachable(s) && t !in s.threads && t.process !in s.sticky
    ensures s.slot != Some(t) && !OwnsGate(s, t)
    ensures forall m :: m in s.markers ==> s.markers[m].lock != ByThread(t)
  {
    ReachableInv(s);
    assert SlotOk(s) && GateOk(s, t.process);
    forall m | m in s.markers ensures s.markers[m].lock != ByThread(t) {
      assert MarkerOk(s, m);
    }
  }

  /** The exit of the outermost scope gives back exactly what it took: both locks are still its own. */
  lemma ExitReleasesItsOwnLocks(s: State, t: Thread, finish: Finish)
    requires Reachable(s) && Enabled(s, Finishes(t, finish))
    ensures finish.Unlock? ==> s.slot == Some(t) && Effect(s, Finishes(t, finish)).slot.None?
    ensures finish.Leave? && s.threads[t].pc.debt.Release? ==>
      OwnsGate(s, t) && s.slot != Some(t) && t.process !in Effect(s, Finishes(t, finish)).gate
    ensures finish.Clear? && s.threads[t].waiter.Some? ==>
      var m, after := s.threads[t].waiter.value, Effect(s, Finishes(t, finish)).markers;
      && m in s.markers && s.markers[m].lock == ByThread(t)
      && after == if s.threads[t].pc.preserve then s.markers[m := s.markers[m].(lock := Unlocked)] else s.markers - {m}
  {
    ReachableInv(s);
    assert ThreadLocks(s, t) && WaiterOk(s, t);
  }

  // ---------------------------------------------------------------- retention

  /** `t` asked to keep the slot: it is still in the body, on its way out, or the gate is sticky. */
  predicate Retention(s: State, t: Thread) {
    && s.slot == Some(t)
    && (|| t.process in s.sticky
        || (t in s.threads && (s.threads[t].pc.Retaining? || (s.threads[t].pc.InBody? && s.threads[t].pc.retained))))
  }

  /** A request in any scope of the body is a retention from then on. */
  lemma RequestRetains(s: State, t: Thread)
    requires Inv(s) && Inside(s, t)
    ensures Enabled(s, Works(t, RequestRetention)) && Retention(Effect(s, Works(t, RequestRetention)), t)
  {
    assert ThreadLocks(s, t);
  }

  lemma RetentionWait(s: State, u: Thread, wait: Wait, t: Thread)
    requires Inv(s) && Enabled(s, Waits(u, wait)) && Retention(s, t)
    ensures Retention(AfterWait(s, u, wait), t)
  {
    assert ThreadLocks(s, u);
  }

  lemma RetentionFinish(s: State, u: Thread, finish: Finish, t: Thread)
    requires Inv(s) && Enabled(s, Finishes(u, finish)) && Retention(s, t)
    ensures Retention(AfterFinish(s, u, finish), t)
  {
    assert ThreadLocks(s, u);
  }

  lemma RetentionStep(s: State, step: Step, t: Thread)
    requires Inv(s) && Enabled(s, step) && Retention(s, t) && step != Crash(t.process)
    ensures Retention(Effect(s, step), t)
  {
    match step
    case Waits(u, wait) => RetentionWait(s, u, wait, t);
    case Finishes(u, finish) => RetentionFinish(s, u, finish, t);
    case _ =>
  }

  /** Nobody can be admitted through the gate of `p`: its callers wait only to be refused. */
  ghost predicate Closed(s: State, p: Process) {
    forall u: Thread :: u.process == p && u in s.threads ==>
      && !CanWait(s, u, AcquireGate)
      && (CanWait(s, u, CheckSticky) ==> AfterWait(s, u, CheckSticky).threads[u].pc == Clearing(false, NoGate))
  }

  lemma RetentionExcludes(s: State, t: Thread)
    requires Inv(s) && Retention(s, t)
    ensures forall u :: Inside(s, u) ==> u == t && t.process !in s.sticky
    ensures t.process in s.sticky ==> Closed(s, t.process)
  {
    assert GateOk(s, t.process);
    forall u | Inside(s, u) ensures u == t && t.process !in s.sticky {
      assert ThreadLocks(s, u);
    }
  }

  /**
   * Once any scope of `t` asked for retention, and until the process of `t` dies, nobody else is in a body;
   * after `t` left, nobody is, and the gate of that process only refuses.
   */
  lemma {:induction false} RetentionLastsUntilDeath(r: Run, t: Thread, i: nat)
    requires IsRun(r) && Inv(r.states[0]) && Retention(r.states[0], t) && i <= |r.steps|
    requires Crash(t.process) !in r.steps[..i]
    ensures Retention(r.states[i], t)
    ensures forall u :: Inside(r.states[i], u) ==> u == t && t.process !in r.states[i].sticky
    ensures t.process in r.states[i].sticky ==> Closed(r.states[i], t.process)
  {
    if i > 0 {
      RetentionLastsUntilDeath(r, t, i - 1);
      RunKeeps(r, i - 1);
      assert r.steps[i - 1] in r.steps[..i];
      RetentionStep(r.states[i - 1], r.steps[i - 1], t);
    }
    RunKeeps(r, i);
    RetentionExcludes(r.states[i], t);
  }
}
