/** Freedom from deadlock: every pending admission can always be run to its end. */
module AdmissionProgress {
  import opened Basics
  import opened Admission
  import opened AdmissionSafety

  /** No slot is retained and nobody inside a body has asked for it. */
  ghost predicate Unretained(s: State) {
    s.sticky == {} && forall t :: t in s.threads ==> Releasing(s.threads[t].pc)
  }

  predicate Releasing(pc: Pc) {
    !pc.Retaining? && (pc.InBody? ==> !pc.retained)
  }

  /** The step that takes a thread further; spinning is not among them. */
  function Onward(t: Thread, pc: Pc): Step {
    match pc
    case Registering => Waits(t, Register)
    case AwaitingGate(checked) => Waits(t, if checked then AcquireGate else CheckSticky)
    case AwaitingSlot => Waits(t, AcquireSlot)
    case FirstScan => Waits(t, ScanFirst)
    case TryingSlot => Waits(t, TrySlot)
    case ConfirmingScan => Waits(t, ScanConfirm)
    case BackingOff => Waits(t, BackOff)
    case Confirmed => Waits(t, EnterBody)
    case InBody(depth, _, _) => Works(t, if depth > 1 then Unnest else ExitBody)
    case Arming(_) => Finishes(t, Truncate(1.0))
    case Stamping(_) => Finishes(t, Stamp)
    case Writing(_) => Finishes(t, Write)
    case Unlocking(_) => Finishes(t, Unlock)
    case Retaining => Finishes(t, MarkSticky)
    case Clearing(_, _) => Finishes(t, Clear)
    case Leaving(_) => Finishes(t, Leave)
  }

  /** The onward step of `t` is enabled and does not just spin. */
  predicate CanProceed(s: State, t: Thread) {
    && t in s.threads
    && var pc := s.threads[t].pc;
    && (pc == AwaitingGate(true) ==> t.process !in s.gate)
    && (pc.AwaitingSlot? || pc.TryingSlot? ==> s.slot.None?)
    && (pc.FirstScan? ==> !AnyActive(s))
  }

  /** How far a place is from the end of its admission. */
  function Weight(pc: Pc): nat {
    match pc
    case Registering => 16
    case AwaitingGate(checked) => if checked then 14 else 15
    case AwaitingSlot => 9
    case FirstScan => 13
    case TryingSlot => 12
    case ConfirmingScan => 10
    case BackingOff => 14
    case Confirmed => 9
    case InBody(depth, _, _) => 7 + depth
    case Arming(_) => 7
    case Stamping(_) => 6
    case Writing(_) => 5
    case Unlocking(_) => 4
    case Retaining => 4
    case Clearing(_, _) => 3
    case Leaving(_) => 2
  }

  function ForegroundWeight(t: Thread, l: Local): nat {
    if t.process.background then 0 else Weight(l.pc)
  }

  function BackgroundWeight(t: Thread, l: Local): nat {
    if t.process.background then Weight(l.pc) else 0
  }

  /** While foreground work is pending only the background holder of the slot has to move. */
  function ParkedWeight(t: Thread, l: Local): nat {
    if !t.process.background || !HoldsSlot(l.pc) then 0
    else if l.pc.BackingOff? then 1 else Weight(l.pc)
  }

  function LeaseWeight(m: MarkerId, r: Reservation): nat {
    match r.phase
    case ReserveStamping(_) => 3
    case ReserveWriting(_) => 2
    case ReserveClearing(_) => 1
    case Held => 0
  }

  ghost function Foreground(s: State): nat {
    Sum(s.threads, ForegroundWeight) + Sum(s.reserving, LeaseWeight)
  }

  ghost function Blocked(s: State): nat {
    if Foreground(s) == 0 && AnyActive(s) then 1 else 0
  }

  ghost function Background(s: State): nat {
    if Foreground(s) > 0 then Sum(s.threads, ParkedWeight) else Sum(s.threads, BackgroundWeight)
  }

  ghost predicate Drained(s: State) {
    s.threads == map[] && Foreground(s) == 0
  }

  // ---------------------------------------------------------------- one step onward

  /** The place `l'` is nearer to the end than `l`, as far as the present markers let it be. */
  predicate Nearer(t: Thread, l: Local, l': Local, anyActive: bool) {
    && Releasing(l'.pc)
    && (!t.process.background ==> Weight(l'.pc) < Weight(l.pc))
    && (t.process.background && HoldsSlot(l.pc) ==> ParkedWeight(t, l') < ParkedWeight(t, l))
    && (t.process.background && !anyActive ==> Weight(l'.pc) < Weight(l.pc))
  }

  /** After its onward step `t` is gone or nearer to the end; nobody else moved. */
  ghost predicate Onwards(s: State, s': State, t: Thread) {
    && t in s.threads && s'.reserving == s.reserving && s'.now == s.now && s'.sticky == s.sticky
    && (|| s'.threads == s.threads - {t}
        || (&& t in s'.threads && s'.threads == s.threads[t := s'.threads[t]]
            && Nearer(t, s.threads[t], s'.threads[t], AnyActive(s))))
  }

  /** All that an onward step of `t` depends on. */
  ghost predicate Ready(s: State, t: Thread) {
    CanProceed(s, t) && LocalOk(s, t) && WaiterOk(s, t) && Releasing(s.threads[t].pc)
  }

  /** The onward step of `t` can be taken and brings it nearer to its end. */
  ghost predicate GetsOn(s: State, t: Thread) {
    && t in s.threads && Enabled(s, Onward(t, s.threads[t].pc))
    && Onwards(s, Effect(s, Onward(t, s.threads[t].pc)), t)
  }

  lemma ForegroundWaitOnward(s: State, t: Thread)
    requires Ready(s, t) && Onward(t, s.threads[t].pc).Waits? && !t.process.background
    ensures GetsOn(s, t)
  {
  }

  lemma GateOnward(s: State, t: Thread)
    requires Ready(s, t) && s.threads[t].pc.AwaitingGate? && t.process.background
    ensures GetsOn(s, t)
  {
  }

  lemma ScanOnward(s: State, t: Thread)
    requires Ready(s, t) && (s.threads[t].pc.FirstScan? || s.threads[t].pc.TryingSlot?)
    ensures GetsOn(s, t)
  {
  }

  lemma ConfirmOnward(s: State, t: Thread)
    requires Ready(s, t) && Onward(t, s.threads[t].pc).Waits? && t.process.background && HoldsSlot(s.threads[t].pc)
    ensures GetsOn(s, t)
  {
  }

  lemma BodyOnward(s: State, t: Thread)
    requires Ready(s, t) && Onward(t, s.threads[t].pc).Works?
    ensures GetsOn(s, t)
  {
  }

  lemma ArmOnward(s: State, t: Thread)
    requires Ready(s, t) && s.threads[t].pc.Arming?
    ensures GetsOn(s, t)
  {
  }

  lemma WriteOnward(s: State, t: Thread)
    requires Ready(s, t) && (s.threads[t].pc.Stamping? || s.threads[t].pc.Writing? || s.threads[t].pc.Unlocking?)
    ensures GetsOn(s, t)
  {
  }

  lemma ExitOnward(s: State, t: Thread)
    requires Ready(s, t) && Onward(t, s.threads[t].pc).Finishes? && !HoldsSlot(s.threads[t].pc)
    ensures GetsOn(s, t)
  {
  }

  lemma StepOnward(s: State, t: Thread)
    requires Inv(s) && Unretained(s) && CanProceed(s, t)
    ensures GetsOn(s, t)
    ensures Unretained(Effect(s, Onward(t, s.threads[t].pc)))
  {
    var pc := s.threads[t].pc;
    assert LocalOk(s, t) && WaiterOk(s, t);
    if Onward(t, pc).Waits? {
      if !t.process.background {
        ForegroundWaitOnward(s, t);
      } else if HoldsSlot(pc) {
        ConfirmOnward(s, t);
      } else if pc.AwaitingGate? {
        GateOnward(s, t);
      } else {
        ScanOnward(s, t);
      }
    } else if Onward(t, pc).Works? {
      BodyOnward(s, t);
    } else if pc.Arming? {
      ArmOnward(s, t);
    } else if HoldsSlot(pc) {
      WriteOnward(s, t);
    } else {
      ExitOnward(s, t);
    }
  }

  // ---------------------------------------------------------------- somebody can go on

  /** Some thread can proceed: the holder of the slot, else the holder of the gate of `t0`, else `t0` itself. */
  lemma SomebodyProceeds(s: State, t0: Thread) returns (t: Thread)
    requires Inv(s) && s.sticky == {} && t0 in s.threads
    ensures t in s.threads && (CanProceed(s, t) || (s.threads[t].pc.FirstScan? && AnyActive(s)))
    ensures (s.slot == Some(t) && HoldsSlot(s.threads[t].pc)) || (s.slot.None? && t.process == t0.process)
  {
    if s.slot.Some? {
      t := s.slot.value;
      assert ThreadLocks(s, t);
    } else {
      t := if t0.process in s.gate then s.gate[t0.process] else t0;
      assert GateOk(s, t0.process) && ThreadLocks(s, t) && LocalOk(s, t);
    }
  }

  /** With no foreground work pending every marker is unlocked, so only leases block. */
  lemma OnlyLeasesBlock(s: State, m: MarkerId)
    requires Inv(s) && Foreground(s) == 0 && m in s.markers
    ensures s.markers[m].lock.Unlocked?
    ensures !Active(s.markers[m], s.now + MAX_LEASE)
  {
    assert MarkerOk(s, m);
    match s.markers[m].lock
    case Unlocked =>
    case ByThread(t) =>
      assert LocalOk(s, t);
      SumSplit(s.threads, ForegroundWeight, t);
    case ByReservation =>
      SumSplit(s.reserving, LeaseWeight, m);
  }

  // ---------------------------------------------------------------- the drain

  /** An onward step of a foreground thread leaves less foreground work. */
  lemma ForegroundOnward(s: State, s': State, t: Thread)
    requires Onwards(s, s', t) && !t.process.background
    ensures Foreground(s') < Foreground(s)
  {
    SumGone(s.threads, s'.threads, ForegroundWeight, t);
  }

  /** An onward step of the background holder of the slot, or of any background thread once nothing blocks. */
  lemma BackgroundOnward(s: State, s': State, t: Thread)
    requires Onwards(s, s', t) && t.process.background
    requires Foreground(s) > 0 ==> HoldsSlot(s.threads[t].pc)
    requires Foreground(s) == 0 ==> !AnyActive(s) && !AnyActive(s')
    ensures Foreground(s') == Foreground(s) && Blocked(s') == Blocked(s) && Background(s') < Background(s)
  {
    SumGone(s.threads, s'.threads, ForegroundWeight, t);
    SumGone(s.threads, s'.threads, ParkedWeight, t);
    SumGone(s.threads, s'.threads, BackgroundWeight, t);
  }

  lemma QuietStaysQuiet(s: State, t: Thread)
    requires Inv(s) && Unretained(s) && CanProceed(s, t) && t.process.background && !AnyActive(s)
    ensures Enabled(s, Onward(t, s.threads[t].pc)) && !AnyActive(Effect(s, Onward(t, s.threads[t].pc)))
  {
    StepOnward(s, t);
    assert LocalOk(s, t);
  }

  function LeaseOnward(m: MarkerId, phase: Phase): Step {
    Advance(m, if phase.ReserveStamping? then StampLease else if phase.ReserveWriting? then WriteLease else ClearLease)
  }

  lemma LeaseStepOnward(s: State, m: MarkerId)
    requires Inv(s) && Unretained(s) && m in s.reserving && !s.reserving[m].phase.Held?
    ensures Enabled(s, LeaseOnward(m, s.reserving[m].phase))
    ensures var s' := Effect(s, LeaseOnward(m, s.reserving[m].phase));
      Foreground(s') < Foreground(s) && Unretained(s') && s'.now == s.now
  {
    assert ReservationOk(s, m);
    var s' := Effect(s, LeaseOnward(m, s.reserving[m].phase));
    SumGone(s.reserving, s'.reserving, LeaseWeight, m);
  }

  /** The steps of a drain: onward steps of threads and leases, and one wait for the leases to run out. */
  ghost predicate Draining(step: Step) {
    || (exists t: Thread, pc: Pc :: step == Onward(t, pc) && Releasing(pc))
    || (exists m: MarkerId, phase: Phase :: step == LeaseOnward(m, phase))
    || step == Tick(MAX_LEASE)
  }

  ghost predicate Lowers(s: State, s': State) {
    || Foreground(s') < Foreground(s)
    || (Foreground(s') == Foreground(s) && Blocked(s') < Blocked(s))
    || (Foreground(s') == Foreground(s) && Blocked(s') == Blocked(s) && Background(s') < Background(s))
  }

  /** A thread step that lowers what remains to be done. */
  lemma ThreadDrains(s: State, t: Thread)
    requires Inv(s) && Unretained(s) && CanProceed(s, t)
    requires Foreground(s) > 0 ==> !t.process.background || HoldsSlot(s.threads[t].pc)
    requires Foreground(s) == 0 ==> t.process.background && !AnyActive(s)
    ensures var step := Onward(t, s.threads[t].pc);
      Enabled(s, step) && Lowers(s, Effect(s, step)) && Unretained(Effect(s, step)) && Effect(s, step).now == s.now
  {
    StepOnward(s, t);
    var s' := Effect(s, Onward(t, s.threads[t].pc));
    if !t.process.background {
      ForegroundOnward(s, s', t);
    } else {
      if Foreground(s) == 0 {
        QuietStaysQuiet(s, t);
      }
      BackgroundOnward(s, s', t);
    }
  }

  lemma NoForegroundThreads(s: State, t: Thread)
    requires Foreground(s) == 0 && t in s.threads
    ensures t.process.background
  {
    SumSplit(s.threads, ForegroundWeight, t);
  }

  lemma TickDrains(s: State)
    requires Inv(s) && Foreground(s) == 0
    ensures !AnyActive(Effect(s, Tick(MAX_LEASE)))
    ensures AnyActive(s) ==> Lowers(s, Effect(s, Tick(MAX_LEASE)))
    ensures Unretained(s) ==> Unretained(Effect(s, Tick(MAX_LEASE)))
  {
    var s' := Effect(s, Tick(MAX_LEASE));
    forall m | m in s'.markers ensures !Active(s'.markers[m], s'.now) {
      OnlyLeasesBlock(s, m);
    }
  }

  lemma ForegroundDrains(s: State) returns (step: Step)
    requires Inv(s) && Unretained(s) && Foreground(s) > 0
    ensures Enabled(s, step) && Draining(step) && Lowers(s, Effect(s, step)) && Unretained(Effect(s, step))
    ensures Effect(s, step).now == s.now
  {
    if Sum(s.reserving, LeaseWeight) > 0 {
      var m := SumPositive(s.reserving, LeaseWeight);
      LeaseStepOnward(s, m);
      step := LeaseOnward(m, s.reserving[m].phase);
    } else {
      var t0 := SumPositive(s.threads, ForegroundWeight);
      var t := SomebodyProceeds(s, t0);
      assert LocalOk(s, t);
      ThreadDrains(s, t);
      step := Onward(t, s.threads[t].pc);
    }
  }

  lemma BackgroundDrains(s: State) returns (step: Step)
    requires Inv(s) && Unretained(s) && Foreground(s) == 0 && s.threads != map[]
    ensures Enabled(s, step) && Draining(step) && Lowers(s, Effect(s, step)) && Unretained(Effect(s, step))
    ensures Effect(s, step).now == s.now || (AnyActive(s) && step == Tick(MAX_LEASE) && !AnyActive(Effect(s, step)))
  {
    if AnyActive(s) {
      TickDrains(s);
      step := Tick(MAX_LEASE);
    } else {
      var t0 :| t0 in s.threads;
      var t := SomebodyProceeds(s, t0);
      NoForegroundThreads(s, t);
      ThreadDrains(s, t);
      step := Onward(t, s.threads[t].pc);
    }
  }

  /** The time a drain may still take. */
  ghost function Patience(s: State): real {
    if Foreground(s) == 0 && !AnyActive(s) then 0.0 else MAX_LEASE
  }

  lemma Prepend(s: State, step: Step, rest: Run)
    requires Enabled(s, step) && IsRun(rest) && rest.states[0] == Effect(s, step)
    ensures IsRun(Run([s] + rest.states, [step] + rest.steps))
  {
    var r := Run([s] + rest.states, [step] + rest.steps);
    forall i | 0 <= i < |r.steps|
      ensures Enabled(r.states[i], r.steps[i]) && r.states[i + 1] == Effect(r.states[i], r.steps[i])
    {
      if i > 0 {
        assert r.states[i] == rest.states[i - 1] && r.steps[i] == rest.steps[i - 1];
      }
    }
  }

  /** The next step of a drain; the clock and the patience that is left never exceed the patience it started with. */
  lemma DrainStep(s: State) returns (step: Step)
    requires Inv(s) && Unretained(s) && !Drained(s)
    ensures Enabled(s, step) && Draining(step) && Lowers(s, Effect(s, step))
    ensures Inv(Effect(s, step)) && Unretained(Effect(s, step))
    ensures Effect(s, step).now + Patience(Effect(s, step)) <= s.now + Patience(s)
  {
    if Foreground(s) > 0 {
      step := ForegroundDrains(s);
    } else {
      step := BackgroundDrains(s);
    }
    StepKeeps(s, step);
  }

  /** From a state with no retained slot every pending admission and lease can be run to its end. */
  lemma {:induction false} Drain(s: State) returns (r: Run)
    requires Inv(s) && Unretained(s)
    ensures IsRun(r) && r.states[0] == s && Drained(r.states[|r.steps|])
    ensures forall i :: 0 <= i < |r.steps| ==> Draining(r.steps[i])
    ensures forall i :: 0 <= i <= |r.steps| ==> r.states[i].sticky == {}
    ensures r.states[|r.steps|].now <= s.now + Patience(s)
    decreases Foreground(s), Blocked(s), Background(s)
  {
    if Drained(s) {
      r := Run([s], []);
    } else {
      var step := DrainStep(s);
      var rest := Drain(Effect(s, step));
      Prepend(s, step, rest);
      r := Run([s] + rest.states, [step] + rest.steps);
    }
  }

  /** A caller that has not yet been in the body of its admission. */
  predicate Pending(s: State, t: Thread) {
    t in s.threads && Early(s.threads[t].pc)
  }

  predicate Early(pc: Pc) {
    Abortable(pc) || pc.Registering? || pc.BackingOff?
  }

  lemma WaitPending(s: State, u: Thread, wait: Wait, t: Thread)
    requires Enabled(s, Waits(u, wait)) && Waits(u, wait) == Onward(u, s.threads[u].pc) && s.sticky == {} && Pending(s, t)
    ensures Pending(AfterWait(s, u, wait), t) || Inside(AfterWait(s, u, wait), t)
  {
  }

  lemma OnwardPending(s: State, u: Thread, t: Thread)
    requires u in s.threads && Enabled(s, Onward(u, s.threads[u].pc)) && s.sticky == {} && Pending(s, t)
    ensures Pending(Effect(s, Onward(u, s.threads[u].pc)), t) || Inside(Effect(s, Onward(u, s.threads[u].pc)), t)
  {
    match Onward(u, s.threads[u].pc)
    case Waits(_, wait) => WaitPending(s, u, wait, t);
    case Works(_, work) =>
    case Finishes(_, finish) =>
  }

  /** A drain step takes nobody out of the protocol before the body: no error, no refusal. */
  lemma PendingStep(s: State, step: Step, t: Thread)
    requires Enabled(s, step) && Draining(step) && s.sticky == {} && Pending(s, t)
    ensures Pending(Effect(s, step), t) || Inside(Effect(s, step), t)
  {
    if u: Thread, pc: Pc :| step == Onward(u, pc) {
      assert step == Onward(u, s.threads[u].pc);
      OnwardPending(s, u, t);
    }
  }

  lemma {:induction false} PendingGetsIn(r: Run, t: Thread, i: nat)
    requires IsRun(r) && (forall k :: 0 <= k < |r.steps| ==> Draining(r.steps[k]))
    requires forall k :: 0 <= k <= |r.steps| ==> r.states[k].sticky == {}
    requires i <= |r.steps| && Pending(r.states[i], t) && t !in r.states[|r.steps|].threads
    ensures exists k :: i <= k <= |r.steps| && Inside(r.states[k], t)
    decreases |r.steps| - i
  {
    PendingStep(r.states[i], r.steps[i], t);
    if !Inside(r.states[i + 1], t) {
      PendingGetsIn(r, t, i + 1);
    }
  }

  /** A run that brings every admission in progress to its end, in time, with every pending caller admitted on the way. */
  ghost predicate Completes(r: Run, s: State) {
    && IsRun(r) && r.states[0] == s && (forall i :: 0 <= i < |r.steps| ==> Draining(r.steps[i]))
    && r.states[|r.steps|].threads == map[] && r.states[|r.steps|].now <= s.now + MAX_LEASE
    && forall t :: Pending(s, t) ==> exists k :: 0 <= k <= |r.steps| && Inside(r.states[k], t)
  }

  /**
   * Deadlock freedom: whatever has happened, crashes included, as long as no slot is retained every caller can still
   * get into its body and all admissions can come to an end, without new callers, crashes or errors, and within one
   * maximal lease of clock time.
   */
  lemma EveryAdmissionCanFinish(s: State)
    requires Reachable(s) && Unretained(s)
    ensures exists r: Run :: Completes(r, s)
  {
    ReachableInv(s);
    var r := Drain(s);
    forall t | Pending(s, t) ensures exists k :: 0 <= k <= |r.steps| && Inside(r.states[k], t) {
      PendingGetsIn(r, t, 0);
    }
    assert Completes(r, s);
  }

  /** From every such state a thread of a live process that is not yet in can begin, and get into its body. */
  lemma NewcomerGetsIn(s: State, t: Thread)
    requires Reachable(s) && Unretained(s) && t !in s.threads && t.process !in s.crashed
    ensures Enabled(s, Begin(t)) && exists r: Run :: Admits(r, Effect(s, Begin(t)), t)
  {
    var s' := Effect(s, Begin(t));
    ReachStep(s, Begin(t));
    EveryAdmissionCanFinish(s');
    var r: Run :| Completes(r, s');
    assert Pending(s', t);
    assert Admits(r, s', t);
  }

  /** The run completes all admissions, and takes `t` into its body on the way. */
  ghost predicate Admits(r: Run, s: State, t: Thread) {
    Completes(r, s) && exists k :: 0 <= k <= |r.steps| && Inside(r.states[k], t)
  }

  /** Whoever can proceed has an onward step to take, retention or not. */
  lemma ProceedsByItsStep(s: State, t: Thread)
    requires Inv(s) && CanProceed(s, t)
    ensures Enabled(s, Onward(t, s.threads[t].pc))
  {
    assert LocalOk(s, t) && WaiterOk(s, t);
  }

  /** Some thread can take an onward step that is not a spin. */
  ghost predicate SomebodyGoesOn(s: State) {
    exists t :: CanProceed(s, t) && Enabled(s, Onward(t, s.threads[t].pc))
  }

  ghost predicate SomeLeaseGoesOn(s: State) {
    exists m :: m in s.reserving && !s.reserving[m].phase.Held? && Enabled(s, LeaseOnward(m, s.reserving[m].phase))
  }

  /**
   * Step by step: as long as no slot is retained, somebody can go on, or a lease being written can, or nothing is locked
   * and a bounded wait lets somebody go on.
   */
  lemma SomebodyOrALease(s: State)
    requires Reachable(s) && s.sticky == {} && s.threads != map[]
    ensures
      || SomebodyGoesOn(s)
      || SomeLeaseGoesOn(s)
      || ((forall m :: m in s.markers ==> s.markers[m].lock.Unlocked?) && SomebodyGoesOn(Effect(s, Tick(MAX_LEASE))))
  {
    ReachableInv(s);
    var t0 :| t0 in s.threads;
    var t := SomebodyProceeds(s, t0);
    if CanProceed(s, t) {
      ProceedsByItsStep(s, t);
    } else if Foreground(s) == 0 {
      WaitLetsGoOn(s, t);
    } else {
      ForegroundGoesOn(s);
    }
  }

  /** With no foreground work in progress, a thread that only markers block goes on after a maximal lease. */
  lemma WaitLetsGoOn(s: State, t: Thread)
    requires Inv(s) && Foreground(s) == 0 && t in s.threads && s.threads[t].pc.FirstScan?
    ensures (forall m :: m in s.markers ==> s.markers[m].lock.Unlocked?) && SomebodyGoesOn(Effect(s, Tick(MAX_LEASE)))
  {
    TickDrains(s);
    forall m | m in s.markers ensures s.markers[m].lock.Unlocked? {
      OnlyLeasesBlock(s, m);
    }
    TickKeeps(s, MAX_LEASE);
    ProceedsByItsStep(Effect(s, Tick(MAX_LEASE)), t);
  }

  lemma ForegroundGoesOn(s: State)
    requires Inv(s) && s.sticky == {} && Foreground(s) > 0
    ensures SomebodyGoesOn(s) || SomeLeaseGoesOn(s)
  {
    if Sum(s.reserving, LeaseWeight) > 0 {
      var m := SumPositive(s.reserving, LeaseWeight);
      assert ReservationOk(s, m);
    } else {
      var f := SumPositive(s.threads, ForegroundWeight);
      var u := SomebodyProceeds(s, f);
      assert LocalOk(s, u);
      ProceedsByItsStep(s, u);
    }
  }

  // ---------------------------------------------------------------- under retention

  /** Whenever the slot is retained or about to be, it is by one thread. */
  lemma RetentionHasAHolder(s: State)
    requires Reachable(s) && !Unretained(s)
    ensures exists t :: Retention(s, t)
  {
    ReachableInv(s);
    if p :| p in s.sticky {
      assert GateOk(s, p);
      assert Retention(s, s.gate[p]);
    } else {
      var t :| t in s.threads && !Releasing(s.threads[t].pc);
      assert ThreadLocks(s, t);
      assert Retention(s, t);
    }
  }

  lemma DeathEndsRetention(s: State, t: Thread)
    requires Inv(s) && Retention(s, t)
    ensures t.process !in s.crashed && Unretained(Effect(s, Crash(t.process)))
  {
    assert SlotOk(s) && GateOk(s, t.process);
    var s' := Effect(s, Crash(t.process));
    forall p ensures p !in s'.sticky {
      assert GateOk(s, p);
    }
    forall u | u in s'.threads ensures Releasing(s'.threads[u].pc) {
      assert ThreadLocks(s, u);
    }
  }

  /**
   * Deadlock freedom in full: from every reachable state the admissions of all processes, or of all processes but the
   * one that retains the slot once that one has died, can be brought to an end.
   */
  lemma OneDeathLetsAllFinish(s: State)
    requires Reachable(s)
    ensures (exists r: Run :: Completes(r, s))
      || exists t, r: Run :: Retention(s, t) && t.process !in s.crashed && Completes(r, Effect(s, Crash(t.process)))
  {
    ReachableInv(s);
    if Unretained(s) {
      EveryAdmissionCanFinish(s);
    } else {
      RetentionHasAHolder(s);
      var t :| Retention(s, t);
      DeathEndsRetention(s, t);
      ReachStep(s, Crash(t.process));
      EveryAdmissionCanFinish(Effect(s, Crash(t.process)));
    }
  }

  lemma ReachStep(s: State, step: Step)
    requires Reachable(s) && Enabled(s, step)
    ensures Reachable(Effect(s, step))
  {
    var r: Run :| IsRun(r) && Initial(r.states[0]) && r.states[|r.steps|] == s;
    var longer := Run(r.states + [Effect(s, step)], r.steps + [step]);
    assert IsRun(longer) && longer.states[|longer.steps|] == Effect(s, step);
  }
}
