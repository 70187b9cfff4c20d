/**
 * Admission of Lean-heavy work to one project: a labelled transition system over every thread of every
 * process that shares the project. Processes coordinate through two kinds of `flock`ed files (the main
 * slot and the foreground markers), threads of one process through its gate. A step is one critical
 * section, one blocking call that returns, or one write; anything may happen between two steps.
 */
module Admission {
  import opened Basics

  const MAX_LEASE: real := 120.0
  const MAX_GRACE: real := 5.0
  const PLAUSIBLE_SLACK: real := 1.0

  /** A process is a dispatch worker (background) or not for its whole life. */
  datatype Process = Process(pid: nat, background: bool)

  datatype Thread = Thread(process: Process, ident: nat)

  type MarkerId = nat

  /** The open handle that owns a marker's lock. */
  datatype Lock = Unlocked | ByThread(thread: Thread) | ByReservation

  /** A file in the waiter directory: `deadline` is its parsed content, `written` its last write. */
  datatype Marker = Marker(owner: Process, lock: Lock, deadline: Option<real>, written: real)

  /** What an exiting admission still owes to the gate of its process. */
  datatype GateDebt = NoGate | Release | Keep

  /** Where a thread stands inside one outermost admission. */
  datatype Pc =
    | Registering
    | AwaitingGate(stickyChecked: bool)
    | AwaitingSlot
    | FirstScan
    | TryingSlot
    | ConfirmingScan
    | BackingOff
    | Confirmed
    | InBody(depth: nat, retained: bool, grace: real)
    | Arming(grace: real)
    | Stamping(grace: real)
    | Writing(deadline: real)
    | Unlocking(preserve: bool)
    | Retaining
    | Clearing(preserve: bool, debt: GateDebt)
    | Leaving(debt: GateDebt)

  datatype Local = Local(pc: Pc, waiter: Option<MarkerId>)

  /** A reservation of priority ahead of an admission; `Held` is the lease its caller received. */
  datatype Phase = ReserveStamping(grace: real) | ReserveWriting(deadline: real) | ReserveClearing(preserve: bool) | Held

  datatype Reservation = Reservation(owner: Process, phase: Phase)

  datatype State = State(
    now: real,
    crashed: set<Process>,
    gate: map<Process, Thread>,
    sticky: set<Process>,
    slot: Option<Thread>,
    markers: map<MarkerId, Marker>,
    nextMarker: MarkerId,
    threads: map<Thread, Local>,
    reserving: map<MarkerId, Reservation>)

  /** From the call to the outermost body. */
  datatype Wait =
    | Register
    | RegisterFails
    | CheckSticky
    | GateTimeout
    | AcquireGate
    | AcquireSlot
    | ScanFirst
    | TrySlot
    | ScanConfirm
    | BackOff
    | EnterBody
    | Abort

  /** Inside the body, where the same thread may enter again. */
  datatype Work =
    | Nest
    | Unnest
    | RequestRetention
    | RequestHandoff(seconds: Option<real>)
    | ExitBody

  /** From the end of the outermost body to the return. */
  datatype Finish =
    | Truncate(configured: real)
    | Stamp
    | Write
    | ArmFails(written: bool)
    | Unlock
    | MarkSticky
    | Clear
    | Leave

  /** The life of a priority lease reserved ahead of an admission. */
  datatype Lease = StampLease | WriteLease | FailLease | ClearLease | ReleaseLease

  datatype Step =
    | Begin(t: Thread)
    | Waits(t: Thread, wait: Wait)
    | Works(t: Thread, work: Work)
    | Finishes(t: Thread, finish: Finish)
    | Reserve(p: Process, seconds: Option<real>)
    | Advance(m: MarkerId, lease: Lease)
    | Sweep
    | Reclaim(p: Process)
    | Crash(p: Process)
    | Tick(elapsed: real)

  // ---------------------------------------------------------------- clamps

  function Clamp(x: real, high: real): (r: real)
    requires 0.0 <= high
    ensures 0.0 <= r <= high
  {
    if x < 0.0 then 0.0 else if x > high then high else x
  }

  /** A requested number of seconds; `None` stands for one that is not a finite number. */
  function Bounded(seconds: Option<real>): (r: real)
    ensures 0.0 <= r <= 120.0
    ensures seconds.Some? && 0.0 <= seconds.value <= 120.0 ==> r == seconds.value
  {
    if seconds.None? then 0.0 else Clamp(seconds.value, MAX_LEASE)
  }

  /** The grace to arm: the requested lease if there is one, else the configured default. */
  function ArmedGrace(requested: real, configured: real): (r: real)
    ensures 0.0 <= r <= 120.0
    ensures 0.0 < requested <= 120.0 ==> r == requested
    ensures requested <= 0.0 ==> r <= 5.0 && (0.0 <= configured <= 5.0 ==> r == configured)
  {
    if requested > 0.0 then Clamp(requested, MAX_LEASE) else Clamp(configured, MAX_GRACE)
  }

  // ---------------------------------------------------------------- markers

  predicate InWindow(mk: Marker, now: real) {
    mk.deadline.Some? && now < mk.deadline.value <= now + MAX_LEASE + PLAUSIBLE_SLACK
  }

  predicate Active(mk: Marker, now: real) {
    !mk.lock.Unlocked? || InWindow(mk, now)
  }

  predicate ActiveMarker(s: State, m: MarkerId) {
    m in s.markers && Active(s.markers[m], s.now)
  }

  predicate AnyActive(s: State) {
    exists m :: m in s.markers && Active(s.markers[m], s.now)
  }

  /** What a scan leaves behind: it deletes every marker that is neither locked nor in its window. */
  function Scanned(s: State): State {
    s.(markers := map m | m in s.markers && Active(s.markers[m], s.now) :: s.markers[m])
  }

  function Publish(s: State, owner: Process, lock: Lock): State {
    s.(markers := s.markers[s.nextMarker := Marker(owner, lock, None, s.now)], nextMarker := s.nextMarker + 1)
  }

  function Rewrite(s: State, m: MarkerId, deadline: Option<real>): State
    requires m in s.markers
  {
    s.(markers := s.markers[m := s.markers[m].(deadline := deadline, written := s.now)])
  }

  /** Drop the lock of a marker and delete its file unless its grace is to be preserved. */
  function Discard(s: State, m: MarkerId, preserve: bool): State
    requires m in s.markers
  {
    if preserve then s.(markers := s.markers[m := s.markers[m].(lock := Unlocked)])
    else s.(markers := s.markers - {m})
  }

  // ---------------------------------------------------------------- steps

  /** What a thread has in its hands at a program point. */
  datatype Grip = Nothing | Gate | GateAndSlot | Retained

  function GripOf(pc: Pc): Grip {
    match pc
    case Registering => Nothing
    case AwaitingGate(_) => Nothing
    case AwaitingSlot => Gate
    case FirstScan => Gate
    case TryingSlot => Gate
    case Clearing(_, debt) => Owed(debt)
    case Leaving(debt) => Owed(debt)
    case _ => GateAndSlot
  }

  function Owed(debt: GateDebt): Grip {
    if debt.NoGate? then Nothing else if debt.Release? then Gate else Retained
  }

  predicate HoldsSlot(pc: Pc) {
    GripOf(pc).GateAndSlot?
  }

  predicate HoldsGate(pc: Pc) {
    GripOf(pc).Gate? || GripOf(pc).GateAndSlot?
  }

  /** Before the body, where an error or an interrupt unwinds the admission. */
  predicate Abortable(pc: Pc) {
    pc.AwaitingGate? || pc.AwaitingSlot? || pc.FirstScan? || pc.TryingSlot? || pc.ConfirmingScan? || pc.Confirmed?
  }

  function At(s: State, t: Thread, pc: Pc): State
    requires t in s.threads
  {
    s.(threads := s.threads[t := s.threads[t].(pc := pc)])
  }

  predicate WaiterPresent(s: State, t: Thread)
    requires t in s.threads
  {
    s.threads[t].waiter.Some? && s.threads[t].waiter.value in s.markers
  }

  predicate CanWait(s: State, t: Thread, wait: Wait)
    requires t in s.threads
  {
    var pc := s.threads[t].pc;
    match wait
    case Register => pc.Registering?
    case RegisterFails => pc.Registering?
    case CheckSticky => pc == AwaitingGate(false)
    case GateTimeout => pc == AwaitingGate(true) && t.process in s.gate
    case AcquireGate => pc == AwaitingGate(true) && t.process !in s.gate
    case AcquireSlot => pc.AwaitingSlot? && s.slot.None?
    case ScanFirst => pc.FirstScan?
    case TrySlot => pc.TryingSlot?
    case ScanConfirm => pc.ConfirmingScan?
    case BackOff => pc.BackingOff?
    case EnterBody => pc.Confirmed?
    case Abort => Abortable(pc)
  }

  function AfterWait(s: State, t: Thread, wait: Wait): State
    requires t in s.threads && CanWait(s, t, wait)
  {
    var pc := s.threads[t].pc;
    match wait
    case Register =>
      Publish(s, t.process, ByThread(t)).(threads := s.threads[t := Local(AwaitingGate(false), Some(s.nextMarker))])
    case RegisterFails => s.(threads := s.threads - {t})
    case CheckSticky => At(s, t, if t.process in s.sticky then Clearing(false, NoGate) else AwaitingGate(true))
    case GateTimeout => At(s, t, AwaitingGate(false))
    case AcquireGate =>
      At(s, t, if t.process.background then FirstScan else AwaitingSlot).(gate := s.gate[t.process := t])
    case AcquireSlot => At(s, t, InBody(1, false, 0.0)).(slot := Some(t))
    case ScanFirst => At(Scanned(s), t, if AnyActive(s) then FirstScan else TryingSlot)
    case TrySlot => if s.slot.None? then At(s, t, ConfirmingScan).(slot := Some(t)) else At(s, t, FirstScan)
    case ScanConfirm => At(Scanned(s), t, if AnyActive(s) then BackingOff else Confirmed)
    case BackOff => At(s, t, FirstScan).(slot := None)
    case EnterBody => At(s, t, InBody(1, false, 0.0))
    case Abort =>
      At(s, t, Clearing(false, if HoldsGate(pc) then Release else NoGate))
      .(slot := if HoldsSlot(pc) then None else s.slot)
  }

  predicate CanWork(s: State, t: Thread, work: Work)
    requires t in s.threads
  {
    var pc := s.threads[t].pc;
    && pc.InBody?
    && (work.Unnest? ==> pc.depth > 1)
    && (work.ExitBody? ==> pc.depth == 1)
  }

  function AfterWork(s: State, t: Thread, work: Work): State
    requires t in s.threads && CanWork(s, t, work)
  {
    var pc := s.threads[t].pc;
    match work
    case Nest => At(s, t, pc.(depth := pc.depth + 1))
    case Unnest => At(s, t, pc.(depth := pc.depth - 1))
    case RequestRetention => At(s, t, pc.(retained := true))
    case RequestHandoff(seconds) =>
      At(s, t, pc.(grace := if Bounded(seconds) > pc.grace then Bounded(seconds) else pc.grace))
    case ExitBody =>
      At(s, t, if pc.retained then Retaining else if t.process.background then Unlocking(false) else Arming(pc.grace))
  }

  predicate CanFinish(s: State, t: Thread, finish: Finish)
    requires t in s.threads
  {
    var pc := s.threads[t].pc;
    match finish
    case Truncate(_) => pc.Arming? && WaiterPresent(s, t)
    case Stamp => pc.Stamping?
    case Write => pc.Writing? && WaiterPresent(s, t)
    case ArmFails(_) => (pc.Stamping? || pc.Writing?) && WaiterPresent(s, t)
    case Unlock => pc.Unlocking?
    case MarkSticky => pc.Retaining?
    case Clear => pc.Clearing?
    case Leave => pc.Leaving?
  }

  function AfterFinish(s: State, t: Thread, finish: Finish): State
    requires t in s.threads && CanFinish(s, t, finish)
  {
    var Local(pc, waiter) := s.threads[t];
    match finish
    case Truncate(configured) =>
      var grace := ArmedGrace(pc.grace, configured);
      if grace <= 0.0 then At(s, t, Unlocking(false))
      else At(Rewrite(s, waiter.value, None), t, Stamping(grace))
    case Stamp => At(s, t, Writing(s.now + pc.grace))
    case Write => At(Rewrite(s, waiter.value, Some(pc.deadline)), t, Unlocking(true))
    case ArmFails(written) =>
      At(Rewrite(s, waiter.value, if pc.Writing? && written then Some(pc.deadline) else None), t, Unlocking(false))
    case Unlock => At(s, t, Clearing(pc.preserve, Release)).(slot := None)
    case MarkSticky => At(s, t, Clearing(false, Keep)).(sticky := s.sticky + {t.process})
    case Clear =>
      var next := s.(threads := s.threads[t := Local(Leaving(pc.debt), None)]);
      if WaiterPresent(s, t) then Discard(next, waiter.value, pc.preserve) else next
    case Leave =>
      s.(threads := s.threads - {t}, gate := if pc.debt.Release? then s.gate - {t.process} else s.gate)
  }

  predicate CanAdvance(s: State, m: MarkerId, lease: Lease)
    requires m in s.reserving
  {
    var phase := s.reserving[m].phase;
    match lease
    case StampLease => phase.ReserveStamping?
    case WriteLease => phase.ReserveWriting? && m in s.markers
    case FailLease => phase.ReserveStamping? || phase.ReserveWriting?
    case ClearLease => phase.ReserveClearing? && m in s.markers
    case ReleaseLease => phase.Held?
  }

  function AfterAdvance(s: State, m: MarkerId, lease: Lease): State
    requires m in s.reserving && CanAdvance(s, m, lease)
  {
    var phase := s.reserving[m].phase;
    match lease
    case StampLease => InPhase(s, m, ReserveWriting(s.now + phase.grace))
    case WriteLease => InPhase(Rewrite(s, m, Some(phase.deadline)), m, ReserveClearing(true))
    case FailLease => InPhase(s, m, ReserveClearing(false))
    case ClearLease =>
      var next := Discard(s, m, phase.preserve);
      if phase.preserve then InPhase(next, m, Held) else next.(reserving := s.reserving - {m})
    case ReleaseLease => s.(markers := s.markers - {m}, reserving := s.reserving - {m})
  }

  predicate Enabled(s: State, step: Step) {
    match step
    case Begin(t) => t !in s.threads && t.process !in s.crashed
    case Waits(t, wait) => t in s.threads && CanWait(s, t, wait)
    case Works(t, work) => t in s.threads && CanWork(s, t, work)
    case Finishes(t, finish) => t in s.threads && CanFinish(s, t, finish)
    case Reserve(p, seconds) => p !in s.crashed && Bounded(seconds) > 0.0
    case Advance(m, lease) => m in s.reserving && CanAdvance(s, m, lease)
    case Sweep => true
    case Reclaim(_) => true
    case Crash(p) => p !in s.crashed
    case Tick(elapsed) => elapsed > 0.0
  }

  function Effect(s: State, step: Step): State
    requires Enabled(s, step)
  {
    match step
    case Begin(t) =>
      s.(threads := s.threads[t := Local(if t.process.background then AwaitingGate(false) else Registering, None)])
    case Waits(t, wait) => AfterWait(s, t, wait)
    case Works(t, work) => AfterWork(s, t, work)
    case Finishes(t, finish) => AfterFinish(s, t, finish)
    case Reserve(p, seconds) =>
      Publish(s, p, ByReservation)
      .(reserving := s.reserving[s.nextMarker := Reservation(p, ReserveStamping(Bounded(seconds)))])
    case Advance(m, lease) => AfterAdvance(s, m, lease)
    case Sweep => Scanned(s)
    case Reclaim(p) => Reclaimed(s, p)
    case Crash(p) => Crashed(s, p)
    case Tick(elapsed) => s.(now := s.now + elapsed)
  }

  /** Exit-time cleanup removes the unlocked markers of one process and nothing else. */
  function Reclaimed(s: State, p: Process): State {
    s.(markers := map m | m in s.markers && (s.markers[m].owner != p || !s.markers[m].lock.Unlocked?) :: s.markers[m])
  }

  function InPhase(s: State, m: MarkerId, phase: Phase): State
    requires m in s.reserving
  {
    s.(reserving := s.reserving[m := s.reserving[m].(phase := phase)])
  }

  /** The operating system drops every lock a dying process held; its files stay. */
  function Crashed(s: State, p: Process): State {
    s.(crashed := s.crashed + {p},
       gate := s.gate - {p},
       sticky := s.sticky - {p},
       slot := if s.slot.Some? && s.slot.value.process == p then None else s.slot,
       markers := map m | m in s.markers ::
         if s.markers[m].owner == p then s.markers[m].(lock := Unlocked) else s.markers[m],
       threads := map t | t in s.threads && t.process != p :: s.threads[t],
       reserving := map m | m in s.reserving && s.reserving[m].owner != p :: s.reserving[m])
  }

  // ---------------------------------------------------------------- runs

  /** A finite behaviour: `steps[i]` leads from `states[i]` to `states[i + 1]`. */
  datatype Run = Run(states: seq<State>, steps: seq<Step>)

  ghost predicate IsRun(r: Run) {
    && |r.states| == |r.steps| + 1
    && forall i {:trigger r.steps[i]} :: 0 <= i < |r.steps| ==> Enabled(r.states[i], r.steps[i]) && r.states[i + 1] == Effect(r.states[i], r.steps[i])
  }

  /** Nobody is inside the protocol; markers of earlier processes may remain on disk. */
  ghost predicate Initial(s: State) {
    && s.threads == map[] && s.reserving == map[] && s.gate == map[] && s.sticky == {} && s.slot.None?
    && forall m :: m in s.markers ==> s.markers[m].lock.Unlocked? && MarkerOk(s, m)
  }

  ghost predicate Reachable(s: State) {
    exists r: Run :: IsRun(r) && Initial(r.states[0]) && r.states[|r.steps|] == s
  }

  // ---------------------------------------------------------------- invariant

  /** Program points at which a foreground admission owns its locked marker. */
  predicate OwnsMarker(pc: Pc) {
    !pc.Registering? && !pc.Leaving?
  }

  predicate RoleOk(t: Thread, pc: Pc) {
    if t.process.background then !pc.Registering? && !pc.AwaitingSlot? && !pc.Arming? && !pc.Stamping? && !pc.Writing?
    else !pc.FirstScan? && !pc.TryingSlot? && !pc.ConfirmingScan? && !pc.BackingOff? && !pc.Confirmed?
  }

  predicate PcOk(pc: Pc, now: real) {
    match pc
    case InBody(depth, _, grace) => depth >= 1 && 0.0 <= grace <= MAX_LEASE
    case Arming(grace) => 0.0 <= grace <= MAX_LEASE
    case Stamping(grace) => 0.0 < grace <= MAX_LEASE
    case Writing(deadline) => deadline <= now + MAX_LEASE
    case _ => true
  }

  function GripAt(s: State, t: Thread): Grip {
    if t in s.threads then GripOf(s.threads[t].pc) else Nothing
  }

  function WaiterAt(s: State, t: Thread): Option<MarkerId> {
    if t in s.threads then s.threads[t].waiter else None
  }

  // The clauses below are total and each is a single application, so that a proof instantiates exactly
  // the threads, processes and markers it names.

  /** What `t` has in its hands is what the locks say. */
  ghost predicate ThreadLocks(s: State, t: Thread) {
    match GripAt(s, t)
    case Nothing => true
    case Gate => OwnsGate(s, t) && t.process !in s.sticky
    case GateAndSlot => OwnsGate(s, t) && t.process !in s.sticky && s.slot == Some(t)
    case Retained => OwnsGate(s, t) && t.process in s.sticky
  }

  predicate OwnsGate(s: State, t: Thread) {
    t.process in s.gate && s.gate[t.process] == t
  }

  ghost predicate GateOk(s: State, p: Process) {
    && (p in s.gate ==>
          && s.gate[p].process == p && p !in s.crashed
          && (p in s.sticky || GripAt(s, s.gate[p]).Gate? || GripAt(s, s.gate[p]).GateAndSlot?))
    && (p in s.sticky ==> p in s.gate && s.slot == Some(s.gate[p]))
  }

  ghost predicate SlotOk(s: State) {
    s.slot.Some? ==>
      OwnsGate(s, s.slot.value) && (s.slot.value.process in s.sticky || GripAt(s, s.slot.value).GateAndSlot?)
  }

  ghost predicate LocksOk(s: State) {
    (forall t :: ThreadLocks(s, t)) && (forall p :: GateOk(s, p)) && SlotOk(s)
  }

  ghost predicate WaiterOk(s: State, t: Thread) {
    var waiter := WaiterAt(s, t);
    waiter.Some? ==>
      && waiter.value in s.markers
      && s.markers[waiter.value].lock == ByThread(t)
      && s.markers[waiter.value].owner == t.process
  }

  /** Every deadline lies at most a maximal lease after the write that published it. */
  ghost predicate MarkerOk(s: State, m: MarkerId) {
    m in s.markers ==>
      var mk := s.markers[m];
      && m < s.nextMarker
      && mk.written <= s.now
      && (mk.deadline.Some? ==> mk.deadline.value <= mk.written + MAX_LEASE)
      && (mk.lock.ByThread? ==> WaiterAt(s, mk.lock.thread) == Some(m))
      && (mk.lock.ByReservation? ==> m in s.reserving && !s.reserving[m].phase.Held?)
  }

  ghost predicate ReservationOk(s: State, m: MarkerId) {
    m in s.reserving ==>
      var r := s.reserving[m];
      && m < s.nextMarker && r.owner !in s.crashed
      && (!r.phase.Held? ==> m in s.markers && s.markers[m].lock.ByReservation? && s.markers[m].owner == r.owner)
      && (m in s.markers ==> !s.markers[m].lock.ByThread?)
      && (r.phase.ReserveStamping? ==> 0.0 < r.phase.grace <= MAX_LEASE)
      && (r.phase.ReserveWriting? ==> r.phase.deadline <= s.now + MAX_LEASE)
  }

  /** Which markers exist, who locked them and how long they may stay active. */
  ghost predicate MarkersOk(s: State) {
    (forall t :: WaiterOk(s, t)) && (forall m :: MarkerOk(s, m)) && (forall m :: ReservationOk(s, m))
  }

  /** Each thread stands where its role allows, with the marker that place requires. */
  ghost predicate LocalOk(s: State, t: Thread) {
    t in s.threads ==> t.process !in s.crashed && PlaceOk(t, s.threads[t], s.now)
  }

  predicate PlaceOk(t: Thread, l: Local, now: real) {
    RoleOk(t, l.pc) && PcOk(l.pc, now) && (l.waiter.Some? <==> !t.process.background && OwnsMarker(l.pc))
  }

  ghost predicate Inv(s: State) {
    LocksOk(s) && MarkersOk(s) && forall t :: LocalOk(s, t)
  }
}
