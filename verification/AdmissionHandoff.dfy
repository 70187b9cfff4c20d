/** What the scopes of a body ask for, and what its exit and a reserved lease then publish. */
module AdmissionHandoff {
  import opened Basics
  import opened Admission
  import opened AdmissionSafety
  import opened AdmissionPriority

  // ---------------------------------------------------------------- requests inside a body

  /** The seconds of priority that the step requests for `t`, if it is such a request. */
  function Asked(step: Step, t: Thread): Option<real> {
    if step.Works? && step.t == t && step.work.RequestHandoff? then step.work.seconds else None
  }

  /** A request for `x` seconds is honoured by a grace of `g`: in full up to two minutes. */
  predicate Honours(g: real, x: real) {
    if x <= 120.0 then g >= x else g == 120.0
  }

  /** The grace is what the request for `x` seconds alone would give. */
  predicate Grants(g: real, x: real) {
    x > 0.0 && g == if x <= 120.0 then x else 120.0
  }

  function Grace(s: State, t: Thread): real {
    if Inside(s, t) then s.threads[t].pc.grace else 0.0
  }

  ghost predicate InsideThroughout(r: Run, t: Thread) {
    && IsRun(r) && Inv(r.states[0])
    && forall k :: 0 <= k <= |r.steps| ==> Inside(r.states[k], t)
  }

  /** How a step changes grace and depth of a body that goes on. */
  ghost predicate BodyMoves(s: State, s': State, step: Step, t: Thread)
    requires Inside(s, t)
  {
    Inside(s', t) ==>
      var InBody(depth, _, g), InBody(depth', _, g') := s.threads[t].pc, s'.threads[t].pc;
      && depth' == (if step == Works(t, Nest) then depth + 1 else if step == Works(t, Unnest) then depth - 1 else depth)
      && (Asked(step, t).None? ==> g' == g)
      && (Asked(step, t).Some? ==>
            var x := Asked(step, t).value;
            if x <= g || g == 120.0 then g' == g else Grants(g', x))
  }

  lemma OwnWork(s: State, work: Work, t: Thread)
    requires Enabled(s, Works(t, work)) && Inside(s, t) && LocalOk(s, t)
    ensures BodyMoves(s, AfterWork(s, t, work), Works(t, work), t)
  {
  }

  lemma OthersWait(s: State, u: Thread, wait: Wait, t: Thread)
    requires Enabled(s, Waits(u, wait)) && Inside(s, t)
    ensures BodyMoves(s, AfterWait(s, u, wait), Waits(u, wait), t)
  {
  }

  lemma InsideStep(s: State, step: Step, t: Thread)
    requires Enabled(s, step) && Inside(s, t) && LocalOk(s, t)
    ensures BodyMoves(s, Effect(s, step), step, t)
  {
    match step
    case Waits(u, wait) => OthersWait(s, u, wait, t);
    case Works(u, work) =>
      if u == t {
        OwnWork(s, work, t);
      }
    case Finishes(_, _) =>
    case _ =>
  }

  /** From a body that nobody has asked anything of: its grace honours every request so far, and one of them grants it. */
  lemma {:induction false} GraceIsTheLargestRequest(r: Run, t: Thread, j: nat)
    requires InsideThroughout(r, t) && j <= |r.steps| && Grace(r.states[0], t) == 0.0
    ensures 0.0 <= Grace(r.states[j], t) <= 120.0
    ensures forall k :: 0 <= k < j && Asked(r.steps[k], t).Some? ==> Honours(Grace(r.states[j], t), Asked(r.steps[k], t).value)
    ensures Grace(r.states[j], t) > 0.0 ==>
      exists k :: 0 <= k < j && Asked(r.steps[k], t).Some? && Grants(Grace(r.states[j], t), Asked(r.steps[k], t).value)
  {
    RunKeeps(r, j);
    assert LocalOk(r.states[j], t) && Inside(r.states[j], t);
    if j > 0 {
      GraceIsTheLargestRequest(r, t, j - 1);
      RunKeeps(r, j - 1);
      assert Inside(r.states[j - 1], t) && LocalOk(r.states[j - 1], t);
      InsideStep(r.states[j - 1], r.steps[j - 1], t);
    }
  }

  // ---------------------------------------------------------------- nested scopes

  function Net(steps: seq<Step>, t: Thread): int {
    if steps == [] then 0
    else
      var last := steps[|steps| - 1];
      Net(steps[..|steps| - 1], t) + if last == Works(t, Nest) then 1 else if last == Works(t, Unnest) then -1 else 0
  }

  /** The body ends only when every scope entered in it has been left. */
  lemma {:induction false} ScopesBalance(r: Run, t: Thread, j: nat)
    requires InsideThroughout(r, t) && j <= |r.steps|
    ensures r.states[j].threads[t].pc.depth == r.states[0].threads[t].pc.depth + Net(r.steps[..j], t)
    ensures Enabled(r.states[j], Works(t, ExitBody)) <==> r.states[0].threads[t].pc.depth + Net(r.steps[..j], t) == 1
  {
    assert Inside(r.states[j], t);
    if j > 0 {
      ScopesBalance(r, t, j - 1);
      RunKeeps(r, j - 1);
      assert Inside(r.states[j - 1], t) && LocalOk(r.states[j - 1], t);
      InsideStep(r.states[j - 1], r.steps[j - 1], t);
      assert r.steps[..j][..j - 1] == r.steps[..j - 1];
    }
  }

  // ---------------------------------------------------------------- the exit

  /** The seconds that the exit arms: what was asked for, else what is configured, at most five. */
  predicate ArmsFor(seconds: real, grace: real, configured: real) {
    if grace > 0.0 then seconds == grace else seconds == if configured <= 5.0 then configured else 5.0
  }

  /**
   * An undisturbed foreground exit arms its marker while it still holds the slot: the deadline is the requested lease
   * from now, or the configured grace if none was requested.
   */
  lemma ExitArmsTheMarker(s: State, t: Thread, configured: real) returns (r: Run, seconds: real)
    requires Inv(s) && Inside(s, t) && !t.process.background
    requires s.threads[t].pc.depth == 1 && !s.threads[t].pc.retained
    requires s.threads[t].pc.grace > 0.0 || configured > 0.0
    ensures IsRun(r) && r.states[0] == s
    ensures r.steps == [Works(t, ExitBody), Finishes(t, Truncate(configured)), Finishes(t, Stamp), Finishes(t, Write)]
    ensures forall k :: 0 <= k <= 4 ==> r.states[k].slot == Some(t) && r.states[k].now == s.now
    ensures t in r.states[4].threads && r.states[4].threads[t] == Local(Unlocking(true), s.threads[t].waiter)
    ensures s.threads[t].waiter.Some? && ArmsFor(seconds, s.threads[t].pc.grace, configured)
    ensures HandedOver(r.states[4], s.threads[t].waiter.value, s.now + seconds)
  {
    assert LocalOk(s, t) && WaiterOk(s, t) && ThreadLocks(s, t);
    var m := s.threads[t].waiter.value;
    assert MarkerOk(s, m) && ReservationOk(s, m);
    seconds := ArmedGrace(s.threads[t].pc.grace, configured);
    var s1 := AfterWork(s, t, ExitBody);
    var s2 := AfterFinish(s1, t, Truncate(configured));
    var s3 := AfterFinish(s2, t, Stamp);
    var s4 := AfterFinish(s3, t, Write);
    r := Run([s, s1, s2, s3, s4], [Works(t, ExitBody), Finishes(t, Truncate(configured)), Finishes(t, Stamp), Finishes(t, Write)]);
  }

  /** With nothing requested and nothing configured the exit arms nothing, and its marker is removed. */
  lemma ExitWithoutGrace(s: State, t: Thread, configured: real) returns (r: Run)
    requires Inv(s) && Inside(s, t) && !t.process.background
    requires s.threads[t].pc.depth == 1 && !s.threads[t].pc.retained
    requires s.threads[t].pc.grace <= 0.0 && configured <= 0.0
    ensures IsRun(r) && r.states[0] == s
    ensures r.steps == [Works(t, ExitBody), Finishes(t, Truncate(configured)), Finishes(t, Unlock), Finishes(t, Clear)]
    ensures s.threads[t].waiter.Some? && r.states[4].markers == s.markers - {s.threads[t].waiter.value}
  {
    assert LocalOk(s, t) && WaiterOk(s, t) && ThreadLocks(s, t);
    var s1 := AfterWork(s, t, ExitBody);
    var s2 := AfterFinish(s1, t, Truncate(configured));
    var s3 := AfterFinish(s2, t, Unlock);
    var s4 := AfterFinish(s3, t, Clear);
    r := Run([s, s1, s2, s3, s4], [Works(t, ExitBody), Finishes(t, Truncate(configured)), Finishes(t, Unlock), Finishes(t, Clear)]);
  }

  ghost predicate SomethingAsked(r: Run, t: Thread) {
    exists k :: 0 <= k < |r.steps| && Asked(r.steps[k], t).Some? && Asked(r.steps[k], t).value > 0.0
  }

  /**
   * From the entry to the end of a body: if its scopes, at whatever depth, asked for priority, an undisturbed exit arms
   * the marker for the largest request; if none did, for the configured grace of at most five seconds.
   */
  lemma ExitHonoursTheLargestRequest(body: Run, t: Thread, configured: real) returns (exit: Run, seconds: real)
    requires InsideThroughout(body, t) && !t.process.background && body.states[0].threads[t].pc == InBody(1, false, 0.0)
    requires var last := body.states[|body.steps|]; last.threads[t].pc.depth == 1 && !last.threads[t].pc.retained
    requires SomethingAsked(body, t) || configured > 0.0
    ensures IsRun(exit) && exit.states[0] == body.states[|body.steps|]
    ensures exit.steps == [Works(t, ExitBody), Finishes(t, Truncate(configured)), Finishes(t, Stamp), Finishes(t, Write)]
    ensures var last := exit.states[0];
      last.threads[t].waiter.Some? && HandedOver(exit.states[4], last.threads[t].waiter.value, last.now + seconds)
    ensures forall k :: 0 <= k < |body.steps| && Asked(body.steps[k], t).Some? ==> Honours(seconds, Asked(body.steps[k], t).value)
    ensures SomethingAsked(body, t) ==>
      exists k :: 0 <= k < |body.steps| && Asked(body.steps[k], t).Some? && Grants(seconds, Asked(body.steps[k], t).value)
    ensures !SomethingAsked(body, t) ==> seconds == if configured <= 5.0 then configured else 5.0
  {
    var n := |body.steps|;
    assert Inside(body.states[0], t) && Inside(body.states[n], t);
    GraceIsTheLargestRequest(body, t, n);
    RunKeeps(body, n);
    exit, seconds := ExitArmsTheMarker(body.states[n], t, configured);
  }

  // ---------------------------------------------------------------- errors

  lemma ClearedAndLeft(s: State, t: Thread) returns (r: Run)
    requires t in s.threads && s.threads[t].pc.Clearing? && !s.threads[t].pc.preserve && !s.threads[t].pc.debt.Keep?
    requires s.threads[t].waiter.Some? ==> s.threads[t].waiter.value in s.markers
    ensures IsRun(r) && r.states[0] == s && r.steps == [Finishes(t, Clear), Finishes(t, Leave)]
    ensures var last := r.states[2];
      && last.threads == s.threads - {t} && last.slot == s.slot
      && last.gate == (if s.threads[t].pc.debt.Release? then s.gate - {t.process} else s.gate)
      && last.markers == match s.threads[t].waiter { case None => s.markers case Some(m) => s.markers - {m} }
  {
    var s1 := AfterFinish(s, t, Clear);
    var s2 := AfterFinish(s1, t, Leave);
    r := Run([s, s1, s2], [Finishes(t, Clear), Finishes(t, Leave)]);
  }

  /**
   * An error anywhere before the body unwinds: slot, gate and marker of the caller are given back, and nothing else. What
   * its process retains from an earlier admission stays retained.
   */
  lemma ErrorsGiveEverythingBack(s: State, t: Thread) returns (r: Run)
    requires Inv(s) && t in s.threads && Abortable(s.threads[t].pc)
    ensures Enabled(s, Waits(t, Abort)) && IsRun(r) && r.states[0] == Effect(s, Waits(t, Abort))
    ensures r.steps == [Finishes(t, Clear), Finishes(t, Leave)]
    ensures var last, retained := r.states[2], t.process in s.sticky;
      && last.threads == s.threads - {t}
      && last.slot == (if s.slot == Some(t) && !retained then None else s.slot)
      && last.gate == (if OwnsGate(s, t) && !retained then s.gate - {t.process} else s.gate)
      && last.markers == match s.threads[t].waiter { case None => s.markers case Some(m) => s.markers - {m} }
  {
    assert LocalOk(s, t) && WaiterOk(s, t) && ThreadLocks(s, t) && SlotOk(s) && GateOk(s, t.process);
    r := ClearedAndLeft(Effect(s, Waits(t, Abort)), t);
    assert Effect(s, Waits(t, Abort)).threads - {t} == s.threads - {t};
  }

  /** A failed arming, whether or not its write got through, preserves nothing: the exit will remove the marker. */
  lemma FailedArmingIsNotPreserved(s: State, t: Thread, written: bool)
    requires Inv(s) && t in s.threads && (s.threads[t].pc.Stamping? || s.threads[t].pc.Writing?)
    ensures Enabled(s, Finishes(t, ArmFails(written)))
    ensures Effect(s, Finishes(t, ArmFails(written))).threads[t].pc == Unlocking(false)
  {
    assert LocalOk(s, t) && WaiterOk(s, t);
  }

  // ---------------------------------------------------------------- a reserved lease

  lemma LeaseIsWritten(s: State, m: MarkerId) returns (r: Run)
    requires m in s.reserving && s.reserving[m].phase.ReserveStamping? && m in s.markers
    ensures IsRun(r) && r.states[0] == s && r.steps == [Advance(m, StampLease), Advance(m, WriteLease), Advance(m, ClearLease)]
    ensures var last, grace := r.states[3], s.reserving[m].phase.grace;
      && last == s.(markers := last.markers, reserving := last.reserving)
      && last.markers == s.markers[m := Marker(s.markers[m].owner, Unlocked, Some(s.now + grace), s.now)]
      && Enabled(last, Advance(m, ReleaseLease))
  {
    var s1 := AfterAdvance(s, m, StampLease);
    var s2 := AfterAdvance(s1, m, WriteLease);
    var s3 := AfterAdvance(s2, m, ClearLease);
    r := Run([s, s1, s2, s3], [Advance(m, StampLease), Advance(m, WriteLease), Advance(m, ClearLease)]);
  }

  /**
   * An undisturbed reservation ahead of an admission leaves an unlocked marker that is active for the seconds asked for,
   * at most two minutes, without taking gate or slot; consuming the lease removes it.
   */
  lemma ReservationArmsALease(s: State, p: Process, seconds: real) returns (r: Run)
    requires Inv(s) && p !in s.crashed && seconds > 0.0
    ensures Enabled(s, Reserve(p, Some(seconds)))
    ensures var m := s.nextMarker;
      && IsRun(r) && r.states[0] == Effect(s, Reserve(p, Some(seconds)))
      && r.steps == [Advance(m, StampLease), Advance(m, WriteLease), Advance(m, ClearLease)]
      && var last := r.states[3];
      && last.gate == s.gate && last.slot == s.slot && last.threads == s.threads && last.now == s.now
      && last.markers == s.markers[m := Marker(p, Unlocked, Some(s.now + if seconds <= 120.0 then seconds else 120.0), s.now)]
      && ActiveMarker(last, m)
      && Enabled(last, Advance(m, ReleaseLease)) && Effect(last, Advance(m, ReleaseLease)).markers == s.markers
  {
    var m := s.nextMarker;
    assert MarkerOk(s, m);
    r := LeaseIsWritten(Effect(s, Reserve(p, Some(seconds))), m);
    assert r.states[3].markers - {m} == s.markers;
  }
}
