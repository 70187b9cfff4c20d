/** The life of a lease: that it can be had, what its last release and every failure give back, and who shares it. */
module CapacityLife {
  import opened Basics
  import opened Capacity

  // ---------------------------------------------------------------- looking for a slot

  /** `n` looks of the same context at the slot files, with nobody interfering. */
  ghost function Looks(s: State, a: Actor, n: nat): Option<State>
    decreases n
  {
    if n == 0 then Some(s)
    else if !Enabled(s, TrySlot(a)) then None
    else Looks(Effect(s, TrySlot(a)), a, n - 1)
  }

  /** The slot loop takes the first free slot at or behind where it stands. */
  lemma {:induction false} ScanTakesFirstFree(s: State, a: Actor, k: nat)
    requires a in s.scanning && s.scanning[a] <= k < s.capacity && k !in s.slots
    requires forall j :: s.scanning[a] <= j < k ==> j in s.slots
    ensures var last := Looks(s, a, k - s.scanning[a] + 1);
      && last.Some? && OwnsLive(last.value, a)
      && last.value.leases[last.value.current[a]] == Lease(a.process, k, 1, Live)
      && last.value.slots == s.slots[k := s.nextLease] && last.value.current[a] == s.nextLease
      && last.value.leases == s.leases[s.nextLease := Lease(a.process, k, 1, Live)]
    decreases k - s.scanning[a]
  {
    if s.scanning[a] < k {
      ScanTakesFirstFree(Effect(s, TrySlot(a)), a, k);
    } else {
      var next := Effect(s, TrySlot(a));
      assert Looks(s, a, 1) == Looks(next, a, 0) == Some(next);
    }
  }

  // ---------------------------------------------------------------- a lease can be had and given back

  lemma {:induction false} FirstFree(slots: map<nat, LeaseId>, start: nat, open: nat) returns (k: nat)
    requires start <= open && open !in slots
    ensures start <= k <= open && k !in slots && forall j :: start <= j < k ==> j in slots
    decreases open - start
  {
    if start !in slots {
      k := start;
    } else {
      k := FirstFree(slots, start + 1, open);
    }
  }

  /**
   * With no leases of other processes and fewer leases and scanners than the capacity, every context can take a permit
   * and, by its own looks alone, come to a live lease.
   */
  lemma LoneContextGetsALease(s: State, a: Actor) returns (looks: nat)
    requires Reachable(s) && a.process !in s.crashed && a !in s.scanning && !OwnsLive(s, a)
    requires forall l :: l in s.leases ==> s.leases[l].process == a.process
    requires Sum(s.scanning, ScannerOf(a.process)) + Sum(s.leases, LeaseOf(a.process)) < s.capacity
    ensures Enabled(s, TakePermit(a))
    ensures var last := Looks(Effect(s, TakePermit(a)), a, looks);
      && last.Some? && OwnsLive(last.value, a) && last.value.current[a] == s.nextLease
      && last.value.leases == s.leases[s.nextLease := last.value.leases[s.nextLease]]
      && last.value.leases[s.nextLease].references == 1 && last.value.leases[s.nextLease].process == a.process
  {
    ReachableInv(s);
    assert Conserved(s, a.process);
    var s' := Effect(s, TakePermit(a));
    ReachStep(s, TakePermit(a));
    PermitHolderFindsASlot(s', a);
    var open :| 0 <= open < s'.capacity && open !in s'.slots;
    var k := FirstFree(s'.slots, 0, open);
    ScanTakesFirstFree(s', a, k);
    looks := k + 1;
  }

  lemma ReachStep(s: State, step: Step)
    requires Reachable(s) && Enabled(s, step)
    ensures Reachable(Effect(s, step))
  {
    var tr: seq<State>, steps: seq<Step> :| IsRun(tr, steps) && Initial(tr[0]) && tr[|steps|] == s;
    assert IsRun(tr + [Effect(s, step)], steps + [step]);
  }

  /** The state after giving up all references of a lease. */
  ghost function Dropped(s: State, l: LeaseId, n: nat): Option<State>
    decreases n
  {
    if n == 0 then Some(s)
    else if !Enabled(s, Drop(l)) then None
    else Dropped(Effect(s, Drop(l)), l, n - 1)
  }

  lemma {:induction false} AllReferencesDropped(s: State, l: LeaseId)
    requires l in s.leases && s.leases[l].phase.Live? && s.leases[l].references >= 1
    ensures Dropped(s, l, s.leases[l].references) ==
      Some(s.(leases := s.leases[l := s.leases[l].(references := 0, phase := Closing)]))
    decreases s.leases[l].references
  {
    var next := Effect(s, Drop(l));
    if s.leases[l].references > 1 {
      AllReferencesDropped(next, l);
      var closing := s.leases[l].(references := 0, phase := Closing);
      assert next.leases[l := closing] == s.leases[l := closing];
    } else {
      assert Dropped(next, l, 0) == Some(next);
    }
  }

  /**
   * A lease lives through all but the last of its releases. The last one frees its slot and then returns its permit,
   * and the context that returns it forgets the lease.
   */
  lemma LastReleaseGivesBack(s: State, l: LeaseId, a: Actor)
    requires Reachable(s) && l in s.leases && s.leases[l].phase.Live?
    ensures var dropped := Dropped(s, l, s.leases[l].references);
      && dropped.Some? && Enabled(dropped.value, FreeSlot(l))
      && var freed := Effect(dropped.value, FreeSlot(l));
      && freed.slots == s.slots - {s.leases[l].slot} && Enabled(freed, ReturnPermit(l, a))
      && var last := Effect(freed, ReturnPermit(l, a));
      && last.leases == s.leases - {l} && Spent(last, s.leases[l].process) == Spent(s, s.leases[l].process) - 1
      && last.slots == freed.slots && (a in last.current ==> last.current[a] != l)
  {
    ReachableInv(s);
    assert LeaseOk(s, l) && Conserved(s, s.leases[l].process);
    AllReferencesDropped(s, l);
    SumSplit(s.leases, LeaseOf(s.leases[l].process), l);
  }

  /** Cancellation, time-out and errors of a scanning context return its permit. */
  lemma GivingUpReturnsThePermit(s: State, a: Actor)
    requires Reachable(s) && a in s.scanning
    ensures Enabled(s, GiveUp(a))
    ensures var s' := Effect(s, GiveUp(a));
      && Spent(s', a.process) == Spent(s, a.process) - 1 && s'.scanning == s.scanning - {a}
      && s'.leases == s.leases && s'.slots == s.slots
  {
    PermitsFitBack(s);
  }

  /** A copied context shares the live lease: it retains it instead of taking a permit of its own. */
  lemma CopiedContextShares(s: State, a: Actor, b: Actor)
    requires OwnsLive(s, a) && Enabled(s, CopyContext(a, b))
    ensures var s' := Effect(s, CopyContext(a, b));
      OwnsLive(s', b) && s'.current[b] == s.current[a] && Enabled(s', Nested(b)) && !Enabled(s', TakePermit(b))
  {
  }
}
