/** Reservation under limits, spelled out, and how far a token cap can be overshot: the bound and a campaign that attains it. */
module CampaignTokens {
  import opened Basics
  import opened CampaignLedger
  import opened CampaignSafety

  // ---------------------------------------------------------------- when a reservation is refused

  /** Input and output tokens of all calls that are not reported as never started. */
  function Reported(calls: seq<Call>): nat {
    if calls == [] then 0
    else
      var Call(status, usage) := calls[|calls| - 1];
      Reported(calls[..|calls| - 1]) + if status == NotStarted || usage == None then 0 else usage.value.input + usage.value.output
  }

  lemma {:induction false} UsedIsReported(calls: seq<Call>)
    ensures Used(calls) == Reported(calls)
  {
    if calls != [] {
      var init, last := calls[..|calls| - 1], calls[|calls| - 1];
      UsedIsReported(init);
      TotalAppend(init, Tokens, last);
      assert calls == init + [last];
    }
  }

  /**
   * A reservation is refused exactly when the time is over, or as many entries as the ceiling allows are not reported as
   * never started, or, under a token cap, some finished call has no usage or the reported tokens reach the cap. Calls in
   * flight are no reason.
   */
  lemma RefusedExactly(l: Ledger, elapsed: real)
    ensures !Admits(l, elapsed) <==>
      || (l.limits.wallTime.Some? && l.limits.wallTime.value <= elapsed)
      || (l.limits.agentCalls.Some? && l.limits.agentCalls.value <= |set i | 0 <= i < |l.calls| && l.calls[i].status != NotStarted|)
      || (l.limits.tokens.Some? && exists i :: 0 <= i < |l.calls| && l.calls[i] == Call(Finished, None))
      || (l.limits.tokens.Some? && l.limits.tokens.value <= Reported(l.calls))
  {
    ChargedCounts(l.calls);
    UsedIsReported(l.calls);
    assert ChargedIds(l.calls) == set i | 0 <= i < |l.calls| && l.calls[i].status != NotStarted;
    assert forall i :: 0 <= i < |l.calls| ==> (Unknown(l.calls[i]) <==> l.calls[i] == Call(Finished, None));
  }

  // ---------------------------------------------------------------- the bound

  /** Every reported usage is at most `most` tokens. */
  ghost predicate ReportsAtMost(steps: seq<Step>, most: nat) {
    forall i :: 0 <= i < |steps| && steps[i].Operate? && steps[i].op.Finish? && steps[i].op.usage.Some? ==>
      steps[i].op.usage.value.input + steps[i].op.usage.value.output <= most
  }

  ghost predicate FliesAtMost(h: seq<Campaign>, k: nat) {
    forall i :: 0 <= i < |h| && h[i].memory.Some? ==> Flying(h[i].memory.value.calls) <= k
  }

  /** The most tokens at which a call is still admitted. */
  function BelowCap(cap: nat): nat {
    if cap == 0 then 0 else cap - 1
  }

  /** What is used, and what the calls in flight may still add. */
  predicate Within(l: Ledger, k: nat, most: nat) {
    l.limits.tokens.Some? ==> Used(l.calls) + Flying(l.calls) * most <= BelowCap(l.limits.tokens.value) + k * most
  }

  lemma ProductGrows(a: nat, b: nat, most: nat)
    requires a <= b
    ensures a * most <= b * most
  {
  }

  lemma ReserveWithin(l: Ledger, k: nat, most: nat)
    requires l.limits.tokens.Some? ==> Used(l.calls) < l.limits.tokens.value
    requires Flying(AfterReserve(l).calls) <= k
    ensures Within(AfterReserve(l), k, most)
  {
    TotalAppend(l.calls, Tokens, Call(Reserved, None));
    ProductGrows(Flying(AfterReserve(l).calls), k, most);
  }

  lemma FinishWithin(l: Ledger, id: nat, usage: Option<Usage>, started: bool, k: nat, most: nat)
    requires Within(l, k, most) && id < |l.calls| && InFlight(l.calls[id])
    requires usage.Some? ==> usage.value.input + usage.value.output <= most
    ensures Within(AfterFinish(l, id, usage, started), k, most)
  {
    var call := Call(if started then Finished else NotStarted, usage);
    TotalUpdate(l.calls, Tokens, id, call);
    TotalUpdate(l.calls, Flight, id, call);
    var left := Flying(AfterFinish(l, id, usage, started).calls);
    assert (left + 1) * most == left * most + most;
  }

  lemma OperationWithin(l: Ledger, op: Operation, clock: real, k: nat, most: nat)
    requires Within(l, k, most) && Takes(l, op, clock)
    requires op.Started? ==> InFlight(l.calls[op.id])
    requires op.Finish? && op.usage.Some? ==> op.usage.value.input + op.usage.value.output <= most
    requires Flying(After(l, op).calls) <= k
    ensures Within(After(l, op), k, most)
  {
    match op
    case Reserve => ReserveWithin(l, k, most);
    case Started(id) =>
      TotalUpdate(l.calls, Tokens, id, l.calls[id].(status := Running));
      TotalUpdate(l.calls, Flight, id, l.calls[id].(status := Running));
    case Finish(id, usage, started) => FinishWithin(l, id, usage, started, k, most);
    case Checkpoint =>
  }

  lemma {:induction false} WithinHistory(h: seq<Campaign>, steps: seq<Step>, k: nat, most: nat, i: nat)
    requires IsHistory(h, steps) && ReportsAtMost(steps, most) && FliesAtMost(h, k) && i <= |steps|
    ensures h[i].disk.Some? ==> Within(h[i].disk.value, k, most)
    ensures h[i].memory.Some? ==> Within(h[i].memory.value, k, most)
  {
    if i > 0 {
      WithinHistory(h, steps, k, most, i - 1);
      var c, step := h[i - 1], steps[i - 1];
      if step.Operate? && Operates(c, step.op) {
        OperationWithin(c.memory.value, step.op, c.clock, k, most);
      } else if step.Open? && c.disk.Some? {
        RecoveryTotals(c.disk.value.calls);
      }
    }
  }

  /** Recorded tokens stay below the cap but for what the calls that have landed could report, restarts included. */
  lemma TokenOvershootIsBounded(h: seq<Campaign>, steps: seq<Step>, k: nat, most: nat, i: nat, cap: nat)
    requires IsHistory(h, steps) && ReportsAtMost(steps, most) && FliesAtMost(h, k) && i <= |steps|
    requires h[i].memory.Some? && h[i].memory.value.limits.tokens == Some(cap)
    ensures Reported(h[i].memory.value.calls) <= (if cap == 0 then 0 else cap - 1) + (k - Flying(h[i].memory.value.calls)) * most
  {
    WithinHistory(h, steps, k, most, i);
    UsedIsReported(h[i].memory.value.calls);
    var flying := Flying(h[i].memory.value.calls);
    assert (k - flying) * most == k * most - flying * most;
  }

  // ---------------------------------------------------------------- the bound is attained

  /** A campaign that stays within `k` calls in flight and `most` tokens a report. */
  ghost predicate Tame(h: seq<Campaign>, steps: seq<Step>, k: nat, most: nat) {
    IsHistory(h, steps) && FliesAtMost(h, k) && ReportsAtMost(steps, most)
  }

  /** Some tame campaign leads to file and ledger `l` at time 0. */
  ghost predicate Attains(l: Ledger, k: nat, most: nat) {
    l.elapsed == 0.0 && exists h, steps, issued, refunded :: TameTo(h, steps, k, most, Both(l, issued, refunded))
  }

  ghost predicate TameTo(h: seq<Campaign>, steps: seq<Step>, k: nat, most: nat, last: Campaign) {
    Tame(h, steps, k, most) && h[|steps|] == last
  }

  lemma AttainStart(limits: Limits, k: nat, most: nat)
    ensures Attains(Ledger(limits, [], 0.0), k, most)
  {
    var l := Ledger(limits, [], 0.0);
    var h, steps := [EMPTY, Both(l, {}, {})], [Open(limits, 0.0, true)];
    assert Total(l.calls, Flight) == 0;
    assert TameTo(h, steps, k, most, Both(l, {}, {}));
  }

  lemma AttainNext(l: Ledger, op: Operation, k: nat, most: nat)
    requires Attains(l, k, most) && Takes(l, op, 0.0) && !op.Started? && Flying(After(l, op).calls) <= k
    requires op.Finish? && op.usage.Some? ==> op.usage.value.input + op.usage.value.output <= most
    ensures Attains(After(l, op), k, most)
  {
    var h, steps, issued, refunded :| TameTo(h, steps, k, most, Both(l, issued, refunded));
    var step := Operate(op, 0.0, true);
    var c := Next(h[|steps|], step);
    var h', steps' := h + [c], steps + [step];
    assert IsHistory(h', steps') by {
      Extend(h, steps, step);
      forall i | 0 <= i < |steps'| ensures Disciplined(h'[i], steps'[i]) {
        assert i < |steps| ==> steps'[i] == steps[i];
      }
    }
    assert c == Both(After(l, op), c.issued, c.refunded);
    assert FliesAtMost(h', k);
    assert ReportsAtMost(steps', most);
    assert TameTo(h', steps', k, most, Both(After(l, op), c.issued, c.refunded));
  }

  /** Limited by tokens alone, nothing in flight and nothing unknown. */
  ghost predicate Idle(l: Ledger, cap: nat) {
    && l.limits == Limits(None, Some(cap), None) && Flying(l.calls) == 0
    && forall i :: 0 <= i < |l.calls| ==> !InFlight(l.calls[i]) && !Unknown(l.calls[i])
  }

  /** Calls of one token each, one after the other. */
  lemma {:induction false} SpendSingly(l: Ledger, n: nat, cap: nat, k: nat, most: nat) returns (l': Ledger)
    requires Attains(l, k, most) && Idle(l, cap) && Used(l.calls) + n < cap && k > 0 && most > 0
    ensures Attains(l', k, most) && Idle(l', cap) && Used(l'.calls) == Used(l.calls) + n
    decreases n
  {
    if n == 0 {
      l' := l;
    } else {
      var started := AfterReserve(l);
      TotalAppend(l.calls, Tokens, Call(Reserved, None));
      TotalAppend(l.calls, Flight, Call(Reserved, None));
      AttainNext(l, Reserve, k, most);
      var finish := Finish(|l.calls|, Some(Usage(1, 0)), true);
      FinishBooksOnce(started, finish.id, finish.usage, true, None, true);
      AttainNext(started, finish, k, most);
      l' := SpendSingly(After(started, finish), n - 1, cap, k, most);
    }
  }

  function Launched(l: Ledger, n: nat): Ledger {
    if n == 0 then l else AfterReserve(Launched(l, n - 1))
  }

  lemma {:induction false} LaunchTogether(l: Ledger, n: nat, cap: nat, k: nat, most: nat)
    requires Attains(l, k, most) && Idle(l, cap) && Used(l.calls) < cap && n <= k
    ensures var l' := Launched(l, n);
      && Attains(l', k, most) && Used(l'.calls) == Used(l.calls) && Flying(l'.calls) == n && |l'.calls| == |l.calls| + n
      && l'.limits == l.limits
      && (forall i :: 0 <= i < |l.calls| ==> l'.calls[i] == l.calls[i])
      && (forall i :: |l.calls| <= i < |l'.calls| ==> l'.calls[i] == Call(Reserved, None))
  {
    if n > 0 {
      LaunchTogether(l, n - 1, cap, k, most);
      var before := Launched(l, n - 1);
      TotalAppend(before.calls, Tokens, Call(Reserved, None));
      TotalAppend(before.calls, Flight, Call(Reserved, None));
      AttainNext(before, Reserve, k, most);
    }
  }

  /** The calls from `base` on report `most` tokens each, one after the other. */
  lemma {:induction false} LandAll(l: Ledger, base: nat, n: nat, k: nat, most: nat) returns (l': Ledger)
    requires Attains(l, k, most) && Flying(l.calls) == n <= k && |l.calls| == base + n && l.limits.tokens.Some?
    requires forall i :: base <= i < |l.calls| ==> l.calls[i] == Call(Reserved, None)
    ensures Attains(l', k, most) && l'.limits == l.limits && Used(l'.calls) == Used(l.calls) + n * most
    decreases n
  {
    if n == 0 {
      l' := l;
    } else {
      var finish := Finish(base, Some(Usage(most, 0)), true);
      FinishBooksOnce(l, base, finish.usage, true, None, true);
      AttainNext(l, finish, k, most);
      l' := LandAll(After(l, finish), base + 1, n - 1, k, most);
      assert (n - 1) * most + most == n * most;
    }
  }

  /**
   * The overshoot bound is exact: for every positive cap, number of concurrent calls and size of a report there is a
   * campaign that keeps to them and records as many tokens as the bound allows.
   */
  lemma TokenOvershootIsAttained(cap: nat, k: nat, most: nat) returns (h: seq<Campaign>, steps: seq<Step>)
    requires cap > 0 && k > 0 && most > 0
    ensures IsHistory(h, steps) && FliesAtMost(h, k) && ReportsAtMost(steps, most)
    ensures var last := h[|steps|].memory;
      last.Some? && last.value.limits.tokens == Some(cap) && Reported(last.value.calls) == cap - 1 + k * most
  {
    var l := Ledger(Limits(None, Some(cap), None), [], 0.0);
    AttainStart(l.limits, k, most);
    assert Total(l.calls, Flight) == 0 && Total(l.calls, Tokens) == 0;
    l := SpendSingly(l, cap - 1, cap, k, most);
    LaunchTogether(l, k, cap, k, most);
    l := LandAll(Launched(l, k), |l.calls|, k, k, most);
    UsedIsReported(l.calls);
    var issued, refunded;
    h, steps, issued, refunded :| TameTo(h, steps, k, most, Both(l, issued, refunded));
  }
}
