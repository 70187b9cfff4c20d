/** Budget safety over whole campaigns: crashes, failed writes and restarts included. */
module CampaignSafety {
  import opened Basics
  import opened CampaignLedger

  // ---------------------------------------------------------------- the file and the running ledger

  /** The file may lag behind the running ledger only by calls that are still in flight in it. */
  predicate Lags(durable: Call, running: Call) {
    durable == running || InFlight(durable)
  }

  ghost predicate CallOk(c: Campaign, id: nat) {
    && (id in c.refunded ==> id in c.issued)
    && (id in c.issued ==> c.disk.Some? && id < |c.disk.value.calls|)
    && (c.disk.Some? && c.memory.Some? && id < |c.disk.value.calls| ==>
          id < |c.memory.value.calls| && Lags(c.disk.value.calls[id], c.memory.value.calls[id]))
    && (id in c.issued && id !in c.refunded ==>
          && !c.disk.value.calls[id].status.NotStarted?
          && (c.memory.Some? && id < |c.memory.value.calls| ==> !c.memory.value.calls[id].status.NotStarted?))
  }

  /** A call in flight has reported nothing yet. */
  ghost predicate Unreported(calls: seq<Call>) {
    forall id :: 0 <= id < |calls| && InFlight(calls[id]) ==> calls[id].usage.None?
  }

  /** Within the call ceiling. */
  predicate Affordable(l: Ledger) {
    l.limits.agentCalls.Some? ==> Charged(l.calls) <= l.limits.agentCalls.value
  }

  ghost predicate Inv(c: Campaign) {
    && (forall id :: CallOk(c, id))
    && (c.memory.Some? ==> c.disk.Some? && c.disk.value.limits == c.memory.value.limits
                           && |c.disk.value.calls| <= |c.memory.value.calls| && Affordable(c.memory.value)
                           && Unreported(c.memory.value.calls))
    && (c.disk.Some? ==> Affordable(c.disk.value) && Unreported(c.disk.value.calls))
  }

  lemma OperationAffords(l: Ledger, op: Operation, clock: real)
    requires Affordable(l) && Takes(l, op, clock)
    requires op.Started? ==> InFlight(l.calls[op.id])
    ensures Affordable(After(l, op))
  {
    match op
    case Reserve => TotalAppend(l.calls, Charge, Call(Reserved, None));
    case Started(id) => TotalUpdate(l.calls, Charge, id, l.calls[id].(status := Running));
    case Finish(id, usage, started) =>
      TotalUpdate(l.calls, Charge, id, Call(if started then Finished else NotStarted, usage));
    case Checkpoint =>
  }

  lemma StepKeeps(c: Campaign, step: Step)
    requires Inv(c) && Disciplined(c, step)
    ensures Inv(Next(c, step))
  {
    var c' := Next(c, step);
    forall id ensures CallOk(c', id) {
      assert CallOk(c, id);
    }
    if step.Operate? && Operates(c, step.op) {
      OperationAffords(c.memory.value, step.op, c.clock);
    } else if step.Open? && c.disk.Some? {
      RecoveryTotals(c.disk.value.calls);
    }
  }

  lemma {:induction false} HistoryKeeps(h: seq<Campaign>, steps: seq<Step>, i: nat)
    requires IsHistory(h, steps) && i <= |steps|
    ensures Inv(h[i])
  {
    if i > 0 {
      HistoryKeeps(h, steps, i - 1);
      StepKeeps(h[i - 1], steps[i - 1]);
    }
  }

  // ---------------------------------------------------------------- calls

  function ChargedIds(calls: seq<Call>): set<nat> {
    set id | 0 <= id < |calls| && !calls[id].status.NotStarted?
  }

  lemma {:induction false} ChargedCounts(calls: seq<Call>)
    ensures |ChargedIds(calls)| == Charged(calls)
  {
    if calls != [] {
      var last := |calls| - 1;
      ChargedCounts(calls[..last]);
      TotalAppend(calls[..last], Charge, calls[last]);
      assert calls == calls[..last] + [calls[last]];
      assert ChargedIds(calls) == ChargedIds(calls[..last]) + if calls[last].status.NotStarted? then {} else {last};
    }
  }

  /** Calls handed out and not reported as never started. */
  function Dispatched(c: Campaign): set<nat> {
    c.issued - c.refunded
  }

  /** Charged entries nobody was given: the reservation was recorded but its first write failed. */
  function Unissued(c: Campaign, l: Ledger): set<nat> {
    ChargedIds(l.calls) - c.issued
  }

  /** Entries charged although their caller reported that they never started: that report was lost. */
  function Recharged(c: Campaign, l: Ledger): set<nat> {
    ChargedIds(l.calls) * c.refunded
  }

  /** In the file and in the running ledger, the charge is exactly the calls dispatched and the two kinds of surplus. */
  lemma ChargeAccount(h: seq<Campaign>, steps: seq<Step>, i: nat, l: Ledger)
    requires IsHistory(h, steps) && i <= |steps| && (h[i].disk == Some(l) || h[i].memory == Some(l))
    ensures Charged(l.calls) == |Dispatched(h[i])| + |Unissued(h[i], l)| + |Recharged(h[i], l)|
  {
    HistoryKeeps(h, steps, i);
    ChargedCounts(l.calls);
    forall id ensures id in Dispatched(h[i]) ==> id in ChargedIds(l.calls) {
      assert CallOk(h[i], id);
    }
    forall id ensures id in h[i].refunded ==> id in h[i].issued {
      assert CallOk(h[i], id);
    }
    assert ChargedIds(l.calls) == Dispatched(h[i]) + Unissued(h[i], l) + Recharged(h[i], l);
  }

  /**
   * Over the whole campaign, the calls handed out and not reported as never started stay within the ceiling,
   * and so do the charges in the file and in the running ledger.
   */
  lemma CallCeiling(h: seq<Campaign>, steps: seq<Step>, i: nat, ceiling: nat)
    requires IsHistory(h, steps) && i <= |steps|
    requires h[i].disk.Some? && h[i].disk.value.limits.agentCalls == Some(ceiling)
    ensures |Dispatched(h[i])| <= ceiling && Charged(h[i].disk.value.calls) <= ceiling
    ensures h[i].memory.Some? ==> Charged(h[i].memory.value.calls) <= ceiling
  {
    HistoryKeeps(h, steps, i);
    ChargeAccount(h, steps, i, h[i].disk.value);
  }

  predicate Writes(step: Step) {
    (step.Open? || step.Operate?) ==> step.writes
  }

  /** File and ledger agree, and hold exactly the calls handed out and what was reported of them. */
  ghost predicate Exact(c: Campaign, id: nat) {
    && (c.disk.None? ==> c.memory.None? && id !in c.issued && id !in c.refunded)
    && (c.disk.Some? ==>
          && (c.memory.Some? ==> c.memory == c.disk)
          && (id in c.issued <==> id < |c.disk.value.calls|)
          && (id in c.refunded <==> id < |c.disk.value.calls| && c.disk.value.calls[id].status.NotStarted?))
  }

  lemma {:induction false} ExactHistory(h: seq<Campaign>, steps: seq<Step>, i: nat, id: nat)
    requires IsHistory(h, steps) && i <= |steps| && forall k :: 0 <= k < i ==> Writes(steps[k])
    ensures Exact(h[i], id)
  {
    if i > 0 {
      ExactHistory(h, steps, i - 1, id);
      assert h[i] == Next(h[i - 1], steps[i - 1]) && Disciplined(h[i - 1], steps[i - 1]);
      if steps[i - 1].Operate? && steps[i - 1].op.Finish? {
        ExactHistory(h, steps, i - 1, steps[i - 1].op.id);
      }
    }
  }

  /**
   * As long as every write succeeds, and through any crashes and restarts, a call is charged exactly once: the charged
   * entries are those handed out and not reported as never started.
   */
  lemma ChargedExactlyOnce(h: seq<Campaign>, steps: seq<Step>, i: nat, l: Ledger)
    requires IsHistory(h, steps) && i <= |steps| && forall k :: 0 <= k < i ==> Writes(steps[k])
    requires h[i].disk == Some(l) || h[i].memory == Some(l)
    ensures ChargedIds(l.calls) == Dispatched(h[i]) && Charged(l.calls) == |Dispatched(h[i])|
  {
    ChargedCounts(l.calls);
    forall id ensures id in ChargedIds(l.calls) <==> id in Dispatched(h[i]) {
      ExactHistory(h, steps, i, id);
    }
  }

  /** An id once returned is in the file forever, and only its own report of never having started refunds it. */
  lemma {:induction false} IssuedIdsAreDurable(h: seq<Campaign>, steps: seq<Step>, id: nat, i: nat, j: nat)
    requires IsHistory(h, steps) && i <= j <= |steps| && id in h[i].issued
    ensures id in h[j].issued
    ensures h[j].disk.Some? && id < |h[j].disk.value.calls|
    ensures h[j].memory.Some? ==> id < |h[j].memory.value.calls|
    ensures id !in h[j].refunded ==>
      && Charge(h[j].disk.value.calls[id]) == 1
      && (h[j].memory.Some? ==> Charge(h[j].memory.value.calls[id]) == 1)
  {
    if i < j {
      IssuedIdsAreDurable(h, steps, id, i, j - 1);
      assert h[j] == Next(h[j - 1], steps[j - 1]);
    }
    HistoryKeeps(h, steps, j);
    assert CallOk(h[j], id);
  }

  // ---------------------------------------------------------------- terminal calls

  /** The call is terminal in the file and, if a controller runs, the same there. */
  predicate SettledAs(c: Campaign, id: nat, call: Call) {
    && c.disk.Some? && id < |c.disk.value.calls| && c.disk.value.calls[id] == call && !InFlight(call)
    && (c.memory.Some? ==> id < |c.memory.value.calls| && c.memory.value.calls[id] == call)
  }

  /** Once in the file, finished and not-started are absorbing, across every later operation, crash and restart. */
  lemma {:induction false} TerminalCallsNeverChange(h: seq<Campaign>, steps: seq<Step>, id: nat, i: nat, j: nat)
    requires IsHistory(h, steps) && i <= j <= |steps|
    requires h[i].disk.Some? && id < |h[i].disk.value.calls| && !InFlight(h[i].disk.value.calls[id])
    ensures SettledAs(h[j], id, h[i].disk.value.calls[id])
  {
    if i == j {
      HistoryKeeps(h, steps, i);
      assert CallOk(h[i], id);
    } else {
      TerminalCallsNeverChange(h, steps, id, i, j - 1);
      assert h[j] == Next(h[j - 1], steps[j - 1]);
    }
  }

  /** A report is booked once: its tokens and its charge change with the first report and never with a repeated one. */
  lemma FinishBooksOnce(l: Ledger, id: nat, usage: Option<Usage>, started: bool, again: Option<Usage>, startedAgain: bool)
    requires id < |l.calls| && InFlight(l.calls[id]) && l.calls[id].usage.None?
    ensures var booked := AfterFinish(l, id, usage, started);
      && Used(booked.calls) == Used(l.calls) + (if started && usage.Some? then usage.value.input + usage.value.output else 0)
      && Charged(booked.calls) == Charged(l.calls) - (if started then 0 else 1)
      && Flying(booked.calls) == Flying(l.calls) - 1
      && AfterFinish(booked, id, again, startedAgain) == booked
  {
    var call := Call(if started then Finished else NotStarted, usage);
    TotalUpdate(l.calls, Tokens, id, call);
    TotalUpdate(l.calls, Charge, id, call);
    TotalUpdate(l.calls, Flight, id, call);
  }

  /** If a controller runs, the call stands so in its ledger. */
  predicate LedgerHas(c: Campaign, id: nat, call: Call) {
    c.memory.Some? ==> id < |c.memory.value.calls| && c.memory.value.calls[id] == call
  }

  predicate Starts(step: Step, id: nat) {
    step.Operate? && step.op == Started(id)
  }

  lemma {:induction false} TerminalUntilStarted(h: seq<Campaign>, steps: seq<Step>, id: nat, call: Call, j: nat)
    requires IsCourse(h, steps) && Crash !in steps && j <= |steps|
    requires h[0].memory.Some? && LedgerHas(h[0], id, call) && !InFlight(call)
    requires forall k :: 0 <= k < j ==> !Starts(steps[k], id)
    ensures h[j].memory.Some? && LedgerHas(h[j], id, call)
  {
    if j > 0 {
      TerminalUntilStarted(h, steps, id, call, j - 1);
      assert h[j] == Next(h[j - 1], steps[j - 1]) && steps[j - 1] in steps;
    }
  }

  /**
   * While its controller lives, a terminal call of the ledger stays as it is, written or not, exactly when nobody
   * reports a start for it.
   */
  lemma StartReopensTerminalCalls(h: seq<Campaign>, steps: seq<Step>, id: nat, call: Call)
    requires IsCourse(h, steps) && Crash !in steps
    requires h[0].memory.Some? && LedgerHas(h[0], id, call) && !InFlight(call)
    ensures (forall j :: 0 <= j <= |steps| ==> h[j].memory.Some? && LedgerHas(h[j], id, call))
      <==> forall k :: 0 <= k < |steps| ==> !Starts(steps[k], id)
  {
    if forall k :: 0 <= k < |steps| ==> !Starts(steps[k], id) {
      forall j | 0 <= j <= |steps| ensures h[j].memory.Some? && LedgerHas(h[j], id, call) {
        TerminalUntilStarted(h, steps, id, call, j);
      }
    } else {
      var k :| 0 <= k < |steps| && Starts(steps[k], id);
      if h[k].memory.Some? && LedgerHas(h[k], id, call) {
        assert h[k + 1] == Next(h[k], steps[k]);
        assert h[k + 1].memory.value.calls[id].status.Running?;
      }
    }
  }

  lemma Extend(h: seq<Campaign>, steps: seq<Step>, step: Step)
    requires IsCourse(h, steps)
    ensures IsCourse(h + [Next(h[|steps|], step)], steps + [step])
  {
  }

  /** A course from the first start to `last`. */
  ghost predicate LeadsTo(h: seq<Campaign>, steps: seq<Step>, last: Campaign) {
    IsCourse(h, steps) && h[0] == EMPTY && h[|steps|] == last
  }

  /** One written operation more, at time 0. */
  lemma Written(h: seq<Campaign>, steps: seq<Step>, l: Ledger, issued: set<nat>, refunded: set<nat>, op: Operation)
    returns (h': seq<Campaign>, steps': seq<Step>)
    requires LeadsTo(h, steps, Both(l, issued, refunded)) && Takes(l, op, 0.0) && l.elapsed == 0.0
    ensures LeadsTo(h', steps',
      Both(After(l, op), if op.Reserve? then issued + {|l.calls|} else issued,
           if op.Finish? && !op.started && op.id in issued then refunded + {op.id} else refunded))
  {
    var step := Operate(op, 0.0, true);
    Extend(h, steps, step);
    h', steps' := h + [Next(h[|steps|], step)], steps + [step];
  }

  /** A reservation adds one charge, a report of never having started takes it back, a start of such a call adds it again. */
  lemma ChargeMoves(l: Ledger, id: nat)
    requires id < |l.calls|
    ensures Charged(AfterReserve(l).calls) == Charged(l.calls) + 1
    ensures InFlight(l.calls[id]) ==> Charged(AfterFinish(l, id, None, false).calls) == Charged(l.calls) - 1
    ensures l.calls[id].status.NotStarted? ==> Charged(AfterStart(l, id).calls) == Charged(l.calls) + 1
  {
    TotalAppend(l.calls, Charge, Call(Reserved, None));
    TotalUpdate(l.calls, Charge, id, Call(NotStarted, None));
    TotalUpdate(l.calls, Charge, id, l.calls[id].(status := Running));
  }

  lemma FirstStart(limits: Limits) returns (h: seq<Campaign>, steps: seq<Step>)
    ensures LeadsTo(h, steps, Both(Ledger(limits, [], 0.0), {}, {}))
  {
    h, steps := [EMPTY, Both(Ledger(limits, [], 0.0), {}, {})], [Open(limits, 0.0, true)];
  }

  lemma EmptyAdmits(l: Ledger)
    requires l.calls == [] && l.limits.agentCalls == Some(1) && l.limits.tokens.None? && l.limits.wallTime.None?
    ensures Admits(l, 0.0) && Charged(AfterReserve(l).calls) == 1 && AfterReserve(l).calls == [Call(Reserved, None)]
  {
    TotalAppend(l.calls, Charge, Call(Reserved, None));
  }

  /** A campaign whose first call is reserved, and then reported as never started. */
  lemma RefundedCall(limits: Limits) returns (h: seq<Campaign>, steps: seq<Step>, l: Ledger)
    requires limits.agentCalls == Some(1) && limits.tokens.None? && limits.wallTime.None?
    ensures l.limits == limits && l.elapsed == 0.0 && l.calls == [Call(NotStarted, None)] && Charged(l.calls) == 0
    ensures LeadsTo(h, steps, Both(l, {0}, {0}))
  {
    h, steps := FirstStart(limits);
    l := Ledger(limits, [], 0.0);
    EmptyAdmits(l);
    h, steps := Written(h, steps, l, {}, {}, Reserve);
    l := AfterReserve(l);
    assert {} + {0} == {0};
    ChargeMoves(l, 0);
    h, steps := Written(h, steps, l, {0}, {}, Finish(0, None, false));
    l := AfterFinish(l, 0, None, false);
  }

  /**
   * Under a ceiling of one call: the first call is reported as never started, a second one is reserved in its place, and
   * then a start is reported for the first.
   */
  lemma StartReopensExample(limits: Limits) returns (h: seq<Campaign>, steps: seq<Step>)
    requires limits.agentCalls == Some(1) && limits.tokens.None? && limits.wallTime.None?
    ensures IsCourse(h, steps) && h[0] == EMPTY
    ensures var last := h[|steps|];
      && last.issued == {0, 1} && last.refunded == {0}
      && last.memory.Some? && last.memory.value.limits == limits && Charged(last.memory.value.calls) == 2
  {
    var l: Ledger;
    h, steps, l := RefundedCall(limits);
    ChargeMoves(l, 0);
    h, steps := Written(h, steps, l, {0}, {0}, Reserve);
    l := AfterReserve(l);
    assert {0} + {1} == {0, 1};
    ChargeMoves(l, 0);
    h, steps := Written(h, steps, l, {0, 1}, {0}, Started(0));
  }

  /** File and ledger agree, at time 0. */
  function Both(l: Ledger, issued: set<nat>, refunded: set<nat>): Campaign {
    Campaign(Some(l), Some(l), issued, refunded, 0.0)
  }

  // ---------------------------------------------------------------- terminal calls across restarts

  /** Whatever happens from `c` on, crashes and restarts included, every ledger holds the call unchanged. */
  ghost predicate KeptForGood(c: Campaign, id: nat, call: Call) {
    forall h, steps :: IsCourse(h, steps) && AllDisciplined(h, steps) && h[0] == c ==> LedgerHas(h[|steps|], id, call)
  }

  /** The ledger, if there is one, and a ledger recovered from the file both hold the call. */
  predicate Survives(c: Campaign, id: nat, call: Call) {
    && LedgerHas(c, id, call) && !InFlight(call)
    && c.disk.Some? && id < |c.disk.value.calls| && Settled(c.disk.value.calls[id]) == call
  }

  lemma {:induction false} SurvivalLasts(h: seq<Campaign>, steps: seq<Step>, id: nat, call: Call, j: nat)
    requires IsCourse(h, steps) && AllDisciplined(h, steps) && Survives(h[0], id, call) && j <= |steps|
    ensures Survives(h[j], id, call)
  {
    if j > 0 {
      SurvivalLasts(h, steps, id, call, j - 1);
      assert h[j] == Next(h[j - 1], steps[j - 1]) && Disciplined(h[j - 1], steps[j - 1]);
    }
  }

  /** A crash now and a restart: what the ledger then holds is what the file makes of its calls. */
  lemma CrashAndRestart(c: Campaign) returns (h: seq<Campaign>, steps: seq<Step>)
    requires c.disk.Some?
    ensures IsCourse(h, steps) && AllDisciplined(h, steps) && h[0] == c && |steps| == 2
    ensures h[2].memory == Some(Start(c.disk, c.disk.value.limits)) && h[2].disk == h[2].memory
    ensures h[2].clock == c.disk.value.elapsed && h[2].issued == c.issued
  {
    steps := [Crash, Open(c.disk.value.limits, 0.0, true)];
    h := [c, Next(c, steps[0]), Next(Next(c, steps[0]), steps[1])];
  }

  /**
   * A terminal call of the running ledger is final, across all later operations, crashes and restarts, exactly when its
   * report has reached the file or says no more than a restart would assume: that it ran and its usage is unknown.
   */
  lemma ReportIsFinal(h: seq<Campaign>, steps: seq<Step>, i: nat, id: nat)
    requires IsHistory(h, steps) && i <= |steps|
    requires h[i].memory.Some? && id < |h[i].memory.value.calls| && !InFlight(h[i].memory.value.calls[id])
    ensures var call, disk := h[i].memory.value.calls[id], h[i].disk;
      KeptForGood(h[i], id, call) <==>
        disk.Some? && id < |disk.value.calls| && (disk.value.calls[id] == call || call == Call(Finished, None))
  {
    HistoryKeeps(h, steps, i);
    assert CallOk(h[i], id);
    var c, call := h[i], h[i].memory.value.calls[id];
    if Survives(c, id, call) {
      forall h', steps' | IsCourse(h', steps') && AllDisciplined(h', steps') && h'[0] == c
        ensures LedgerHas(h'[|steps'|], id, call)
      {
        SurvivalLasts(h', steps', id, call, |steps'|);
      }
    } else {
      var h', steps' := CrashAndRestart(c);
      assert !LedgerHas(h'[|steps'|], id, call);
    }
  }

  /**
   * A report that reaches the ledger but not the file is lost with its controller: a call reported as never started,
   * and so refunded, is charged again after a crash and a restart.
   */
  lemma LostReportExample() returns (h: seq<Campaign>, steps: seq<Step>)
    ensures IsHistory(h, steps) && |steps| == 5
    ensures h[3].memory.Some? && h[3].memory.value.calls == [Call(NotStarted, None)]
    ensures h[5].memory.Some? && h[5].memory.value.calls == [Call(Finished, None)]
    ensures Dispatched(h[5]) == {} && Charged(h[5].memory.value.calls) == 1
  {
    var limits := Limits(None, None, None);
    var reserved, reported := Ledger(limits, [Call(Reserved, None)], 0.0), Ledger(limits, [Call(NotStarted, None)], 0.0);
    var restarted := Ledger(limits, [Call(Finished, None)], 0.0);
    steps := [Open(limits, 0.0, true), Operate(Reserve, 0.0, true), Operate(Finish(0, None, false), 0.0, false), Crash,
              Open(limits, 0.0, true)];
    h := [
      EMPTY,
      Both(Ledger(limits, [], 0.0), {}, {}),
      Both(reserved, {0}, {}),
      Campaign(Some(reserved), Some(reported), {0}, {0}, 0.0),
      Campaign(Some(reserved), None, {0}, {0}, 0.0),
      Both(restarted, {0}, {0})];
    assert [] + [Call(Reserved, None)] == reserved.calls && {} + {0} == {0};
    assert reserved.calls[0 := Call(NotStarted, None)] == reported.calls;
    assert Recovered(reserved.calls) == restarted.calls;
    assert Next(h[3], steps[3]) == h[4] && Start(h[4].disk, limits) == restarted;
    assert Next(h[4], steps[4]) == h[5];
    assert Total([], Charge) == 0 && restarted.calls[1..] == [];
  }

  // ---------------------------------------------------------------- tokens

  /** The call will be finished with unknown usage whenever a controller runs. */
  predicate Doomed(c: Campaign, id: nat) {
    && c.disk.Some? && c.disk.value.limits.tokens.Some? && id < |c.disk.value.calls|
    && (InFlight(c.disk.value.calls[id]) || Unknown(c.disk.value.calls[id]))
    && (c.memory.Some? ==> id < |c.memory.value.calls| && Unknown(c.memory.value.calls[id]))
  }

  lemma DoomedStep(c: Campaign, step: Step, id: nat)
    requires Inv(c) && Disciplined(c, step) && Doomed(c, id)
    ensures Doomed(Next(c, step), id) && Next(c, step).issued == c.issued
  {
    assert CallOk(c, id);
  }

  lemma {:induction false} DoomedForever(h: seq<Campaign>, steps: seq<Step>, id: nat, i: nat, j: nat)
    requires IsHistory(h, steps) && i <= j <= |steps| && Doomed(h[i], id)
    ensures Doomed(h[j], id) && h[j].issued == h[i].issued
    ensures h[j].memory.Some? ==> forall elapsed :: !Admits(h[j].memory.value, elapsed)
  {
    if i < j {
      DoomedForever(h, steps, id, i, j - 1);
      HistoryKeeps(h, steps, j - 1);
      DoomedStep(h[j - 1], steps[j - 1], id);
    }
    assert h[j].memory.Some? ==> Unknown(h[j].memory.value.calls[id]) && h[j].disk.value.limits == h[j].memory.value.limits by {
      HistoryKeeps(h, steps, j);
    }
  }

  /**
   * Under a token cap one finished call of unknown usage ends the campaign, whether its id was handed out or its
   * reservation was only found in the file: no id is ever issued again.
   */
  lemma UnknownUsageBlocksForever(h: seq<Campaign>, steps: seq<Step>, id: nat, i: nat, j: nat)
    requires IsHistory(h, steps) && i <= j <= |steps|
    requires h[i].memory.Some? && h[i].memory.value.limits.tokens.Some?
    requires id < |h[i].memory.value.calls| && Unknown(h[i].memory.value.calls[id])
    requires h[i].disk.Some? && id < |h[i].disk.value.calls|
    ensures h[j].issued == h[i].issued
    ensures h[j].memory.Some? ==> forall elapsed :: !Admits(h[j].memory.value, elapsed)
  {
    HistoryKeeps(h, steps, i);
    assert CallOk(h[i], id);
    DoomedForever(h, steps, id, i, j);
  }

  /** Under a token cap a crash with a call in flight in the file ends the campaign as well. */
  lemma CrashInFlightBlocksForever(h: seq<Campaign>, steps: seq<Step>, id: nat, i: nat, j: nat)
    requires IsHistory(h, steps) && i < j <= |steps| && steps[i] == Crash
    requires h[i].disk.Some? && h[i].disk.value.limits.tokens.Some?
    requires id < |h[i].disk.value.calls| && InFlight(h[i].disk.value.calls[id])
    ensures h[j].issued == h[i].issued
    ensures h[j].memory.Some? ==> forall elapsed :: !Admits(h[j].memory.value, elapsed)
  {
    assert h[i + 1] == Next(h[i], steps[i]);
    DoomedForever(h, steps, id, i + 1, j);
  }

  lemma {:induction false} NothingReopened(calls: seq<Call>)
    requires Unreported(calls)
    ensures Total(calls, Reopened) == 0
  {
    if calls != [] {
      assert forall id :: 0 <= id < |calls[1..]| ==> calls[1..][id] == calls[id + 1];
      NothingReopened(calls[1..]);
    }
  }

  /** In every campaign a restart counts the charges and the tokens of the file, neither more nor less. */
  lemma RestartKeepsTotals(h: seq<Campaign>, steps: seq<Step>, i: nat)
    requires IsHistory(h, steps) && i <= |steps| && h[i].disk.Some?
    ensures var calls := h[i].disk.value.calls;
      Used(Recovered(calls)) == Used(calls) && Charged(Recovered(calls)) == Charged(calls)
  {
    HistoryKeeps(h, steps, i);
    NothingReopened(h[i].disk.value.calls);
    RecoveryTotals(h[i].disk.value.calls);
  }
}
