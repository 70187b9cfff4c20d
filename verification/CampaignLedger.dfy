/**
 * The campaign budget: calls are reserved before dispatch, charged until a report says that they never started, and
 * kept in a file that is replaced atomically. An invocation id is the position of its entry, which stands for the
 * random id of the source.
 */
module CampaignLedger {
  import opened Basics

  datatype Status = Reserved | Running | Finished | NotStarted

  datatype Usage = Usage(input: nat, output: nat)

  datatype Call = Call(status: Status, usage: Option<Usage>)

  datatype Limits = Limits(agentCalls: Option<nat>, tokens: Option<nat>, wallTime: Option<real>)

  /** What is written to the file; `elapsed` is the active time of the campaign when it was last to be written. */
  datatype Ledger = Ledger(limits: Limits, calls: seq<Call>, elapsed: real)

  // ---------------------------------------------------------------- the ledger as a value

  predicate InFlight(call: Call) {
    call.status.Reserved? || call.status.Running?
  }

  function Tokens(call: Call): nat {
    if call.status.NotStarted? || call.usage.None? then 0 else call.usage.value.input + call.usage.value.output
  }

  predicate Unknown(call: Call) {
    call.status.Finished? && call.usage.None?
  }

  function Charge(call: Call): nat {
    if call.status.NotStarted? then 0 else 1
  }

  function Flight(call: Call): nat {
    if InFlight(call) then 1 else 0
  }

  /** Tokens recorded for a call that is in flight again after a report. */
  function Reopened(call: Call): nat {
    if InFlight(call) then Tokens(call) else 0
  }

  function Total(calls: seq<Call>, weigh: Call -> nat): nat {
    if calls == [] then 0 else weigh(calls[0]) + Total(calls[1..], weigh)
  }

  function Charged(calls: seq<Call>): nat { Total(calls, Charge) }

  function Used(calls: seq<Call>): nat { Total(calls, Tokens) }

  function Flying(calls: seq<Call>): nat { Total(calls, Flight) }

  /** Whether a call may be reserved after `elapsed` seconds of active time. */
  predicate Admits(l: Ledger, elapsed: real) {
    && (l.limits.wallTime.Some? ==> elapsed < l.limits.wallTime.value)
    && (l.limits.agentCalls.Some? ==> Charged(l.calls) < l.limits.agentCalls.value)
    && (l.limits.tokens.Some? ==>
          (forall i :: 0 <= i < |l.calls| ==> !Unknown(l.calls[i])) && Used(l.calls) < l.limits.tokens.value)
  }

  function AfterReserve(l: Ledger): Ledger {
    l.(calls := l.calls + [Call(Reserved, None)])
  }

  function AfterStart(l: Ledger, id: nat): Ledger
    requires id < |l.calls|
  {
    l.(calls := l.calls[id := l.calls[id].(status := Running)])
  }

  /** A terminal entry is final; any other one takes the reported usage. */
  function AfterFinish(l: Ledger, id: nat, usage: Option<Usage>, started: bool): Ledger
    requires id < |l.calls|
  {
    if !InFlight(l.calls[id]) then l
    else l.(calls := l.calls[id := Call(if started then Finished else NotStarted, usage)])
  }

  /** What a restart makes of a call: one that was in flight counts as run, and what it used is not known. */
  function Settled(call: Call): Call {
    if InFlight(call) then Call(Finished, None) else call
  }

  function Recovered(calls: seq<Call>): seq<Call> {
    seq(|calls|, i requires 0 <= i < |calls| => Settled(calls[i]))
  }

  // ---------------------------------------------------------------- the controller

  /** The durable file; a write replaces its whole content or leaves it alone. */
  class LedgerFile {
    var content: Option<Ledger>

    constructor ()
      ensures content.None?
    {
      content := None;
    }

    method Replace(l: Ledger, writes: bool) returns (ok: bool)
      modifies this
      ensures ok == writes
      ensures content == if writes then Some(l) else old(content)
    {
      if writes {
        content := Some(l);
      }
      return writes;
    }
  }

  datatype Outcome = Issued(id: nat) | LimitReached | UnknownId | WriteFailed | Done

  /** What a controller starts from: nothing, or the file with every call settled. */
  function Start(content: Option<Ledger>, limits: Limits): Ledger {
    if content.None? then Ledger(limits, [], 0.0) else Ledger(limits, Recovered(content.value.calls), content.value.elapsed)
  }

  class CampaignLimits {
    const file: LedgerFile
    var ledger: Ledger
    var elapsedBefore: real
    var started: real

    /** Start an empty ledger, or take over what the file holds and settle every call left in flight. */
    constructor (file: LedgerFile, limits: Limits, now: real)
      ensures this.file == file && started == now && Elapsed(now) == ledger.elapsed
      ensures ledger == Start(file.content, limits)
    {
      this.file := file;
      var calls := if file.content.None? then [] else file.content.value.calls;
      ghost var before := calls;
      var i := 0;
      while i < |calls|
        invariant 0 <= i <= |calls| == |before|
        invariant forall j :: 0 <= j < |calls| ==> calls[j] == if j < i then Settled(before[j]) else before[j]
      {
        if calls[i].status.Reserved? || calls[i].status.Running? {
          calls := calls[i := Call(Finished, None)];
        }
        i := i + 1;
      }
      assert calls == Recovered(before);
      var elapsed := if file.content.None? then 0.0 else file.content.value.elapsed;
      ledger := Ledger(limits, calls, elapsed);
      elapsedBefore := elapsed;
      started := now;
    }

    /** Active time of the campaign, over all its controllers, when the clock shows `now`. */
    function Elapsed(now: real): real
      reads this
    {
      elapsedBefore + now - started
    }

    /** Changed limits are refused, and so is a start whose first write, at `later`, fails. */
    static method Open(file: LedgerFile, limits: Limits, now: real, later: real, writes: bool)
      returns (controller: CampaignLimits?)
      modifies file
      ensures controller == null <==> !writes || (old(file.content).Some? && old(file.content).value.limits != limits)
      ensures controller == null ==> file.content == old(file.content)
      ensures controller != null ==>
        && controller.file == file && file.content == Some(controller.ledger)
        && var first := Start(old(file.content), limits);
        && controller.Elapsed(later) == first.elapsed + (later - now)
        && controller.ledger == first.(elapsed := controller.Elapsed(later))
    {
      if file.content.Some? && file.content.value.limits != limits {
        return null;
      }
      var starting := new CampaignLimits(file, limits, now);
      var ok := starting.Persist(later, writes);
      return if ok then starting else null;
    }

    /** The elapsed time is brought up to date whether or not the write succeeds. */
    method Persist(now: real, writes: bool) returns (ok: bool)
      modifies this`ledger, file
      ensures ok == writes
      ensures ledger == old(ledger).(elapsed := Elapsed(now))
      ensures file.content == if writes then Some(ledger) else old(file.content)
    {
      ledger := ledger.(elapsed := Elapsed(now));
      ok := file.Replace(ledger, writes);
    }

    /** The limits are tested at `now`, the reservation is written at `later`. */
    method Reserve(now: real, later: real, writes: bool) returns (r: Outcome)
      modifies this`ledger, file
      ensures !Admits(old(ledger), Elapsed(now)) ==> r.LimitReached? && ledger == old(ledger) && file.content == old(file.content)
      ensures Admits(old(ledger), Elapsed(now)) ==>
        && ledger == AfterReserve(old(ledger)).(elapsed := Elapsed(later))
        && (writes ==> r == Issued(|old(ledger).calls|) && file.content == Some(ledger))
        && (!writes ==> r.WriteFailed? && file.content == old(file.content))
    {
      if ledger.limits.wallTime.Some? && Elapsed(now) >= ledger.limits.wallTime.value {
        return LimitReached;
      }
      if ledger.limits.agentCalls.Some? && Charged(ledger.calls) >= ledger.limits.agentCalls.value {
        return LimitReached;
      }
      if ledger.limits.tokens.Some? {
        if exists i :: 0 <= i < |ledger.calls| && Unknown(ledger.calls[i]) {
          return LimitReached;
        }
        if Used(ledger.calls) >= ledger.limits.tokens.value {
          return LimitReached;
        }
      }
      var id := |ledger.calls|;
      ledger := ledger.(calls := ledger.calls + [Call(Reserved, None)]);
      var ok := Persist(later, writes);
      return if ok then Issued(id) else WriteFailed;
    }

    method StartedCall(id: nat, now: real, writes: bool) returns (r: Outcome)
      modifies this`ledger, file
      ensures id >= |old(ledger).calls| ==> r.UnknownId? && ledger == old(ledger) && file.content == old(file.content)
      ensures id < |old(ledger).calls| ==>
        && ledger == AfterStart(old(ledger), id).(elapsed := Elapsed(now))
        && file.content == (if writes then Some(ledger) else old(file.content))
        && r == if writes then Done else WriteFailed
    {
      if id >= |ledger.calls| {
        return UnknownId;
      }
      ledger := ledger.(calls := ledger.calls[id := ledger.calls[id].(status := Running)]);
      var ok := Persist(now, writes);
      return if ok then Done else WriteFailed;
    }

    method Finish(id: nat, usage: Option<Usage>, started: bool, now: real, writes: bool) returns (r: Outcome)
      modifies this`ledger, file
      ensures id >= |old(ledger).calls| ==> r.UnknownId? && ledger == old(ledger) && file.content == old(file.content)
      ensures id < |old(ledger).calls| && !InFlight(old(ledger).calls[id]) ==>
        r.Done? && ledger == old(ledger) && file.content == old(file.content)
      ensures id < |old(ledger).calls| && InFlight(old(ledger).calls[id]) ==>
        && ledger == AfterFinish(old(ledger), id, usage, started).(elapsed := Elapsed(now))
        && file.content == (if writes then Some(ledger) else old(file.content))
        && r == if writes then Done else WriteFailed
    {
      if id >= |ledger.calls| {
        return UnknownId;
      }
      if ledger.calls[id].status.Finished? || ledger.calls[id].status.NotStarted? {
        return Done;
      }
      ledger := ledger.(calls := ledger.calls[id := Call(if started then Finished else NotStarted, usage)]);
      var ok := Persist(now, writes);
      return if ok then Done else WriteFailed;
    }
  }

  // ---------------------------------------------------------------- histories

  /**
   * A campaign over all its restarts: the file, the ledger of the running controller if there is one, the ids
   * that were handed out, those reported as never started, and the active time as the running controller counts it.
   */
  datatype Campaign = Campaign(disk: Option<Ledger>, memory: Option<Ledger>, issued: set<nat>, refunded: set<nat>, clock: real)

  const EMPTY := Campaign(None, None, {}, {}, 0.0)

  datatype Operation =
    | Reserve
    | Started(id: nat)
    | Finish(id: nat, usage: Option<Usage>, started: bool)
    | Checkpoint

  type Seconds = x: real | x >= 0.0 witness 0.0

  /** `delay` is the time between the test that begins a step and the write that ends it. */
  datatype Step =
    | Open(limits: Limits, delay: Seconds, writes: bool)
    | Operate(op: Operation, delay: Seconds, writes: bool)
    | Tick(seconds: Seconds)
    | Crash

  /** A controller starts: none is running, the limits are those of the file, and the first write succeeds. */
  predicate Opens(c: Campaign, limits: Limits, writes: bool) {
    c.memory.None? && (c.disk.Some? ==> c.disk.value.limits == limits) && writes
  }

  /** The operation changes something: it is not refused and does not meet a terminal call. */
  predicate Takes(l: Ledger, op: Operation, clock: real) {
    match op
    case Reserve => Admits(l, clock)
    case Started(id) => id < |l.calls|
    case Finish(id, _, _) => id < |l.calls| && InFlight(l.calls[id])
    case Checkpoint => true
  }

  predicate Operates(c: Campaign, op: Operation) {
    c.memory.Some? && Takes(c.memory.value, op, c.clock)
  }

  function After(l: Ledger, op: Operation): Ledger
    requires (op.Started? || op.Finish?) ==> op.id < |l.calls|
  {
    match op
    case Reserve => AfterReserve(l)
    case Started(id) => AfterStart(l, id)
    case Finish(id, usage, started) => AfterFinish(l, id, usage, started)
    case Checkpoint => l
  }

  function Next(c: Campaign, step: Step): Campaign {
    match step
    case Open(limits, delay, writes) =>
      if !Opens(c, limits, writes) then c
      else
        var first := Start(c.disk, limits);
        var l := first.(elapsed := first.elapsed + delay);
        c.(memory := Some(l), disk := Some(l), clock := l.elapsed)
    case Operate(op, delay, writes) =>
      if !Operates(c, op) then c
      else
        var l := After(c.memory.value, op).(elapsed := c.clock + delay);
        Campaign(
          if writes then Some(l) else c.disk,
          Some(l),
          if op.Reserve? && writes then c.issued + {|c.memory.value.calls|} else c.issued,
          if op.Finish? && !op.started && op.id in c.issued then c.refunded + {op.id} else c.refunded,
          l.elapsed)
    case Tick(seconds) => if c.memory.Some? then c.(clock := c.clock + seconds) else c
    case Crash => c.(memory := None)
  }

  /** The harness reports a start only for a call in flight. */
  predicate Disciplined(c: Campaign, step: Step) {
    step.Operate? && step.op.Started? && c.memory.Some? && step.op.id < |c.memory.value.calls| ==>
      InFlight(c.memory.value.calls[step.op.id])
  }

  /** Some stretch of a campaign, whatever its callers report. */
  ghost predicate IsCourse(h: seq<Campaign>, steps: seq<Step>) {
    |h| == |steps| + 1 && forall i {:trigger steps[i]} :: 0 <= i < |steps| ==> h[i + 1] == Next(h[i], steps[i])
  }

  ghost predicate AllDisciplined(h: seq<Campaign>, steps: seq<Step>)
    requires |h| == |steps| + 1
  {
    forall i {:trigger steps[i]} :: 0 <= i < |steps| ==> Disciplined(h[i], steps[i])
  }

  /** A campaign from its first start over all its restarts. */
  ghost predicate IsHistory(h: seq<Campaign>, steps: seq<Step>) {
    IsCourse(h, steps) && AllDisciplined(h, steps) && h[0] == EMPTY
  }

  // ---------------------------------------------------------------- totals

  lemma {:induction false} TotalUpdate(calls: seq<Call>, weigh: Call -> nat, i: nat, call: Call)
    requires i < |calls|
    ensures Total(calls[i := call], weigh) + weigh(calls[i]) == Total(calls, weigh) + weigh(call)
  {
    if i == 0 {
      assert calls[0 := call][1..] == calls[1..];
    } else {
      TotalUpdate(calls[1..], weigh, i - 1, call);
      assert calls[i := call][1..] == calls[1..][i - 1 := call];
    }
  }

  lemma {:induction false} TotalAppend(calls: seq<Call>, weigh: Call -> nat, call: Call)
    ensures Total(calls + [call], weigh) == Total(calls, weigh) + weigh(call)
  {
    if calls == [] {
      assert (calls + [call])[1..] == [];
    } else {
      TotalAppend(calls[1..], weigh, call);
      assert (calls + [call])[1..] == calls[1..] + [call];
    }
  }

  /** Recovery keeps every charge and all tokens but those of calls in flight, and leaves nothing in flight. */
  lemma {:induction false} RecoveryTotals(calls: seq<Call>)
    ensures Charged(Recovered(calls)) == Charged(calls)
    ensures Used(Recovered(calls)) + Total(calls, Reopened) == Used(calls)
    ensures Flying(Recovered(calls)) == 0
  {
    if calls != [] {
      RecoveryTotals(calls[1..]);
      assert Recovered(calls)[1..] == Recovered(calls[1..]);
    }
  }
}
