/** The wall-time limit over whole campaigns: what is recorded, what a crash loses, and when time is up for good. */
module CampaignTime {
  import opened Basics
  import opened CampaignLedger
  import opened CampaignSafety

  // ---------------------------------------------------------------- active time

  /** The active time the file knows of. */
  function Recorded(c: Campaign): real {
    if c.disk.None? then 0.0 else c.disk.value.elapsed
  }

  /** The step ends with a successful write. */
  predicate Saves(c: Campaign, step: Step) {
    (step.Open? && Opens(c, step.limits, step.writes)) || (step.Operate? && Operates(c, step.op) && step.writes)
  }

  /** How long a controller was active in the step. */
  function Active(c: Campaign, step: Step): real {
    match step
    case Open(limits, delay, writes) => if Opens(c, limits, writes) then delay else 0.0
    case Operate(op, delay, _) => if Operates(c, op) then delay else 0.0
    case Tick(seconds) => if c.memory.Some? then seconds else 0.0
    case Crash => 0.0
  }

  /** A crash loses the active time since the last successful write. */
  function Forgotten(c: Campaign, step: Step): real {
    if step.Crash? && c.memory.Some? then c.clock - Recorded(c) else 0.0
  }

  /** The active time of the first `i` steps, over all controllers. */
  ghost function Passed(h: seq<Campaign>, steps: seq<Step>, i: nat): real
    requires IsCourse(h, steps) && i <= |steps|
  {
    if i == 0 then 0.0 else Passed(h, steps, i - 1) + Active(h[i - 1], steps[i - 1])
  }

  /** What crashes have lost of it. */
  ghost function Lost(h: seq<Campaign>, steps: seq<Step>, i: nat): real
    requires IsCourse(h, steps) && i <= |steps|
  {
    if i == 0 then 0.0 else Lost(h, steps, i - 1) + Forgotten(h[i - 1], steps[i - 1])
  }

  // ---------------------------------------------------------------- the account

  ghost predicate TimeOk(c: Campaign) {
    && (c.disk.None? ==> c.memory.None?)
    && 0.0 <= Recorded(c)
    && (c.memory.Some? ==> Recorded(c) <= c.clock && c.memory.value.limits == c.disk.value.limits)
  }

  /** Whatever happens, the clock and the file never show more than the active time, and less only by what crashes lost. */
  lemma {:induction false} TimeAccount(h: seq<Campaign>, steps: seq<Step>, i: nat)
    requires IsCourse(h, steps) && h[0] == EMPTY && i <= |steps|
    ensures TimeOk(h[i]) && 0.0 <= Lost(h, steps, i)
    ensures h[i].memory.Some? ==> Recorded(h[i]) <= h[i].clock == Passed(h, steps, i) - Lost(h, steps, i)
    ensures h[i].memory.None? ==> Recorded(h[i]) == Passed(h, steps, i) - Lost(h, steps, i)
  {
    if i > 0 {
      TimeAccount(h, steps, i - 1);
      assert h[i] == Next(h[i - 1], steps[i - 1]);
    }
  }

  /** Every successful write records all active time but what crashes have lost; nothing else changes the record. */
  lemma WritesRecordTheTime(h: seq<Campaign>, steps: seq<Step>, i: nat)
    requires IsCourse(h, steps) && h[0] == EMPTY && i < |steps|
    ensures Recorded(h[i + 1]) ==
      if Saves(h[i], steps[i]) then Passed(h, steps, i + 1) - Lost(h, steps, i + 1) else Recorded(h[i])
    ensures Recorded(h[i]) <= Recorded(h[i + 1])
  {
    TimeAccount(h, steps, i);
    TimeAccount(h, steps, i + 1);
    assert h[i + 1] == Next(h[i], steps[i]);
  }

  /** A call is issued only while the active time, but for what crashes have lost, is below the limit. */
  lemma IssuedInTime(h: seq<Campaign>, steps: seq<Step>, i: nat, limit: real)
    requires IsCourse(h, steps) && h[0] == EMPTY && i < |steps| && h[i + 1].issued != h[i].issued
    requires h[i].disk.Some? && h[i].disk.value.limits.wallTime == Some(limit)
    ensures Recorded(h[i]) <= Passed(h, steps, i) - Lost(h, steps, i) < limit
  {
    TimeAccount(h, steps, i);
    assert h[i + 1] == Next(h[i], steps[i]);
  }

  // ---------------------------------------------------------------- time is up

  /** The file says that the time is up. */
  predicate Expired(c: Campaign) {
    c.disk.Some? && c.disk.value.limits.wallTime.Some? && c.disk.value.limits.wallTime.value <= Recorded(c)
  }

  lemma {:induction false} ExpiredForever(h: seq<Campaign>, steps: seq<Step>, j: nat)
    requires IsCourse(h, steps) && j <= |steps| && TimeOk(h[0]) && Expired(h[0])
    ensures TimeOk(h[j]) && Expired(h[j]) && h[j].issued == h[0].issued
  {
    if j > 0 {
      ExpiredForever(h, steps, j - 1);
      assert h[j] == Next(h[j - 1], steps[j - 1]);
    }
  }

  /** No id is issued in any continuation, restarts included. */
  ghost predicate IssuesNoMore(c: Campaign) {
    forall h: seq<Campaign>, steps: seq<Step> :: IsCourse(h, steps) && AllDisciplined(h, steps) && h[0] == c ==> h[|steps|].issued == c.issued
  }

  /** A crash, a restart and a reservation. */
  lemma RestartAndReserve(c: Campaign) returns (h: seq<Campaign>, steps: seq<Step>)
    requires c.disk.Some? && Admits(Start(c.disk, c.disk.value.limits), Recorded(c))
    ensures IsCourse(h, steps) && AllDisciplined(h, steps) && h[0] == c
    ensures h[|steps|].issued == c.issued + {|c.disk.value.calls|}
  {
    var h0, steps0 := CrashAndRestart(c);
    var reserve := Operate(Reserve, 0.0, true);
    h, steps := h0 + [Next(h0[2], reserve)], steps0 + [reserve];
    forall i | 0 <= i < |steps| ensures h[i + 1] == Next(h[i], steps[i]) && Disciplined(h[i], steps[i]) {
      assert i < 2 ==> steps[i] == steps0[i];
    }
  }

  /**
   * A campaign limited by time alone is over for good exactly when the file says so. A clock that has run out but was
   * not recorded does not count: a crash and a restart give the time back.
   */
  lemma TimeIsUpExactly(h: seq<Campaign>, steps: seq<Step>, i: nat, limit: real)
    requires IsHistory(h, steps) && i <= |steps|
    requires h[i].disk.Some? && h[i].disk.value.limits == Limits(None, None, Some(limit))
    ensures IssuesNoMore(h[i]) <==> limit <= Recorded(h[i])
  {
    HistoryKeeps(h, steps, i);
    TimeAccount(h, steps, i);
    var c := h[i];
    if limit <= Recorded(c) {
      forall h': seq<Campaign>, steps': seq<Step> | IsCourse(h', steps') && AllDisciplined(h', steps') && h'[0] == c
        ensures h'[|steps'|].issued == c.issued
      {
        ExpiredForever(h', steps', |steps'|);
      }
    } else {
      var h', steps' := RestartAndReserve(c);
      assert CallOk(c, |c.disk.value.calls|);
      assert |c.disk.value.calls| in h'[|steps'|].issued && |c.disk.value.calls| !in c.issued;
    }
  }
}
