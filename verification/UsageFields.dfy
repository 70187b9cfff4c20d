/** What a run publishes, in terms of the fields of its events alone. */
module UsageFields {
  import opened Basics
  import opened SessionCost
  import opened RunUsage
  import opened UsageLaws

  // ---------------------------------------------------------------- numbers of events

  /** How many events satisfy a condition. */
  function Number(events: seq<Event>, keep: Event -> bool): nat {
    |set i | 0 <= i < |events| && keep(events[i])|
  }

  lemma NumberGrows(events: seq<Event>, keep: Event -> bool)
    requires events != []
    ensures var n := |events| - 1; Number(events, keep) == Number(events[..n], keep) + if keep(events[n]) then 1 else 0
  {
    var n := |events| - 1;
    var before, all := set i | 0 <= i < n && keep(events[..n][i]), set i | 0 <= i < |events| && keep(events[i]);
    assert all == before + if keep(events[n]) then {n} else {};
  }

  lemma {:induction false} CountIsNumber(events: seq<Event>, keep: Event -> bool)
    ensures Count(events, keep) == Number(events, keep)
  {
    if events != [] {
      CountIsNumber(events[..|events| - 1], keep);
      NumberGrows(events, keep);
    }
  }

  function ForReason(reason: string): Event -> bool {
    (e: Event) => e.Unmetered? && ((e.reason == reason && reason != "") || (e.reason == "" && reason == "unspecified"))
  }

  lemma {:induction false} ReasonsAreNumbers(events: seq<Event>, reason: string)
    ensures Reasons(events)[reason] == Number(events, ForReason(reason))
  {
    if events != [] {
      ReasonsAreNumbers(events[..|events| - 1], reason);
      NumberGrows(events, ForReason(reason));
    }
  }

  /** Requests are counted by the canonical events, and by the compatible ones only if there are no canonical ones. */
  lemma RequestsAreCountedOnce(events: seq<Event>)
    ensures ApiRequest in events ==> Requests(events) == Number(events, (e: Event) => e == ApiRequest)
    ensures ApiRequest !in events ==> Requests(events) == Number(events, (e: Event) => e == ApiCall)
  {
    CountIsNumber(events, IsRequest);
    CountIsNumber(events, IsCall);
    assert Number(events, IsRequest) == Number(events, (e: Event) => e == ApiRequest) by {
      assert (set i | 0 <= i < |events| && IsRequest(events[i])) == set i | 0 <= i < |events| && ((e: Event) => e == ApiRequest)(events[i]);
    }
    assert Number(events, IsCall) == Number(events, (e: Event) => e == ApiCall) by {
      assert (set i | 0 <= i < |events| && IsCall(events[i])) == set i | 0 <= i < |events| && ((e: Event) => e == ApiCall)(events[i]);
    }
    var requests := set i | 0 <= i < |events| && IsRequest(events[i]);
    if i :| 0 <= i < |events| && events[i] == ApiRequest {
      assert i in requests;
    } else {
      assert requests == {};
    }
  }

  // ---------------------------------------------------------------- calls and tokens

  /** The turn of a conversation end has both numbers. */
  predicate HasTokens(e: Event, prompt: int, completion: int) {
    && e.ConversationEnd? && e.details.Some? && e.details.value.usage.Some?
    && e.details.value.usage.value.turn == Some(Turn(Some(prompt), Some(completion)))
  }

  predicate HasCalls(e: Event, calls: int) {
    e.ConversationEnd? && e.details.Some? && e.details.value.apiCalls == Some(calls)
  }

  /** `total` adds up one number for every conversation end that has it. */
  ghost predicate AddsUp(events: seq<Event>, has: (Event, int) -> bool, total: int)
    decreases |events|
  {
    if events == [] then total == 0
    else
      var init, last := events[..|events| - 1], events[|events| - 1];
      if exists x :: has(last, x) then exists x :: has(last, x) && AddsUp(init, has, total - x) else AddsUp(init, has, total)
  }

  const Prompt: (Event, int) -> bool := (e: Event, x: int) => HasPrompt(e, x)
  const Completion: (Event, int) -> bool := (e: Event, x: int) => HasCompletion(e, x)
  const Calls: (Event, int) -> bool := (e: Event, x: int) => HasCalls(e, x)

  predicate HasPrompt(e: Event, x: int) {
    TokensOf(e).Some? && TokensOf(e).value.0 == x
  }

  predicate HasCompletion(e: Event, x: int) {
    TokensOf(e).Some? && TokensOf(e).value.1 == x
  }

  /** Both token numbers of an event, if it is a conversation end whose turn has both. */
  function TokensOf(e: Event): Option<(int, int)> {
    if e.ConversationEnd? && e.details.Some? && e.details.value.usage.Some? && e.details.value.usage.value.turn.Some? then
      var turn := e.details.value.usage.value.turn.value;
      if turn.prompt.Some? && turn.completion.Some? then Some((turn.prompt.value, turn.completion.value)) else None
    else None
  }

  lemma TokensOfMeans(e: Event, prompt: int, completion: int)
    ensures TokensOf(e) == Some((prompt, completion)) <==> HasTokens(e, prompt, completion)
  {
  }

  lemma {:induction false} TallyAddsUp(events: seq<Event>, has: (Event, int) -> bool, weigh: Event -> int)
    requires forall e, x :: has(e, x) ==> weigh(e) == x
    requires forall e :: weigh(e) != 0 ==> has(e, weigh(e))
    ensures AddsUp(events, has, Tally(events, weigh))
  {
    if events != [] {
      var last := events[|events| - 1];
      TallyAddsUp(events[..|events| - 1], has, weigh);
      if x :| has(last, x) {
        assert has(last, x) && Tally(events, weigh) - x == Tally(events[..|events| - 1], weigh);
      }
    }
  }

  /** No attempt went unmetered, nothing was dispatched, and the calls of all conversations are the recorded requests. */
  lemma CoveredExactly(events: seq<Event>)
    ensures AddsUp(events, Calls, Tally(events, CallsOf))
    ensures Covered(events) <==>
      && (forall e :: e in events ==> !e.Unmetered? && !e.DispatchJob?)
      && Tally(events, CallsOf) == Requests(events)
  {
    TallyAddsUp(events, Calls, CallsOf);
    CountIsNumber(events, IsDispatch);
    var dispatched := set i | 0 <= i < |events| && IsDispatch(events[i]);
    assert Count(events, IsDispatch) == |dispatched|;
    assert Count(events, IsDispatch) == 0 <==> forall e :: e in events ==> !e.DispatchJob? by {
      forall i | 0 <= i < |events| && events[i].DispatchJob? ensures dispatched != {} {
        assert i in dispatched;
      }
    }
    NoReasons(events);
  }

  lemma {:induction false} NoReasons(events: seq<Event>)
    ensures Reasons(events) == multiset{} <==> forall e :: e in events ==> !e.Unmetered?
  {
    if events != [] {
      var init, last := events[..|events| - 1], events[|events| - 1];
      NoReasons(init);
      assert forall e :: e in events <==> e in init || e == last;
    }
  }

  /**
   * Of a stream with conversation ends: the published calls and tokens add up the numbers of all conversation ends, and
   * are published exactly when the stream is covered and no conversation end lacks them.
   */
  lemma PublishedCountsAreSums(events: seq<Event>, log: LogSummary)
    requires exists e :: e in events && e.ConversationEnd?
    ensures var u := Summary(events, log);
      && u.coverageComplete == Covered(events)
      && (u.apiCallsComplete <==> Covered(events) && forall e :: e in events && e.ConversationEnd? ==> exists x :: HasCalls(e, x))
      && (u.apiCallsComplete <==> u.apiCalls.Some?) && (u.apiCallsComplete ==> AddsUp(events, Calls, u.apiCalls.value))
      && (u.tokensComplete <==> Covered(events) && forall e :: e in events && e.ConversationEnd? ==> exists x, y :: HasTokens(e, x, y))
      && (u.tokensComplete <==> u.input.Some? && u.output.Some?)
      && (u.tokensComplete ==> AddsUp(events, Prompt, u.input.value) && AddsUp(events, Completion, u.output.value))
  {
    EndsAreCounted(events);
    TallyAddsUp(events, Calls, CallsOf);
    TallyAddsUp(events, Prompt, InputOf);
    TallyAddsUp(events, Completion, OutputOf);
    forall e: Event | e.ConversationEnd? ensures CallsKnown(e) <==> exists x :: HasCalls(e, x) {
      assert CallsKnown(e) ==> HasCalls(e, CallsOf(e));
    }
    forall e: Event | e.ConversationEnd? ensures TokensKnown(e) <==> exists x, y :: HasTokens(e, x, y) {
      assert TokensKnown(e) ==> HasTokens(e, InputOf(e), OutputOf(e));
    }
  }

  lemma {:induction false} EndsAreCounted(events: seq<Event>)
    ensures Count(events, IsEnd) > 0 <==> exists e :: e in events && e.ConversationEnd?
  {
    if events != [] {
      var init, last := events[..|events| - 1], events[|events| - 1];
      EndsAreCounted(init);
      assert forall e :: e in events <==> e in init || e == last;
    }
  }

  /** Without a conversation end the log summary is passed on, and nothing is claimed to be complete. */
  lemma WithoutEndsTheLogSpeaks(events: seq<Event>, log: LogSummary)
    requires forall e :: e in events ==> !e.ConversationEnd?
    ensures var u := Summary(events, log);
      && LogSummary(u.apiCalls, u.input, u.output, u.cost, u.costSource) == log
      && !u.apiCallsComplete && !u.tokensComplete && !u.costComplete && !u.coverageComplete && u.sessions == 0
  {
    EndsAreCounted(events);
  }

  // ---------------------------------------------------------------- the evidence of a cost record

  predicate HasCost(e: Event, cost: Cost) {
    && e.ConversationEnd? && e.details.Some? && e.details.value.usage.Some?
    && e.details.value.usage.value.turn.Some? && e.details.value.usage.value.cost == Some(cost)
  }

  /** The event carries a cumulative total of the provider. */
  predicate HasTotal(e: Event, x: real) {
    var cost := CostOf(e);
    HasCost(e, cost) && (cost.reportedTotal == Some(x) || (cost.reportedTotal == None && cost.reportedSource && cost.total == Some(x)))
  }

  /** The event carries no such total, but an estimate of its turn. */
  predicate HasEstimateOnly(e: Event, x: real) {
    var cost := CostOf(e);
    HasCost(e, cost) && cost.reportedTotal == None && (cost.reportedSource ==> cost.total == None) && cost.estimatedTurn == Some(x)
  }

  function CostOf(e: Event): Cost {
    if UsageOf(e).Some? && UsageOf(e).value.cost.Some? then UsageOf(e).value.cost.value else Cost(None, false, None, None)
  }

  /** A total of the provider counts before any estimate; a record without a turn, or with neither, is missing evidence. */
  lemma EvidenceOfARecord(e: Event)
    ensures forall x :: EntryOf(e) == Reported(x) <==> HasTotal(e, x)
    ensures forall x :: EntryOf(e) == Estimated(x) <==> HasEstimateOnly(e, x)
    ensures EntryOf(e) == Missing <==> (forall x :: !HasTotal(e, x)) && forall x :: !HasEstimateOnly(e, x)
  {
    match EntryOf(e)
    case Reported(x) => assert HasCost(e, CostOf(e)) && HasTotal(e, x);
    case Estimated(x) => assert HasCost(e, CostOf(e)) && HasEstimateOnly(e, x);
    case Missing =>
  }

  // ---------------------------------------------------------------- the published cost

  /** The last total of every session; `total` gives the total an event carries. */
  function LastTotals(events: seq<Event>, total: Event -> real): map<string, real> {
    if events == [] then map[]
    else
      var rest, last := LastTotals(events[..|events| - 1], total), events[|events| - 1];
      if last.ConversationEnd? then rest[SessionOf(last, Number(events, IsEnd)) := total(last)] else rest
  }

  lemma {:induction false} GroupsEndInLastTotals(events: seq<Event>, total: Event -> real)
    requires forall e :: e in events && e.ConversationEnd? ==> HasTotal(e, total(e))
    ensures LastTotals(events, total).Keys == Groups(events).Keys
    ensures forall k :: k in Groups(events) ==>
      && Total(Groups(events)[k]) == LastTotals(events, total)[k]
      && HasReported(Groups(events)[k]) && !HasEstimates(Groups(events)[k]) && Gapless(Groups(events)[k])
  {
    if events != [] {
      var init, last := events[..|events| - 1], events[|events| - 1];
      assert forall e :: e in events <==> e in init || e == last;
      GroupsEndInLastTotals(init, total);
      CountIsNumber(events, IsEnd);
      if last.ConversationEnd? {
        EvidenceOfARecord(last);
        var k, groups := SessionOf(last, Count(events, IsEnd)), Groups(init);
        TotalGrows(if k in groups then groups[k] else [], EntryOf(last));
        FlagsGrow(if k in groups then groups[k] else [], EntryOf(last));
      }
    }
  }

  /**
   * If every conversation end carries a cumulative total, whatever estimates stand beside it, a complete cost is the sum
   * over the sessions of their last totals, as reported by the provider.
   */
  lemma PublishedCostIsTheLastTotals(events: seq<Event>, log: LogSummary, total: Event -> real)
    requires exists e :: e in events && e.ConversationEnd?
    requires forall e :: e in events && e.ConversationEnd? ==> HasTotal(e, total(e))
    ensures var u := Summary(events, log);
      && (u.costComplete <==> Covered(events) && forall k :: k in Groups(events) ==> !Regressed(Groups(events)[k]))
      && (u.costComplete ==> u.cost == Some(SumOf(LastTotals(events, total))) && u.costSource == ProviderReported)
  {
    EndsAreCounted(events);
    GroupsEndInLastTotals(events, total);
    var groups := Groups(events);
    if AllCounted(groups) {
      assert Contributions(groups) == LastTotals(events, total);
      SomeGroup(events);
      var k :| k in groups;
      assert Counted(groups[k]) && HasReported(groups[k]);
    }
  }

  lemma SomeGroup(events: seq<Event>)
    requires Count(events, IsEnd) > 0
    ensures exists k :: k in Groups(events)
  {
    if events != [] {
      var init, last := events[..|events| - 1], events[|events| - 1];
      if last.ConversationEnd? {
        assert SessionOf(last, Count(events, IsEnd)) in Groups(events);
      } else {
        SomeGroup(init);
        var k :| k in Groups(init);
        assert k in Groups(events);
      }
    }
  }

  /** The sum of the estimates of all conversation ends. */
  function EstimateSum(events: seq<Event>, estimate: Event -> real): real {
    if events == [] then 0.0
    else
      var last := events[|events| - 1];
      EstimateSum(events[..|events| - 1], estimate) + if last.ConversationEnd? then estimate(last) else 0.0
  }

  function Totals(groups: map<string, seq<Entry>>): map<string, real> {
    map k | k in groups :: Total(groups[k])
  }

  lemma SumOfReplace(m: map<string, real>, k: string, v: real)
    ensures SumOf(m[k := v]) == SumOf(m) - (if k in m then m[k] else 0.0) + v
  {
    SumOfSplit(m[k := v], k);
    if k in m {
      SumOfSplit(m, k);
      assert m[k := v] - {k} == m - {k};
    } else {
      assert m[k := v] - {k} == m;
    }
  }

  lemma TotalsReplace(groups: map<string, seq<Entry>>, k: string, entries: seq<Entry>)
    ensures Totals(groups[k := entries]) == Totals(groups)[k := Total(entries)]
  {
  }

  lemma EntryGrows(groups: map<string, seq<Entry>>, k: string, x: real)
    ensures var before := if k in groups then groups[k] else [];
      Total(before + [Estimated(x)]) == x + if k in groups then Total(groups[k]) else 0.0
  {
    TotalGrows(if k in groups then groups[k] else [], Estimated(x));
  }

  /** A session's total grows by `x`; a new session starts from nothing. */
  lemma TotalsGrow(groups: map<string, seq<Entry>>, k: string, entries: seq<Entry>, x: real)
    requires Total(entries) == x + if k in groups then Total(groups[k]) else 0.0
    ensures SumOf(Totals(groups[k := entries])) == SumOf(Totals(groups)) + x
  {
    TotalsReplace(groups, k, entries);
    SumOfReplace(Totals(groups), k, Total(entries));
  }

  lemma {:induction false} EstimatesAddUp(events: seq<Event>, estimate: Event -> real)
    requires forall e :: e in events && e.ConversationEnd? ==> HasEstimateOnly(e, estimate(e))
    ensures SumOf(Totals(Groups(events))) == EstimateSum(events, estimate)
  {
    if events == [] {
      assert Totals(Groups(events)) == map[];
    } else {
      var init, last := events[..|events| - 1], events[|events| - 1];
      assert forall e :: e in events <==> e in init || e == last;
      EstimatesAddUp(init, estimate);
      if last.ConversationEnd? {
        EvidenceOfARecord(last);
        var k := SessionOf(last, Count(events, IsEnd));
        EntryGrows(Groups(init), k, estimate(last));
        TotalsGrow(Groups(init), k, Groups(events)[k], estimate(last));
      }
    }
  }

  lemma {:induction false} EstimatesOnly(events: seq<Event>, estimate: Event -> real, k: string)
    requires forall e :: e in events && e.ConversationEnd? ==> HasEstimateOnly(e, estimate(e))
    requires k in Groups(events)
    ensures Groups(events)[k] != [] && forall i :: 0 <= i < |Groups(events)[k]| ==> Groups(events)[k][i].Estimated?
  {
    var init, last := events[..|events| - 1], events[|events| - 1];
    assert forall e :: e in events <==> e in init || e == last;
    if last.ConversationEnd? {
      EvidenceOfARecord(last);
    }
    if k in Groups(init) {
      EstimatesOnly(init, estimate, k);
    }
  }

  lemma EstimatesCount(entries: seq<Entry>)
    requires entries != [] && forall i :: 0 <= i < |entries| ==> entries[i].Estimated?
    ensures Counted(entries) && HasEstimates(entries) && !HasReported(entries)
  {
    assert AfterLast(entries) == 0 && entries[0..] == entries;
  }

  /** If no conversation end carries a total and all carry an estimate, the cost is the sum of all estimates. */
  lemma PublishedCostIsTheEstimates(events: seq<Event>, log: LogSummary, estimate: Event -> real)
    requires exists e :: e in events && e.ConversationEnd?
    requires forall e :: e in events && e.ConversationEnd? ==> HasEstimateOnly(e, estimate(e))
    ensures var u := Summary(events, log);
      && (u.costComplete <==> Covered(events)) && u.costSource == EstimatedOnly
      && (u.costComplete ==> u.cost == Some(EstimateSum(events, estimate)))
  {
    EndsAreCounted(events);
    EstimatesAddUp(events, estimate);
    var groups := Groups(events);
    forall k | k in groups ensures Counted(groups[k]) && HasEstimates(groups[k]) && !HasReported(groups[k]) {
      EstimatesOnly(events, estimate, k);
      EstimatesCount(groups[k]);
    }
    assert Contributions(groups) == Totals(groups);
    SomeGroup(events);
    var k :| k in groups;
    assert Counted(groups[k]) && HasEstimates(groups[k]);
  }

  // ---------------------------------------------------------------- sessions

  function Parsed(digits: string): int {
    if digits == "" then 0 else 10 * Parsed(digits[..|digits| - 1]) + (digits[|digits| - 1] as int - '0' as int)
  }

  lemma ParsedConcat(a: string, b: string)
    requires |b| == 1
    ensures Parsed(a + b) == 10 * Parsed(a) + Parsed(b)
  {
    assert (a + b)[..|a|] == a && b[..0] == "";
  }

  lemma {:induction false} DecimalReadsBack(n: nat)
    ensures Parsed(Decimal(n)) == n
  {
    if n >= 10 {
      DecimalReadsBack(n / 10);
      DecimalReadsBack(n % 10);
      ParsedConcat(Decimal(n / 10), Decimal(n % 10));
    } else {
      assert Decimal(n)[..0] == "";
    }
  }

  /**
   * A conversation end belongs to the session it names; without one to its agent; without either it is a session of its
   * own, and different ones stay apart.
   */
  lemma SessionOfAnEnd(e: Event, n: nat)
    requires e.ConversationEnd?
    ensures e.details.Some? && e.details.value.session != "" ==> SessionOf(e, n) == e.details.value.session
    ensures (e.details.None? || e.details.value.session == "") && e.agent != "" ==> SessionOf(e, n) == e.agent
    ensures (e.details.None? || e.details.value.session == "") && e.agent == "" ==>
      && (e.eventId.Some? ==> SessionOf(e, n) == "event-" + e.eventId.value)
      && (e.eventId.None? ==> SessionOf(e, n)[..6] == "event-" && Parsed(SessionOf(e, n)[6..]) == n)
  {
    DecimalReadsBack(n);
    assert ("event-" + Decimal(n))[6..] == Decimal(n);
  }

  /** If every conversation end names its session, as many sessions are published as names occur. */
  lemma SessionsAreNames(events: seq<Event>, log: LogSummary, names: set<string>)
    requires forall e :: e in events && e.ConversationEnd? ==> e.details.Some? && e.details.value.session != ""
    requires names == set e | e in events && e.ConversationEnd? && e.details.Some? :: e.details.value.session
    ensures Summary(events, log).sessions == |names|
  {
    EndsAreCounted(events);
    GroupsAreNames(events, names);
    if Count(events, IsEnd) == 0 {
      assert names == {};
    }
    assert |Groups(events)| == |Groups(events).Keys|;
  }

  lemma {:induction false} GroupsAreNames(events: seq<Event>, names: set<string>)
    requires forall e :: e in events && e.ConversationEnd? ==> e.details.Some? && e.details.value.session != ""
    requires names == set e | e in events && e.ConversationEnd? && e.details.Some? :: e.details.value.session
    ensures Groups(events).Keys == names
  {
    if events != [] {
      var init, last := events[..|events| - 1], events[|events| - 1];
      assert forall e :: e in events <==> e in init || e == last;
      var before := set e | e in init && e.ConversationEnd? && e.details.Some? :: e.details.value.session;
      GroupsAreNames(init, before);
      assert names == before + if last.ConversationEnd? then {last.details.value.session} else {};
    }
  }

  /** The models and providers of all conversation ends that name them are published, and no others. */
  lemma NamesArePublished(events: seq<Event>, log: LogSummary, name: string)
    ensures name in Summary(events, log).models <==>
      name != "" && exists e :: e in events && e.ConversationEnd? && e.details.Some? && e.details.value.model == name
    ensures name in Summary(events, log).providers <==>
      name != "" && exists e :: e in events && e.ConversationEnd? && e.details.Some? && e.details.value.provider == name
  {
    EndsAreCounted(events);
    assert forall e: Event :: e in events ==> ModelOf(e) in Names(events, ModelOf) || ModelOf(e) == "";
    assert forall e: Event :: e in events ==> ProviderOf(e) in Names(events, ProviderOf) || ProviderOf(e) == "";
  }
}
