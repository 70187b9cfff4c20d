/** Usage of a run, aggregated from its event stream; what it publishes does not depend on the interleaving. */
module RunUsage {
  import opened Basics
  import opened SessionCost

  datatype Turn = Turn(prompt: Option<int>, completion: Option<int>)

  /** The cost record of a turn; `reportedSource` says that its source is the provider. */
  datatype Cost = Cost(reportedTotal: Option<real>, reportedSource: bool, total: Option<real>, estimatedTurn: Option<real>)

  datatype UsageRecord = UsageRecord(turn: Option<Turn>, cost: Option<Cost>)

  datatype Details = Details(session: string, model: string, provider: string, apiCalls: Option<int>, usage: Option<UsageRecord>)

  datatype Event =
    | ConversationEnd(details: Option<Details>, agent: string, eventId: Option<string>)
    | ApiRequest
    | ApiCall
    | Unmetered(reason: string)
    | DispatchJob
    | Other(kind: string)

  /** The numbers a log summary shows when no conversation end was recorded. */
  datatype LogSummary = LogSummary(apiCalls: Option<int>, input: Option<int>, output: Option<int>, cost: Option<real>, costSource: CostSource)

  datatype CostSource = Unavailable | ProviderReported | EstimatedOnly | Mixed

  datatype Usage = Usage(
    apiCalls: Option<int>,
    input: Option<int>,
    output: Option<int>,
    cost: Option<real>,
    costSource: CostSource,
    apiCallsComplete: bool,
    tokensComplete: bool,
    costComplete: bool,
    ends: nat,
    recordedRequests: nat,
    requestEvents: nat,
    callEvents: nat,
    reasons: multiset<string>,
    dispatches: nat,
    coverageComplete: bool,
    sessions: nat,
    models: set<string>,
    providers: set<string>)

  // ---------------------------------------------------------------- one event

  function Decimal(n: nat): string {
    if n < 10 then [('0' as int + n) as char] else Decimal(n / 10) + Decimal(n % 10)
  }

  /** The session of a conversation end: its own id, else its agent, else the event itself. */
  function SessionOf(e: Event, ordinal: nat): string
    requires e.ConversationEnd?
  {
    if e.details.Some? && e.details.value.session != "" then e.details.value.session
    else if e.agent != "" then e.agent
    else "event-" + if e.eventId.Some? then e.eventId.value else Decimal(ordinal)
  }

  function UsageOf(e: Event): Option<UsageRecord> {
    if e.ConversationEnd? && e.details.Some? then e.details.value.usage else None
  }

  function TurnOf(e: Event): Option<Turn> {
    if UsageOf(e).Some? then UsageOf(e).value.turn else None
  }

  /** Tokens of a turn count only when both numbers are known. */
  predicate TokensKnown(e: Event) {
    TurnOf(e).Some? && TurnOf(e).value.prompt.Some? && TurnOf(e).value.completion.Some?
  }

  predicate CallsKnown(e: Event) {
    e.ConversationEnd? && e.details.Some? && e.details.value.apiCalls.Some?
  }

  function EntryOf(e: Event): Entry {
    if TurnOf(e).None? || UsageOf(e).value.cost.None? then Missing
    else
      var cost := UsageOf(e).value.cost.value;
      if cost.reportedTotal.Some? then Reported(cost.reportedTotal.value)
      else if cost.reportedSource && cost.total.Some? then Reported(cost.total.value)
      else if cost.estimatedTurn.Some? then Estimated(cost.estimatedTurn.value)
      else Missing
  }

  function CallsOf(e: Event): int { if CallsKnown(e) then e.details.value.apiCalls.value else 0 }
  function InputOf(e: Event): int { if TokensKnown(e) then TurnOf(e).value.prompt.value else 0 }
  function OutputOf(e: Event): int { if TokensKnown(e) then TurnOf(e).value.completion.value else 0 }
  function ModelOf(e: Event): string { if e.ConversationEnd? && e.details.Some? then e.details.value.model else "" }
  function ProviderOf(e: Event): string { if e.ConversationEnd? && e.details.Some? then e.details.value.provider else "" }

  // ---------------------------------------------------------------- a stream

  function Filter(events: seq<Event>, keep: Event -> bool): seq<Event> {
    if events == [] then []
    else Filter(events[..|events| - 1], keep) + if keep(events[|events| - 1]) then [events[|events| - 1]] else []
  }

  function Tally(events: seq<Event>, weigh: Event -> int): int {
    if events == [] then 0 else Tally(events[..|events| - 1], weigh) + weigh(events[|events| - 1])
  }

  function Count(events: seq<Event>, keep: Event -> bool): nat {
    |Filter(events, keep)|
  }

  function Reasons(events: seq<Event>): multiset<string> {
    if events == [] then multiset{}
    else
      var last := events[|events| - 1];
      Reasons(events[..|events| - 1]) +
      if last.Unmetered? then multiset{if last.reason == "" then "unspecified" else last.reason} else multiset{}
  }

  const IsEnd := (e: Event) => e.ConversationEnd?
  const IsRequest := (e: Event) => e.ApiRequest?
  const IsCall := (e: Event) => e.ApiCall?
  const IsDispatch := (e: Event) => e.DispatchJob?

  function Requests(events: seq<Event>): nat {
    if Count(events, IsRequest) > 0 then Count(events, IsRequest) else Count(events, IsCall)
  }

  /** The cost evidence of every session, in the order of its conversation ends. */
  function Groups(events: seq<Event>): map<string, seq<Entry>> {
    if events == [] then map[]
    else
      var groups := Groups(events[..|events| - 1]);
      var last := events[|events| - 1];
      if !last.ConversationEnd? then groups
      else
        var k := SessionOf(last, Count(events, IsEnd));
        groups[k := (if k in groups then groups[k] else []) + [EntryOf(last)]]
  }

  ghost function SumOf(m: map<string, real>): real
    decreases |m|
  {
    if m == map[] then 0.0
    else
      var k :| k in m;
      m[k] + SumOf(m - {k})
  }

  lemma {:induction false} SumOfSplit(m: map<string, real>, k: string)
    requires k in m
    ensures SumOf(m) == m[k] + SumOf(m - {k})
    decreases |m|
  {
    var j :| j in m && SumOf(m) == m[j] + SumOf(m - {j});
    if j != k {
      SumOfSplit(m - {j}, k);
      SumOfSplit(m - {k}, j);
      assert m - {j} - {k} == m - {k} - {j};
    }
  }

  /** What the sessions that count contribute. */
  function Contributions(groups: map<string, seq<Entry>>): map<string, real> {
    map k | k in groups && Counted(groups[k]) :: Total(groups[k])
  }

  predicate AnyReported(groups: map<string, seq<Entry>>) {
    exists k :: k in groups && Counted(groups[k]) && HasReported(groups[k])
  }

  predicate AnyEstimates(groups: map<string, seq<Entry>>) {
    exists k :: k in groups && Counted(groups[k]) && HasEstimates(groups[k])
  }

  function SourceOf(reported: bool, estimated: bool): CostSource {
    if reported && estimated then Mixed
    else if reported then ProviderReported
    else if estimated then EstimatedOnly
    else Unavailable
  }

  predicate Covered(events: seq<Event>) {
    Reasons(events) == multiset{} && Count(events, IsDispatch) == 0 && Tally(events, CallsOf) == Requests(events)
  }

  predicate AllCounted(groups: map<string, seq<Entry>>) {
    forall k :: k in groups ==> Counted(groups[k])
  }

  /** What one pass over the conversation ends collects. */
  datatype Tallies = Tallies(
    groups: map<string, seq<Entry>>,
    ends: nat,
    apiCalls: int,
    input: int,
    output: int,
    callsKnown: bool,
    tokensKnown: bool,
    models: set<string>,
    providers: set<string>)

  function TalliesOf(events: seq<Event>): Tallies {
    Tallies(
      Groups(events),
      Count(events, IsEnd),
      Tally(events, CallsOf),
      Tally(events, InputOf),
      Tally(events, OutputOf),
      forall e :: e in events && e.ConversationEnd? ==> CallsKnown(e),
      forall e :: e in events && e.ConversationEnd? ==> TokensKnown(e),
      Names(events, ModelOf),
      Names(events, ProviderOf))
  }

  function Names(events: seq<Event>, name: Event -> string): set<string> {
    set e | e in events && name(e) != "" :: name(e)
  }

  /** What a run publishes: totals only where the evidence is complete. */
  ghost function Summary(events: seq<Event>, log: LogSummary): Usage {
    var t := TalliesOf(events);
    var covered := Covered(events);
    var requestEvents, callEvents := Count(events, IsRequest), Count(events, IsCall);
    if t.ends == 0 then
      Usage(log.apiCalls, log.input, log.output, log.cost, log.costSource, false, false, false, 0, Requests(events),
            requestEvents, callEvents, Reasons(events), Count(events, IsDispatch), false, 0, {}, {})
    else
      Usage(
        if covered && t.callsKnown then Some(t.apiCalls) else None,
        if covered && t.tokensKnown then Some(t.input) else None,
        if covered && t.tokensKnown then Some(t.output) else None,
        if covered && AllCounted(t.groups) then Some(SumOf(Contributions(t.groups))) else None,
        SourceOf(AnyReported(t.groups), AnyEstimates(t.groups)),
        covered && t.callsKnown, covered && t.tokensKnown, covered && AllCounted(t.groups),
        t.ends, Requests(events), requestEvents, callEvents, Reasons(events), Count(events, IsDispatch), covered,
        |t.groups|, t.models, t.providers)
  }

  // ---------------------------------------------------------------- the loops

  lemma PeelSum(groups: map<string, seq<Entry>>, k: string)
    requires k in groups
    ensures SumOf(Contributions(groups)) ==
      SumOf(Contributions(groups - {k})) + if Counted(groups[k]) then Total(groups[k]) else 0.0
  {
    var all, rest := Contributions(groups), Contributions(groups - {k});
    if k in all {
      SumOfSplit(all, k);
      assert rest == all - {k};
    } else {
      assert rest == all;
    }
  }

  /** One group more or less. */
  lemma PeelGroup(groups: map<string, seq<Entry>>, k: string)
    requires k in groups
    ensures AllCounted(groups) <==> Counted(groups[k]) && AllCounted(groups - {k})
    ensures AnyReported(groups) <==> (Counted(groups[k]) && HasReported(groups[k])) || AnyReported(groups - {k})
    ensures AnyEstimates(groups) <==> (Counted(groups[k]) && HasEstimates(groups[k])) || AnyEstimates(groups - {k})
  {
    var rest := groups - {k};
    assert forall j :: j in groups <==> j == k || j in rest;
    assert forall j :: j in rest ==> rest[j] == groups[j];
    if AnyReported(rest) {
      var j :| j in rest && Counted(rest[j]) && HasReported(rest[j]);
      assert j in groups && Counted(groups[j]) && HasReported(groups[j]);
    }
    if AnyEstimates(rest) {
      var j :| j in rest && Counted(rest[j]) && HasEstimates(rest[j]);
      assert j in groups && Counted(groups[j]) && HasEstimates(groups[j]);
    }
  }

  /** Sum the sessions that count, in whatever order the groups come. */
  method SettleGroups(groups: map<string, seq<Entry>>)
    returns (total: real, complete: bool, reported: bool, estimated: bool)
    ensures total == SumOf(Contributions(groups))
    ensures complete == AllCounted(groups)
    ensures reported == AnyReported(groups) && estimated == AnyEstimates(groups)
  {
    total, complete, reported, estimated := 0.0, true, false, false;
    var rest := groups;
    while rest != map[]
      invariant total + SumOf(Contributions(rest)) == SumOf(Contributions(groups))
      invariant (complete && AllCounted(rest)) == AllCounted(groups)
      invariant (reported || AnyReported(rest)) == AnyReported(groups)
      invariant (estimated || AnyEstimates(rest)) == AnyEstimates(groups)
      decreases |rest|
    {
      var k :| k in rest;
      PeelSum(rest, k);
      PeelGroup(rest, k);
      var groupTotal, counted, fromProvider, fromEstimates := Settle(rest[k]);
      if counted {
        total := total + groupTotal;
        reported := reported || fromProvider;
        estimated := estimated || fromEstimates;
      } else {
        complete := false;
      }
      rest := rest - {k};
    }
  }

  /** The tallies after one event more. */
  function Grown(t: Tallies, e: Event): Tallies {
    if !e.ConversationEnd? then t
    else
      var k := SessionOf(e, t.ends + 1);
      Tallies(
        t.groups[k := (if k in t.groups then t.groups[k] else []) + [EntryOf(e)]],
        t.ends + 1,
        t.apiCalls + CallsOf(e),
        t.input + InputOf(e),
        t.output + OutputOf(e),
        t.callsKnown && CallsKnown(e),
        t.tokensKnown && TokensKnown(e),
        t.models + (if ModelOf(e) != "" then {ModelOf(e)} else {}),
        t.providers + (if ProviderOf(e) != "" then {ProviderOf(e)} else {}))
  }

  lemma GroupsGrow(events: seq<Event>, e: Event)
    ensures Count(events + [e], IsEnd) == Count(events, IsEnd) + (if e.ConversationEnd? then 1 else 0)
    ensures Groups(events + [e]) == Grown(TalliesOf(events), e).groups
  {
    assert (events + [e])[..|events|] == events;
  }

  lemma NumbersGrow(events: seq<Event>, e: Event, weigh: Event -> int)
    ensures Tally(events + [e], weigh) == Tally(events, weigh) + weigh(e)
  {
    assert (events + [e])[..|events|] == events;
  }

  lemma NamesGrow(events: seq<Event>, e: Event, name: Event -> string)
    ensures Names(events + [e], name) == Names(events, name) + (if name(e) != "" then {name(e)} else {})
  {
    var before, after := Names(events, name), Names(events + [e], name);
    forall n ensures n in after <==> n in before || (n == name(e) && n != "") {
      if n in before {
        var x :| x in events && name(x) != "" && name(x) == n;
        assert x in events + [e];
      }
    }
  }

  lemma TalliesGrow(events: seq<Event>, e: Event)
    ensures TalliesOf(events + [e]) == Grown(TalliesOf(events), e)
  {
    GroupsGrow(events, e);
    NumbersGrow(events, e, CallsOf);
    NumbersGrow(events, e, InputOf);
    NumbersGrow(events, e, OutputOf);
    NamesGrow(events, e, ModelOf);
    NamesGrow(events, e, ProviderOf);
    assert forall x :: x in events + [e] <==> x in events || x == e;
  }

  method Collect(events: seq<Event>) returns (t: Tallies)
    ensures t == TalliesOf(events)
  {
    t := Tallies(map[], 0, 0, 0, 0, true, true, {}, {});
    var i := 0;
    while i < |events|
      invariant 0 <= i <= |events|
      invariant t == TalliesOf(events[..i])
    {
      TalliesGrow(events[..i], events[i]);
      assert events[..i + 1] == events[..i] + [events[i]];
      t := Grown(t, events[i]);
      i := i + 1;
    }
    assert events[..i] == events;
  }

  /** The usage of a run: its tallies, settled session by session, and withheld where the evidence does not cover it. */
  method AggregateUsage(events: seq<Event>, log: LogSummary) returns (u: Usage)
    ensures u == Summary(events, log)
  {
    var t := Collect(events);
    var requests := Requests(events);
    var requestEvents, callEvents := Count(events, IsRequest), Count(events, IsCall);
    var reasons, dispatches := Reasons(events), Count(events, IsDispatch);
    if t.ends == 0 {
      return Usage(log.apiCalls, log.input, log.output, log.cost, log.costSource, false, false, false, 0, requests,
                   requestEvents, callEvents, reasons, dispatches, false, 0, {}, {});
    }
    var costTotal, costOk, reported, estimated := SettleGroups(t.groups);
    var callsOk, tokensOk := t.callsKnown, t.tokensKnown;
    var covered := reasons == multiset{} && dispatches == 0 && t.apiCalls == requests;
    if !covered {
      callsOk, tokensOk, costOk := false, false, false;
    }
    u := Usage(
      if callsOk then Some(t.apiCalls) else None,
      if tokensOk then Some(t.input) else None,
      if tokensOk then Some(t.output) else None,
      if costOk then Some(costTotal) else None,
      SourceOf(reported, estimated),
      callsOk, tokensOk, costOk,
      t.ends, requests, requestEvents, callEvents, reasons, dispatches, covered, |t.groups|, t.models, t.providers);
  }
}
