/** Laws of run usage: independence of the interleaving of sessions, and truth of the published cost. */
module UsageLaws {
  import opened Basics
  import opened SessionCost
  import opened RunUsage

  // ---------------------------------------------------------------- permutations of a stream

  lemma {:induction false} TallySplit(events: seq<Event>, weigh: Event -> int, j: nat)
    requires j < |events|
    ensures Tally(events, weigh) == weigh(events[j]) + Tally(events[..j] + events[j + 1..], weigh)
  {
    var last := |events| - 1;
    if j == last {
      assert events[..j] + events[j + 1..] == events[..last];
    } else {
      TallySplit(events[..last], weigh, j);
      var without := events[..j] + events[j + 1..];
      assert without[..last - 1] == events[..last][..j] + events[..last][j + 1..];
      assert without[last - 1] == events[last];
    }
  }

  lemma WithoutOne(events: seq<Event>, j: nat)
    requires j < |events|
    ensures multiset(events) == multiset(events[..j] + events[j + 1..]) + multiset{events[j]}
  {
    assert events == events[..j] + ([events[j]] + events[j + 1..]);
  }

  lemma {:induction false} TallyPermutes(a: seq<Event>, b: seq<Event>, weigh: Event -> int)
    requires multiset(a) == multiset(b)
    ensures Tally(a, weigh) == Tally(b, weigh)
    decreases |a|
  {
    if a == [] {
      assert |multiset(b)| == 0;
      assert b == [];
    } else {
      var init, x := a[..|a| - 1], a[|a| - 1];
      assert a == init + [x];
      assert x in multiset(b);
      var j :| 0 <= j < |b| && b[j] == x;
      var rest := b[..j] + b[j + 1..];
      WithoutOne(b, j);
      assert multiset(a) == multiset(init) + multiset{x};
      assert multiset(init) == multiset(a) - multiset{x} == multiset(b) - multiset{x} == multiset(rest);
      TallySplit(b, weigh, j);
      TallyPermutes(init, rest, weigh);
    }
  }

  function Indicator(keep: Event -> bool): Event -> int {
    (e: Event) => if keep(e) then 1 else 0
  }

  lemma {:induction false} CountIsTally(events: seq<Event>, keep: Event -> bool)
    ensures Count(events, keep) == Tally(events, Indicator(keep))
  {
    if events != [] {
      CountIsTally(events[..|events| - 1], keep);
    }
  }

  lemma CountPermutes(a: seq<Event>, b: seq<Event>, keep: Event -> bool)
    requires multiset(a) == multiset(b)
    ensures Count(a, keep) == Count(b, keep)
  {
    CountIsTally(a, keep);
    CountIsTally(b, keep);
    TallyPermutes(a, b, Indicator(keep));
  }

  function GivesReason(r: string): Event -> bool {
    (e: Event) => e.Unmetered? && r == if e.reason == "" then "unspecified" else e.reason
  }

  lemma {:induction false} ReasonIsTally(events: seq<Event>, r: string)
    ensures Reasons(events)[r] == Tally(events, Indicator(GivesReason(r)))
  {
    if events != [] {
      ReasonIsTally(events[..|events| - 1], r);
    }
  }

  lemma ReasonsPermute(a: seq<Event>, b: seq<Event>)
    requires multiset(a) == multiset(b)
    ensures Reasons(a) == Reasons(b)
  {
    forall r ensures Reasons(a)[r] == Reasons(b)[r] {
      ReasonIsTally(a, r);
      ReasonIsTally(b, r);
      TallyPermutes(a, b, Indicator(GivesReason(r)));
    }
  }

  // ---------------------------------------------------------------- sessions

  /** The session of a conversation end does not depend on its position in the stream. */
  predicate Named(e: Event) {
    e.ConversationEnd? ==> (e.details.Some? && e.details.value.session != "") || e.agent != "" || e.eventId.Some?
  }

  function EndOf(k: string): Event -> bool {
    (e: Event) => e.ConversationEnd? && SessionOf(e, 0) == k
  }

  const IsOther := (e: Event) => !e.ConversationEnd?

  /**
   * Two streams with the same conversation ends in the same order per session, and the same other events:
   * they differ only in how the sessions interleave.
   */
  ghost predicate SameSessions(a: seq<Event>, b: seq<Event>) {
    && (forall e :: e in a || e in b ==> Named(e))
    && (forall k :: Filter(a, EndOf(k)) == Filter(b, EndOf(k)))
    && multiset(Filter(a, IsOther)) == multiset(Filter(b, IsOther))
  }

  lemma {:induction false} FilterCounts(events: seq<Event>, keep: Event -> bool, e: Event)
    ensures multiset(Filter(events, keep))[e] == if keep(e) then multiset(events)[e] else 0
  {
    if events != [] {
      var init, last := events[..|events| - 1], events[|events| - 1];
      FilterCounts(init, keep, e);
      assert events == init + [last];
    }
  }

  lemma SameSessionsPermute(a: seq<Event>, b: seq<Event>)
    requires SameSessions(a, b)
    ensures multiset(a) == multiset(b)
  {
    forall e ensures multiset(a)[e] == multiset(b)[e] {
      var keep := if e.ConversationEnd? then EndOf(SessionOf(e, 0)) else IsOther;
      FilterCounts(a, keep, e);
      FilterCounts(b, keep, e);
    }
  }

  function Entries(ends: seq<Event>): seq<Entry> {
    seq(|ends|, i requires 0 <= i < |ends| => EntryOf(ends[i]))
  }

  /** The evidence of a session is that of its own conversation ends, in their order. */
  lemma {:induction false} GroupsAreSessions(events: seq<Event>, k: string)
    requires forall e :: e in events ==> Named(e)
    ensures k in Groups(events) <==> Filter(events, EndOf(k)) != []
    ensures k in Groups(events) ==> Groups(events)[k] == Entries(Filter(events, EndOf(k)))
  {
    if events != [] {
      var init, last := events[..|events| - 1], events[|events| - 1];
      GroupsAreSessions(init, k);
      assert last in events;
      var before := Filter(init, EndOf(k));
      assert Entries(before + [last]) == Entries(before) + [EntryOf(last)];
    }
  }

  lemma SameGroups(a: seq<Event>, b: seq<Event>)
    requires SameSessions(a, b)
    ensures Groups(a) == Groups(b)
  {
    forall k ensures (k in Groups(a) <==> k in Groups(b)) && (k in Groups(a) ==> Groups(a)[k] == Groups(b)[k]) {
      GroupsAreSessions(a, k);
      GroupsAreSessions(b, k);
    }
  }

  /** Interleaving independence: totals, completeness flags, cost source and published values are all the same. */
  lemma InterleavingDoesNotMatter(a: seq<Event>, b: seq<Event>, log: LogSummary)
    requires SameSessions(a, b)
    ensures Summary(a, log) == Summary(b, log)
  {
    SameSessionsPermute(a, b);
    SameGroups(a, b);
    ReasonsPermute(a, b);
    CountPermutes(a, b, IsEnd);
    CountPermutes(a, b, IsRequest);
    CountPermutes(a, b, IsCall);
    CountPermutes(a, b, IsDispatch);
    TallyPermutes(a, b, CallsOf);
    TallyPermutes(a, b, InputOf);
    TallyPermutes(a, b, OutputOf);
    assert forall e :: e in a <==> e in b by {
      assert forall e :: e in a <==> e in multiset(a);
      assert forall e :: e in b <==> e in multiset(b);
    }
    assert Names(a, ModelOf) == Names(b, ModelOf);
    assert Names(a, ProviderOf) == Names(b, ProviderOf);
    assert TalliesOf(a) == TalliesOf(b);
  }

  // ---------------------------------------------------------------- truth

  function Costs(truth: map<string, seq<real>>): map<string, real> {
    map k | k in truth :: SessionCost.Sum(truth[k])
  }

  lemma ContributionsAreTrue(groups: map<string, seq<Entry>>, truth: map<string, seq<real>>)
    requires truth.Keys == groups.Keys && AllCounted(groups)
    requires forall k :: k in truth ==> Truthful(groups[k], truth[k])
    ensures Contributions(groups) == Costs(truth)
  {
    forall k | k in groups ensures k in truth && Total(groups[k]) == SessionCost.Sum(truth[k]) {
      CountedSessionsAreExact(groups[k], truth[k]);
    }
    assert Contributions(groups).Keys == Costs(truth).Keys;
  }

  /** If every session reports honestly, a published cost is the sum of what the sessions cost. */
  lemma PublishedCostIsTrue(events: seq<Event>, log: LogSummary, truth: map<string, seq<real>>)
    requires Count(events, IsEnd) > 0 && truth.Keys == Groups(events).Keys
    requires forall k :: k in truth ==> Truthful(Groups(events)[k], truth[k])
    ensures Summary(events, log).costComplete ==> Summary(events, log).cost == Some(SumOf(Costs(truth)))
  {
    if AllCounted(Groups(events)) {
      ContributionsAreTrue(Groups(events), truth);
    }
  }
}
