/** Incremental polling of a run's event stream through a cursor, a type filter and a limit. */
module EventFollower {
  import opened Basics

  datatype Event = Event(id: string, kind: string)

  datatype Page = Page(events: seq<Event>, cursor: string)

  /** The events of the wanted kinds; no kinds means every kind. */
  function Matching(events: seq<Event>, kinds: set<string>): seq<Event> {
    if events == [] then []
    else
      var rest := Matching(events[..|events| - 1], kinds);
      var last := events[|events| - 1];
      if kinds == {} || last.kind in kinds then rest + [last] else rest
  }

  /** The first event with the given id, if any. */
  function Find(events: seq<Event>, id: string): (r: Option<nat>)
    ensures r.Some? ==> r.value < |events| && events[r.value].id == id && forall i :: 0 <= i < r.value ==> events[i].id != id
    ensures r.None? ==> forall i :: 0 <= i < |events| ==> events[i].id != id
  {
    if events == [] then None
    else
      var before := Find(events[..|events| - 1], id);
      if before.Some? then before
      else if events[|events| - 1].id == id then Some(|events| - 1) else None
  }

  /** What a caller that has seen everything up to the cursor has not seen; an unknown cursor has seen nothing. */
  function Unseen(events: seq<Event>, since: string): seq<Event> {
    if since == "" then events
    else
      var at := Find(events, since);
      if at.None? then events else events[at.value + 1..]
  }

  /** The limit of a poll; 0 counts as not given. */
  function Bound(limit: int): nat {
    if limit == 0 then 200 else if limit < 1 then 1 else limit
  }

  /** The last of `all`, as many as the limit allows. */
  predicate Newest(last: seq<Event>, all: seq<Event>, limit: int) {
    && |last| == (if |all| <= Bound(limit) then |all| else Bound(limit))
    && last == all[|all| - |last|..]
  }

  /** The id of the last event, or of what came before it. */
  function LastId(events: seq<Event>, before: string): string {
    if events == [] then before else events[|events| - 1].id
  }

  /** The newest of the matches, and a cursor behind them. */
  function PageOf(matching: seq<Event>, since: string, limit: int): (page: Page)
    ensures Newest(page.events, matching, limit)
    ensures page.cursor == LastId(matching, since)
  {
    var events := if |matching| > Bound(limit) then matching[|matching| - Bound(limit)..] else matching;
    Page(events, LastId(events, since))
  }

  function Poll(events: seq<Event>, since: string, kinds: set<string>, limit: int): Page {
    PageOf(Matching(Unseen(events, since), kinds), since, limit)
  }

  // ---------------------------------------------------------------- following

  ghost predicate Distinct(events: seq<Event>) {
    && (forall i :: 0 <= i < |events| ==> events[i].id != "")
    && (forall i, j :: 0 <= i < j < |events| ==> events[i].id != events[j].id)
  }

  /** An append-only stream: what stands in it once all the batches have been appended. */
  function Stream(batches: seq<seq<Event>>): seq<Event> {
    if batches == [] then [] else Stream(batches[..|batches| - 1]) + batches[|batches| - 1]
  }

  /** The page of the poll made after the last batch, each poll using the cursor of the one before. */
  function LastPage(batches: seq<seq<Event>>, kinds: set<string>, limit: int): Page {
    if batches == [] then Page([], "")
    else Poll(Stream(batches), LastPage(batches[..|batches| - 1], kinds, limit).cursor, kinds, limit)
  }

  /** Everything the polls delivered, in the order of delivery. */
  function Delivered(batches: seq<seq<Event>>, kinds: set<string>, limit: int): seq<Event> {
    if batches == [] then []
    else Delivered(batches[..|batches| - 1], kinds, limit) + LastPage(batches, kinds, limit).events
  }

  /** No poll finds more new matches than it may return. */
  ghost predicate KeepsUp(batches: seq<seq<Event>>, kinds: set<string>, limit: int) {
    forall n :: 0 <= n < |batches| ==> |Matching(batches[n], kinds)| <= Bound(limit)
  }

  // ---------------------------------------------------------------- filters

  lemma {:induction false} MatchingConcat(a: seq<Event>, b: seq<Event>, kinds: set<string>)
    ensures Matching(a + b, kinds) == Matching(a, kinds) + Matching(b, kinds)
  {
    if b == [] {
      assert a + b == a;
    } else {
      var n := |b| - 1;
      MatchingConcat(a, b[..n], kinds);
      assert (a + b)[..|a + b| - 1] == a + b[..n];
    }
  }

  /** If some event matches, cut the stream after the last one: nothing behind the cut matches. */
  lemma {:induction false} LastMatch(events: seq<Event>, kinds: set<string>) returns (i: nat)
    requires Matching(events, kinds) != []
    ensures i < |events| && events[i] == Matching(events, kinds)[|Matching(events, kinds)| - 1]
    ensures Matching(events[i + 1..], kinds) == []
  {
    var n := |events| - 1;
    if kinds == {} || events[n].kind in kinds {
      i := n;
    } else {
      i := LastMatch(events[..n], kinds);
      assert events[i + 1..][..n - i - 1] == events[..n][i + 1..];
    }
  }

  lemma UnseenAfter(events: seq<Event>, i: nat)
    requires Distinct(events) && i < |events|
    ensures Unseen(events, events[i].id) == events[i + 1..]
  {
    var at := Find(events, events[i].id);
    assert at == Some(i);
  }

  lemma MatchingTail(seen: seq<Event>, rest: seq<Event>, i: nat, kinds: set<string>)
    requires i < |seen| && Matching(seen[i + 1..], kinds) == []
    ensures Matching((seen + rest)[i + 1..], kinds) == Matching(rest, kinds)
  {
    assert (seen + rest)[i + 1..] == seen[i + 1..] + rest;
    MatchingConcat(seen[i + 1..], rest, kinds);
  }

  // ---------------------------------------------------------------- exactly once

  /** The cursor stands at the last matching event of what was polled last. */
  ghost predicate CursorAt(events: seq<Event>, kinds: set<string>, cursor: string) {
    cursor == LastId(Matching(events, kinds), "")
  }

  /** With the cursor at the end of `seen`, a poll of a longer stream finds exactly the matches that are new. */
  lemma PollFindsTheNew(seen: seq<Event>, rest: seq<Event>, kinds: set<string>, cursor: string)
    requires Distinct(seen + rest) && CursorAt(seen, kinds, cursor)
    ensures Matching(Unseen(seen + rest, cursor), kinds) == Matching(rest, kinds)
  {
    if Matching(seen, kinds) == [] {
      MatchingConcat(seen, rest, kinds);
    } else {
      var i := LastMatch(seen, kinds);
      assert (seen + rest)[i] == seen[i];
      UnseenAfter(seen + rest, i);
      MatchingTail(seen, rest, i, kinds);
    }
  }

  lemma CursorMoves(seen: seq<Event>, rest: seq<Event>, kinds: set<string>, cursor: string)
    requires CursorAt(seen, kinds, cursor)
    ensures CursorAt(seen + rest, kinds, LastId(Matching(rest, kinds), cursor))
  {
    MatchingConcat(seen, rest, kinds);
    LastIdConcat(Matching(seen, kinds), Matching(rest, kinds));
  }

  lemma LastIdConcat(a: seq<Event>, b: seq<Event>)
    ensures LastId(a + b, "") == LastId(b, LastId(a, ""))
  {
    if b == [] {
      assert a + b == a;
    }
  }

  /** One poll: the cursor moves to the last match, and the page is the newest of the new matches, as many as fit. */
  lemma OnePoll(seen: seq<Event>, rest: seq<Event>, kinds: set<string>, cursor: string, limit: int)
    requires Distinct(seen + rest) && CursorAt(seen, kinds, cursor)
    ensures var page := Poll(seen + rest, cursor, kinds, limit);
      CursorAt(seen + rest, kinds, page.cursor) && Newest(page.events, Matching(rest, kinds), limit)
  {
    PollFindsTheNew(seen, rest, kinds, cursor);
    CursorMoves(seen, rest, kinds, cursor);
  }

  lemma DistinctPrefix(a: seq<Event>, b: seq<Event>)
    requires Distinct(a + b)
    ensures Distinct(a)
  {
    assert forall i :: 0 <= i < |a| ==> (a + b)[i] == a[i];
  }

  lemma {:induction false} CursorFollows(batches: seq<seq<Event>>, kinds: set<string>, limit: int)
    requires Distinct(Stream(batches))
    ensures CursorAt(Stream(batches), kinds, LastPage(batches, kinds, limit).cursor)
  {
    if batches != [] {
      var init, last := batches[..|batches| - 1], batches[|batches| - 1];
      DistinctPrefix(Stream(init), last);
      CursorFollows(init, kinds, limit);
      OnePoll(Stream(init), last, kinds, LastPage(init, kinds, limit).cursor, limit);
    }
  }

  lemma KeepsUpSplit(batches: seq<seq<Event>>, kinds: set<string>, limit: int)
    requires batches != []
    ensures var n := |batches| - 1;
      KeepsUp(batches, kinds, limit) <==> KeepsUp(batches[..n], kinds, limit) && |Matching(batches[n], kinds)| <= Bound(limit)
  {
  }

  lemma {:induction false} DeliveryCount(batches: seq<seq<Event>>, kinds: set<string>, limit: int)
    requires Distinct(Stream(batches))
    ensures KeepsUp(batches, kinds, limit) ==> Delivered(batches, kinds, limit) == Matching(Stream(batches), kinds)
    ensures !KeepsUp(batches, kinds, limit) ==> |Delivered(batches, kinds, limit)| < |Matching(Stream(batches), kinds)|
  {
    if batches != [] {
      var init, last := batches[..|batches| - 1], batches[|batches| - 1];
      DistinctPrefix(Stream(init), last);
      CursorFollows(init, kinds, limit);
      OnePoll(Stream(init), last, kinds, LastPage(init, kinds, limit).cursor, limit);
      DeliveryCount(init, kinds, limit);
      KeepsUpSplit(batches, kinds, limit);
      MatchingConcat(Stream(init), last, kinds);
    }
  }

  /**
   * Over an append-only stream, feeding each cursor into the next poll delivers every matching event exactly once
   * and in order, exactly when no poll finds more new matches than its limit; otherwise events are lost.
   */
  lemma FollowerDeliversOnce(batches: seq<seq<Event>>, kinds: set<string>, limit: int)
    requires Distinct(Stream(batches))
    ensures Delivered(batches, kinds, limit) == Matching(Stream(batches), kinds) <==> KeepsUp(batches, kinds, limit)
  {
    DeliveryCount(batches, kinds, limit);
  }

  lemma {:induction false} EverythingMatches(events: seq<Event>)
    ensures Matching(events, {}) == events
  {
    if events != [] {
      EverythingMatches(events[..|events| - 1]);
    }
  }

  lemma FirstPoll(batch: seq<Event>, limit: int)
    ensures Stream([batch]) == batch && Newest(Delivered([batch], {}, limit), batch, limit)
  {
    var none: seq<seq<Event>> := [];
    assert [batch][..0] == none && Stream(none) + batch == batch;
    EverythingMatches(batch);
    assert Delivered([batch], {}, limit) == LastPage([batch], {}, limit).events;
  }

  /** A first poll of limit 1 over two events: the first of them is never delivered. */
  lemma FollowerLosesExample(first: Event, second: Event)
    requires Distinct([first, second])
    ensures Distinct(Stream([[first, second]])) && Matching(Stream([[first, second]]), {}) == [first, second]
    ensures Delivered([[first, second]], {}, 1) == [second]
  {
    FirstPoll([first, second], 1);
    EverythingMatches([first, second]);
  }

  // ---------------------------------------------------------------- what is wanted

  predicate Wanted(e: Event, kinds: set<string>) {
    kinds == {} || e.kind in kinds
  }

  /** The matches stand at increasing positions of the stream, and these are all positions of wanted events. */
  lemma {:induction false} MatchesAreTheWanted(events: seq<Event>, kinds: set<string>) returns (at: seq<nat>)
    ensures |at| == |Matching(events, kinds)|
    ensures forall i :: 0 <= i < |at| ==> at[i] < |events| && Matching(events, kinds)[i] == events[at[i]] && Wanted(events[at[i]], kinds)
    ensures forall i, j :: 0 <= i < j < |at| ==> at[i] < at[j]
    ensures forall p :: 0 <= p < |events| && Wanted(events[p], kinds) ==> p in at
  {
    if events == [] {
      at := [];
    } else {
      var n := |events| - 1;
      at := MatchesAreTheWanted(events[..n], kinds);
      if Wanted(events[n], kinds) {
        at := at + [n];
      }
    }
  }

  lemma WantedMatch(events: seq<Event>, kinds: set<string>, e: Event)
    ensures e in Matching(events, kinds) <==> e in events && Wanted(e, kinds)
  {
    var at := MatchesAreTheWanted(events, kinds);
    if e in events && Wanted(e, kinds) {
      var p :| 0 <= p < |events| && events[p] == e;
      var i :| 0 <= i < |at| && at[i] == p;
    }
  }

  lemma {:induction false} DeliveredAreMatches(batches: seq<seq<Event>>, kinds: set<string>, limit: int, e: Event)
    requires Distinct(Stream(batches)) && e in Delivered(batches, kinds, limit)
    ensures e in Matching(Stream(batches), kinds)
  {
    var init, last := batches[..|batches| - 1], batches[|batches| - 1];
    DistinctPrefix(Stream(init), last);
    MatchingConcat(Stream(init), last, kinds);
    if e in Delivered(init, kinds, limit) {
      DeliveredAreMatches(init, kinds, limit, e);
    } else {
      CursorFollows(init, kinds, limit);
      OnePoll(Stream(init), last, kinds, LastPage(init, kinds, limit).cursor, limit);
    }
  }

  /** Whatever is delivered is a wanted event of the stream; if the polls keep up, every wanted event is delivered. */
  lemma OnlyTheWantedIsDelivered(batches: seq<seq<Event>>, kinds: set<string>, limit: int, e: Event)
    requires Distinct(Stream(batches))
    ensures e in Delivered(batches, kinds, limit) ==> e in Stream(batches) && Wanted(e, kinds)
    ensures KeepsUp(batches, kinds, limit) && e in Stream(batches) && Wanted(e, kinds) ==> e in Delivered(batches, kinds, limit)
  {
    DeliveryCount(batches, kinds, limit);
    WantedMatch(Stream(batches), kinds, e);
    if e in Delivered(batches, kinds, limit) {
      DeliveredAreMatches(batches, kinds, limit, e);
    }
  }

  /** How many events a poll returns: all new matches up to the limit, 200 if it is 0, one if it is negative. */
  lemma PageSize(events: seq<Event>, since: string, kinds: set<string>, limit: int)
    ensures var found, size := |Matching(Unseen(events, since), kinds)|, |Poll(events, since, kinds, limit).events|;
      && (limit > 0 ==> size == if found <= limit then found else limit)
      && (limit == 0 ==> size == if found <= 200 then found else 200)
      && (limit < 0 ==> size == if found == 0 then 0 else 1)
  {
  }

  /** A cursor that is not in the stream, after a rotation say, gets the newest matches rather than none. */
  lemma UnknownCursorGetsTheTail(events: seq<Event>, since: string, kinds: set<string>, limit: int)
    requires forall i :: 0 <= i < |events| ==> events[i].id != since
    ensures Newest(Poll(events, since, kinds, limit).events, Matching(events, kinds), limit)
  {
  }
}
