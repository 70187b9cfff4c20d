/** What one agent session cost, from a mixture of cumulative totals, per-turn estimates and gaps. */
module SessionCost {
  import opened Basics

  const EPSILON: real := 0.000000001

  datatype Entry = Reported(total: real) | Estimated(turn: real) | Missing

  // ---------------------------------------------------------------- the meaning of a session

  /** The position after the last cumulative total, 0 if there is none. */
  function AfterLast(entries: seq<Entry>): (n: nat)
    ensures n <= |entries|
    ensures n > 0 ==> entries[n - 1].Reported?
    ensures forall i :: n <= i < |entries| ==> !entries[i].Reported?
  {
    if entries == [] then 0
    else if entries[|entries| - 1].Reported? then |entries|
    else AfterLast(entries[..|entries| - 1])
  }

  function Estimates(entries: seq<Entry>): real {
    if entries == [] then 0.0
    else Estimates(entries[..|entries| - 1]) + if entries[|entries| - 1].Estimated? then entries[|entries| - 1].turn else 0.0
  }

  /** The last cumulative total, plus the estimates of the turns after it. */
  function Total(entries: seq<Entry>): real {
    var n := AfterLast(entries);
    (if n > 0 then entries[n - 1].total else 0.0) + Estimates(entries[n..])
  }

  /** Nothing is missing after the last cumulative total. */
  predicate Gapless(entries: seq<Entry>) {
    Missing !in entries[AfterLast(entries)..]
  }

  predicate HasReported(entries: seq<Entry>) {
    AfterLast(entries) > 0
  }

  predicate HasEstimates(entries: seq<Entry>) {
    exists i :: AfterLast(entries) <= i < |entries| && entries[i].Estimated?
  }

  /** Some cumulative total lies below an earlier one. */
  predicate Regressed(entries: seq<Entry>) {
    exists i, j :: 0 <= i < j < |entries| && entries[i].Reported? && entries[j].Reported?
                   && entries[j].total < entries[i].total - EPSILON
  }

  predicate Counted(entries: seq<Entry>) {
    Gapless(entries) && (HasReported(entries) || HasEstimates(entries)) && !Regressed(entries)
  }

  // ---------------------------------------------------------------- one entry more

  lemma AfterLastGrows(entries: seq<Entry>, e: Entry)
    ensures AfterLast(entries + [e]) == if e.Reported? then |entries| + 1 else AfterLast(entries)
  {
    assert (entries + [e])[..|entries|] == entries;
  }

  /** The evidence after the last cumulative total. */
  function Open(entries: seq<Entry>): seq<Entry> {
    entries[AfterLast(entries)..]
  }

  lemma OpenGrows(entries: seq<Entry>, e: Entry)
    ensures Open(entries + [e]) == if e.Reported? then [] else Open(entries) + [e]
  {
    AfterLastGrows(entries, e);
  }

  lemma TotalGrows(entries: seq<Entry>, e: Entry)
    ensures Total(entries + [e]) ==
      if e.Reported? then e.total else if e.Estimated? then Total(entries) + e.turn else Total(entries)
  {
    AfterLastGrows(entries, e);
    OpenGrows(entries, e);
    if !e.Reported? {
      assert (Open(entries) + [e])[..|Open(entries)|] == Open(entries);
    }
  }

  lemma FlagsGrow(entries: seq<Entry>, e: Entry)
    ensures Gapless(entries + [e]) <==> e.Reported? || (!e.Missing? && Gapless(entries))
    ensures HasReported(entries + [e]) <==> e.Reported? || HasReported(entries)
    ensures HasEstimates(entries + [e]) <==> e.Estimated? || (!e.Reported? && HasEstimates(entries))
  {
    AfterLastGrows(entries, e);
    OpenGrows(entries, e);
    assert (entries + [e])[|entries|] == e;
    if !e.Reported? && HasEstimates(entries) {
      var i :| AfterLast(entries) <= i < |entries| && entries[i].Estimated?;
      assert (entries + [e])[i] == entries[i];
    }
  }

  /** The highest cumulative total so far. */
  function HighWater(entries: seq<Entry>): Option<real> {
    if entries == [] then None
    else
      var high, e := HighWater(entries[..|entries| - 1]), entries[|entries| - 1];
      if e.Reported? && (high.None? || high.value < e.total) then Some(e.total) else high
  }

  lemma {:induction false} HighWaterIsHighest(entries: seq<Entry>)
    ensures var high := HighWater(entries);
      && (high.None? ==> forall i :: 0 <= i < |entries| ==> !entries[i].Reported?)
      && (high.Some? ==>
            && (forall i :: 0 <= i < |entries| && entries[i].Reported? ==> entries[i].total <= high.value)
            && exists i :: 0 <= i < |entries| && entries[i] == Reported(high.value))
  {
    if entries != [] {
      var init, e := entries[..|entries| - 1], entries[|entries| - 1];
      HighWaterIsHighest(init);
      if HighWater(entries) == HighWater(init) && HighWater(init).Some? {
        var i :| 0 <= i < |init| && init[i] == Reported(HighWater(init).value);
        assert entries[i] == init[i];
      }
    }
  }

  /** A total regresses exactly when it lies below the high-water mark. */
  lemma RegressGrows(entries: seq<Entry>, e: Entry)
    ensures var high := HighWater(entries);
      Regressed(entries + [e]) <==> Regressed(entries) || (e.Reported? && high.Some? && e.total < high.value - EPSILON)
  {
    var longer, high := entries + [e], HighWater(entries);
    HighWaterIsHighest(entries);
    if Regressed(entries) {
      RegressionRemains(entries, [e]);
    }
    if e.Reported? && high.Some? && e.total < high.value - EPSILON {
      var i :| 0 <= i < |entries| && entries[i] == Reported(high.value);
      assert longer[i] == entries[i] && longer[|entries|] == e;
    }
    if Regressed(longer) {
      var i, j :| 0 <= i < j < |longer| && longer[i].Reported? && longer[j].Reported?
                  && longer[j].total < longer[i].total - EPSILON;
      if j < |entries| {
        assert entries[i] == longer[i] && entries[j] == longer[j];
      } else {
        assert entries[i] == longer[i];
      }
    }
  }

  lemma RegressionRemains(entries: seq<Entry>, later: seq<Entry>)
    requires Regressed(entries)
    ensures Regressed(entries + later)
  {
    var i, j :| 0 <= i < j < |entries| && entries[i].Reported? && entries[j].Reported?
                && entries[j].total < entries[i].total - EPSILON;
    var longer := entries + later;
    assert longer[i] == entries[i] && longer[j] == entries[j];
  }

  // ---------------------------------------------------------------- the loop

  /** All that the pass keeps about the entries it has seen. */
  datatype Tab = Tab(total: real, complete: bool, reported: bool, estimated: bool, high: Option<real>, regressed: bool)

  function Grown(t: Tab, e: Entry): Tab {
    match e
    case Reported(value) =>
      Tab(value, true, true, false, if t.high.None? || t.high.value < value then Some(value) else t.high,
          t.regressed || (t.high.Some? && value < t.high.value - EPSILON))
    case Estimated(turn) => t.(total := t.total + turn, estimated := true)
    case Missing => t.(complete := false)
  }

  function TabOf(entries: seq<Entry>): Tab {
    if entries == [] then Tab(0.0, true, false, false, None, false)
    else Grown(TabOf(entries[..|entries| - 1]), entries[|entries| - 1])
  }

  /** The tab means what it says, entry by entry. */
  lemma {:induction false} TabMeans(entries: seq<Entry>)
    ensures TabOf(entries) ==
      Tab(Total(entries), Gapless(entries), HasReported(entries), HasEstimates(entries), HighWater(entries), Regressed(entries))
  {
    if entries != [] {
      var init, e := entries[..|entries| - 1], entries[|entries| - 1];
      TabMeans(init);
      TotalGrows(init, e);
      FlagsGrow(init, e);
      RegressGrows(init, e);
      assert entries == init + [e];
    }
  }

  /** One pass over the cost evidence of a session. */
  method Pass(entries: seq<Entry>) returns (t: Tab)
    ensures t == TabOf(entries)
  {
    t := Tab(0.0, true, false, false, None, false);
    for i := 0 to |entries|
      invariant t == TabOf(entries[..i])
    {
      assert entries[..i + 1][..i] == entries[..i];
      match entries[i] {
        case Reported(value) =>
          if t.high.Some? && value < t.high.value - EPSILON {
            t := t.(regressed := true);
          }
          if t.high.None? || t.high.value < value {
            t := t.(high := Some(value));
          }
          t := t.(total := value, complete := true, reported := true, estimated := false);
        case Estimated(turn) =>
          t := t.(total := t.total + turn, estimated := true);
        case Missing =>
          t := t.(complete := false);
      }
    }
    assert entries[..|entries|] == entries;
  }

  /** The cost of a session, whether it counts, and from which kinds of evidence. */
  method Settle(entries: seq<Entry>) returns (total: real, counted: bool, reported: bool, estimated: bool)
    ensures total == Total(entries)
    ensures counted == Counted(entries)
    ensures reported == HasReported(entries) && estimated == HasEstimates(entries)
  {
    var t := Pass(entries);
    TabMeans(entries);
    total, reported, estimated := t.total, t.reported, t.estimated;
    counted := t.complete && (t.reported || t.estimated) && !t.regressed;
  }

  // ---------------------------------------------------------------- soundness

  function Sum(costs: seq<real>): real {
    if costs == [] then 0.0 else Sum(costs[..|costs| - 1]) + costs[|costs| - 1]
  }

  /** Every total is the true cost up to its turn, every estimate the true cost of its turn. */
  ghost predicate Truthful(entries: seq<Entry>, costs: seq<real>) {
    && |entries| == |costs|
    && (forall i :: 0 <= i < |costs| ==> costs[i] >= 0.0)
    && (forall i :: 0 <= i < |entries| && entries[i].Reported? ==> entries[i].total == Sum(costs[..i + 1]))
    && (forall i :: 0 <= i < |entries| && entries[i].Estimated? ==> entries[i].turn == costs[i])
  }

  lemma {:induction false} SumGrows(costs: seq<real>, i: nat, j: nat)
    requires i <= j <= |costs| && forall k :: 0 <= k < |costs| ==> costs[k] >= 0.0
    ensures Sum(costs[..i]) <= Sum(costs[..j])
  {
    if i < j {
      SumGrows(costs, i, j - 1);
      assert costs[..j][..j - 1] == costs[..j - 1];
    }
  }

  lemma {:induction false} EstimatesAreTrue(entries: seq<Entry>, costs: seq<real>, n: nat)
    requires Truthful(entries, costs) && n <= |entries|
    requires forall i :: n <= i < |entries| ==> entries[i].Estimated?
    ensures Estimates(entries[n..]) == Sum(costs) - Sum(costs[..n])
  {
    if n == |entries| {
      assert costs[..n] == costs;
    } else {
      var last := |entries| - 1;
      assert costs[..last][..n] == costs[..n];
      assert entries[n..][..last - n] == entries[..last][n..];
      forall i | 0 <= i < last && entries[i].Reported? ensures entries[..last][i].total == Sum(costs[..last][..i + 1]) {
        assert costs[..last][..i + 1] == costs[..i + 1];
      }
      EstimatesAreTrue(entries[..last], costs[..last], n);
    }
  }

  /** Honest evidence never regresses, and a session that counts contributes exactly what it cost. */
  lemma CountedSessionsAreExact(entries: seq<Entry>, costs: seq<real>)
    requires Truthful(entries, costs)
    ensures !Regressed(entries)
    ensures Counted(entries) ==> Total(entries) == Sum(costs)
    ensures Counted(entries) <==> entries != [] && Gapless(entries)
  {
    forall i, j | 0 <= i < j < |entries| && entries[i].Reported? && entries[j].Reported?
      ensures entries[i].total <= entries[j].total
    {
      SumGrows(costs, i + 1, j + 1);
    }
    var n := AfterLast(entries);
    if Gapless(entries) {
      forall i | n <= i < |entries| ensures entries[i].Estimated? {
        assert entries[i] == entries[n..][i - n];
      }
      EstimatesAreTrue(entries, costs, n);
    }
  }

  /** A drop below an earlier total disqualifies the session for good: no later evidence repairs it. */
  lemma RegressionIsPermanent(entries: seq<Entry>, later: seq<Entry>)
    requires Regressed(entries)
    ensures !Counted(entries + later)
  {
    RegressionRemains(entries, later);
  }

  /** A total disqualifies the session by falling more than a billionth of a dollar below an earlier one. */
  lemma SmallestDrop(before: real, between: seq<Entry>, after: real)
    requires forall i :: 0 <= i < |between| ==> !between[i].Reported?
    ensures Regressed([Reported(before)] + between + [Reported(after)]) <==> before - after > 0.000000001
  {
    var entries := [Reported(before)] + between + [Reported(after)];
    assert entries[0] == Reported(before) && entries[|entries| - 1] == Reported(after);
    assert forall i :: 0 < i < |entries| - 1 ==> entries[i] == between[i - 1];
  }
}
