/** Exactly which expert commands are cancelled along a run. */
module ExpertCancellation {
  import opened Basics
  import opened ExpertShutdown

  lemma {:induction false} GenerationCounts(tr: seq<State>, steps: seq<Step>, i: nat, j: nat)
    requires IsRun(tr, steps) && i <= j <= |steps|
    ensures tr[i].generation <= tr[j].generation
    ensures tr[i].generation == tr[j].generation <==> forall p :: i <= p < j ==> !steps[p].Publish?
  {
    if i < j {
      GenerationCounts(tr, steps, i, j - 1);
      assert tr[j] == Effect(tr[j - 1], steps[j - 1]);
    }
  }

  /** Between its launch and its registration a command is left alone. */
  lemma {:induction false} LaunchingIsLeftAlone(tr: seq<State>, steps: seq<Step>, a: nat, j: nat, c: nat)
    requires IsRun(tr, steps) && a < j <= |steps| && steps[a] == Launch(c)
    requires c in tr[j].commands && tr[j].commands[c].stage.Launching?
    ensures tr[j].commands[c] == Command(tr[a].generation, Launching, 0, false)
  {
    assert tr[j] == Effect(tr[j - 1], steps[j - 1]) && tr[a + 1] == Effect(tr[a], steps[a]);
    if a + 1 < j {
      CommandsRemain(tr, steps, a + 1, j - 1, c);
      LaunchingIsLeftAlone(tr, steps, a, j - 1, c);
    }
  }

  lemma {:induction false} CommandsRemain(tr: seq<State>, steps: seq<Step>, i: nat, j: nat, c: nat)
    requires IsRun(tr, steps) && i <= j <= |steps| && c in tr[i].commands
    ensures c in tr[j].commands
  {
    if i < j {
      CommandsRemain(tr, steps, i, j - 1, c);
      assert tr[j] == Effect(tr[j - 1], steps[j - 1]);
    }
  }

  /** While it is registered a command is cancelled by the sweeps and reports of shutdowns, and by nothing else. */
  lemma {:induction false} SweptWhileRegistered(tr: seq<State>, steps: seq<Step>, b: nat, j: nat, c: nat, pid: nat)
    requires IsRun(tr, steps) && b < j <= |steps| && steps[b] == Register(c, pid)
    requires c in tr[j].commands && tr[j].commands[c].stage.Registered?
    ensures c in tr[b + 1].commands
    ensures tr[j].commands[c].cancelled <==>
      tr[b + 1].commands[c].cancelled || exists q :: b < q < j && (steps[q].Sweep? || steps[q].GiveUp?)
  {
    assert tr[j] == Effect(tr[j - 1], steps[j - 1]) && tr[b + 1] == Effect(tr[b], steps[b]);
    if b + 1 < j {
      CommandsRemain(tr, steps, b + 1, j - 1, c);
      NeverLaunchingAgain(tr, steps, b + 1, j - 1, c);
      SweptWhileRegistered(tr, steps, b, j - 1, c, pid);
    }
  }

  lemma {:induction false} NeverLaunchingAgain(tr: seq<State>, steps: seq<Step>, i: nat, j: nat, c: nat)
    requires IsRun(tr, steps) && i <= j <= |steps| && c in tr[i].commands && !tr[i].commands[c].stage.Launching?
    ensures c in tr[j].commands && !tr[j].commands[c].stage.Launching?
  {
    if i < j {
      NeverLaunchingAgain(tr, steps, i, j - 1, c);
      assert tr[j] == Effect(tr[j - 1], steps[j - 1]);
    }
  }

  /**
   * A registered command is cancelled exactly when a shutdown began between its launch and its registration, or swept
   * while it was registered. Without a shutdown nothing is cancelled.
   */
  lemma CancelledExactly(tr: seq<State>, steps: seq<Step>, a: nat, b: nat, j: nat, c: nat, pid: nat)
    requires IsRun(tr, steps) && a < b < j <= |steps| && steps[a] == Launch(c) && steps[b] == Register(c, pid)
    requires c in tr[j].commands && tr[j].commands[c].stage.Registered?
    ensures tr[j].commands[c].cancelled <==>
      || (exists p :: a < p < b && steps[p].Publish?)
      || (exists q :: b < q < j && (steps[q].Sweep? || steps[q].GiveUp?))
  {
    assert Enabled(tr[b], steps[b]) && tr[b + 1] == Effect(tr[b], steps[b]) && tr[a + 1] == Effect(tr[a], steps[a]);
    LaunchingIsLeftAlone(tr, steps, a, b, c);
    GenerationCounts(tr, steps, a + 1, b);
    SweptWhileRegistered(tr, steps, b, j, c, pid);
  }
}
