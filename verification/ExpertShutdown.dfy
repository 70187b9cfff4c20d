/**
 * The handshake between launching expert commands and shutting them down. A command reads the shutdown generation,
 * starts its process, and registers; a shutdown raises the generation and sweeps. Each step is one section under the
 * lock that guards both.
 */
module ExpertShutdown {
  import opened Basics

  datatype Stage = Launching | Registered | Finished

  datatype Command = Command(generation: nat, stage: Stage, pid: nat, cancelled: bool)

  /** A shutdown call: the generation it published, whether it has swept, and what it returned. */
  datatype Shutdown = Shutdown(generation: nat, swept: bool, returned: Option<set<nat>>)

  datatype State = State(generation: nat, commands: map<nat, Command>, shutdowns: map<nat, Shutdown>)

  datatype Step =
    | Launch(c: nat)
    | Register(c: nat, pid: nat)
    | Unregister(c: nat)
    | Publish(d: nat)
    | Sweep(d: nat)
    | GiveUp(d: nat)

  predicate Enabled(s: State, step: Step) {
    match step
    case Launch(c) => c !in s.commands
    case Register(c, _) => c in s.commands && s.commands[c].stage.Launching?
    case Unregister(c) => c in s.commands && s.commands[c].stage.Registered?
    case Publish(d) => d !in s.shutdowns
    case Sweep(d) => d in s.shutdowns && s.shutdowns[d].returned.None?
    case GiveUp(d) => d in s.shutdowns && s.shutdowns[d].returned.None? && s.shutdowns[d].swept
  }

  predicate AnyRegistered(s: State) {
    exists c :: c in s.commands && s.commands[c].stage.Registered?
  }

  /** Request cancellation of everything that is registered. */
  function Swept(commands: map<nat, Command>): map<nat, Command> {
    map c | c in commands :: if commands[c].stage.Registered? then commands[c].(cancelled := true) else commands[c]
  }

  /** The pids reported for owners that did not finish in time. */
  function Residue(commands: map<nat, Command>): set<nat> {
    set c | c in commands && commands[c].stage.Registered? && commands[c].pid > 1 :: commands[c].pid
  }

  function Effect(s: State, step: Step): State
    requires Enabled(s, step)
  {
    match step
    case Launch(c) => s.(commands := s.commands[c := Command(s.generation, Launching, 0, false)])
    case Register(c, pid) =>
      var crossed := s.commands[c].generation != s.generation;
      s.(commands := s.commands[c := s.commands[c].(stage := Registered, pid := pid, cancelled := crossed)])
    case Unregister(c) => s.(commands := s.commands[c := s.commands[c].(stage := Finished)])
    case Publish(d) =>
      s.(generation := s.generation + 1, shutdowns := s.shutdowns[d := Shutdown(s.generation + 1, false, None)])
    case Sweep(d) =>
      var call := s.shutdowns[d].(swept := true, returned := if AnyRegistered(s) then None else Some({}));
      s.(commands := Swept(s.commands), shutdowns := s.shutdowns[d := call])
    case GiveUp(d) =>
      s.(commands := Swept(s.commands),
         shutdowns := s.shutdowns[d := s.shutdowns[d].(returned := Some(Residue(s.commands)))])
  }

  // ---------------------------------------------------------------- the registry

  /** The process-wide counter and table; every method is one section under their lock. */
  class Registry {
    var generation: nat
    var commands: map<nat, Command>

    constructor ()
      ensures generation == 0 && commands == map[]
    {
      generation, commands := 0, map[];
    }

    /** The state of the handshake, together with the shutdown calls in progress. */
    function Model(shutdowns: map<nat, Shutdown>): State
      reads this
    {
      State(generation, commands, shutdowns)
    }

    method BeginLaunch(c: nat)
      requires c !in commands
      modifies this
      ensures Model(map[]) == Effect(old(Model(map[])), Launch(c))
    {
      commands := commands[c := Command(generation, Launching, 0, false)];
    }

    method Activate(c: nat, pid: nat)
      requires c in commands && commands[c].stage.Launching?
      modifies this
      ensures Model(map[]) == Effect(old(Model(map[])), Register(c, pid))
    {
      var command := commands[c].(stage := Registered, pid := pid, cancelled := false);
      if command.generation != generation {
        command := command.(cancelled := true);
      }
      commands := commands[c := command];
    }

    method Retire(c: nat)
      requires c in commands && commands[c].stage.Registered?
      modifies this
      ensures Model(map[]) == Effect(old(Model(map[])), Unregister(c))
    {
      commands := commands[c := commands[c].(stage := Finished)];
    }

    method BeginShutdown(ghost d: nat) returns (call: Shutdown)
      modifies this
      ensures Model(map[d := call]) == Effect(old(Model(map[])), Publish(d))
    {
      generation := generation + 1;
      call := Shutdown(generation, false, None);
    }

    /** Set the cancel flag of every registered command, one after the other. */
    method CancelActive() returns (active: set<nat>)
      modifies this
      ensures generation == old(generation) && commands == Swept(old(commands))
      ensures active == set c | c in old(commands) && old(commands)[c].stage.Registered?
    {
      active := set c | c in commands && commands[c].stage.Registered?;
      ghost var before := commands;
      var todo := active;
      while todo != {}
        invariant todo <= active <= before.Keys == commands.Keys && generation == old(generation)
        invariant forall c :: c in before ==>
          commands[c] == if c in active && c !in todo then before[c].(cancelled := true) else before[c]
        decreases |todo|
      {
        var c :| c in todo;
        commands := commands[c := commands[c].(cancelled := true)];
        todo := todo - {c};
      }
    }

    /** One round of the shutdown loop. */
    method SweepRound(ghost d: nat, call: Shutdown) returns (next: Shutdown)
      requires call.returned.None?
      modifies this
      ensures Model(map[d := next]) == Effect(old(Model(map[d := call])), Sweep(d))
    {
      var active := CancelActive();
      assert active == {} <==> !AnyRegistered(old(Model(map[]))) by {
        if c :| c in old(commands) && old(commands)[c].stage.Registered? {
          assert c in active;
        }
      }
      next := call.(swept := true, returned := if active == {} then Some({}) else None);
    }

    /** The deadline has passed: cancel once more and report who is left. */
    method ReportResidue(ghost d: nat, call: Shutdown) returns (next: Shutdown)
      requires call.returned.None? && call.swept
      modifies this
      ensures Model(map[d := next]) == Effect(old(Model(map[d := call])), GiveUp(d))
    {
      var residual := CancelActive();
      next := call.(returned := Some(set c | c in residual && commands[c].pid > 1 :: commands[c].pid));
      assert next.returned.value == Residue(old(commands)) by {
        forall c | c in residual && commands[c].pid > 1 ensures commands[c].pid in Residue(old(commands)) {
          assert commands[c].pid == old(commands)[c].pid;
        }
        forall c | c in old(commands) && old(commands)[c].stage.Registered? && old(commands)[c].pid > 1
          ensures old(commands)[c].pid in next.returned.value
        {
          assert c in residual && commands[c].pid == old(commands)[c].pid;
        }
      }
    }
  }

  ghost predicate IsRun(tr: seq<State>, steps: seq<Step>) {
    && |tr| == |steps| + 1
    && (tr[0].commands == map[] && tr[0].shutdowns == map[])
    && forall i {:trigger steps[i]} :: 0 <= i < |steps| ==> Enabled(tr[i], steps[i]) && tr[i + 1] == Effect(tr[i], steps[i])
  }

  // ---------------------------------------------------------------- what every step keeps

  /** A shutdown that has swept has reached every registered command launched before it. */
  ghost predicate Reached(s: State, d: nat, c: nat) {
    && (d in s.shutdowns ==> s.shutdowns[d].generation <= s.generation && (s.shutdowns[d].returned.Some? ==> s.shutdowns[d].swept))
    && (c in s.commands ==> s.commands[c].generation <= s.generation)
    && (d in s.shutdowns && s.shutdowns[d].swept && c in s.commands && s.commands[c].stage.Registered? ==>
          s.commands[c].generation >= s.shutdowns[d].generation || s.commands[c].cancelled)
  }

  lemma {:induction false} AlwaysReached(tr: seq<State>, steps: seq<Step>, i: nat, d: nat, c: nat)
    requires IsRun(tr, steps) && i <= |steps|
    ensures Reached(tr[i], d, c)
  {
    if i > 0 {
      AlwaysReached(tr, steps, i - 1, d, c);
      assert tr[i] == Effect(tr[i - 1], steps[i - 1]);
    }
  }

  /** Launches before the publication of a shutdown carry a smaller generation, for good. */
  lemma {:induction false} LaunchedEarlier(tr: seq<State>, steps: seq<Step>, i: nat, j: nat, d: nat, c: nat)
    requires IsRun(tr, steps) && i < j <= |steps| && steps[i] == Publish(d) && c in tr[i].commands
    ensures d in tr[j].shutdowns && c in tr[j].commands
    ensures tr[j].commands[c].generation < tr[j].shutdowns[d].generation
  {
    if j == i + 1 {
      AlwaysReached(tr, steps, i, d, c);
    } else {
      LaunchedEarlier(tr, steps, i, j - 1, d, c);
      assert tr[j] == Effect(tr[j - 1], steps[j - 1]);
    }
  }

  /**
   * When a shutdown has returned, and ever after, each command that read its generation before the shutdown published
   * its own is cancelled if it is registered, and will be cancelled the moment it registers if it is not yet.
   */
  lemma NoEarlierLaunchEscapes(tr: seq<State>, steps: seq<Step>, i: nat, j: nat, d: nat, c: nat)
    requires IsRun(tr, steps) && i < j <= |steps| && steps[i] == Publish(d) && c in tr[i].commands
    requires d in tr[j].shutdowns && tr[j].shutdowns[d].returned.Some?
    ensures c in tr[j].commands
    ensures tr[j].commands[c].stage.Registered? ==> tr[j].commands[c].cancelled
    ensures tr[j].commands[c].stage.Launching? ==>
      forall pid :: Effect(tr[j], Register(c, pid)).commands[c].cancelled
  {
    LaunchedEarlier(tr, steps, i, j, d, c);
    AlwaysReached(tr, steps, j, d, c);
  }

  // ---------------------------------------------------------------- what is returned

  /**
   * A shutdown returns the real pids registered at that moment, so it returns nothing exactly when no command with a
   * real pid is registered; on its early return nothing at all is.
   */
  lemma EmptyReturnMeansNoneRegistered(s: State, step: Step)
    requires Enabled(s, step) && (step.Sweep? || step.GiveUp?)
    requires Effect(s, step).shutdowns[step.d].returned.Some?
    ensures forall pid :: pid in Effect(s, step).shutdowns[step.d].returned.value <==>
      pid > 1 && exists c :: c in s.commands && s.commands[c].stage.Registered? && s.commands[c].pid == pid
    ensures Effect(s, step).shutdowns[step.d].returned == Some({}) <==>
      forall c :: c in s.commands && s.commands[c].stage.Registered? ==> s.commands[c].pid <= 1
    ensures step.Sweep? ==> !AnyRegistered(s)
  {
    var returned := Effect(s, step).shutdowns[step.d].returned.value;
    assert forall c :: c in s.commands && s.commands[c].stage.Registered? && s.commands[c].pid > 1 ==>
      s.commands[c].pid in Residue(s.commands);
    if pid :| pid in returned {
    } else {
      assert returned == {};
    }
  }
}
