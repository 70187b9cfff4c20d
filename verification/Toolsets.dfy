/** Toolset resolution over a user-extensible include graph, which may be cyclic and may name what is not there. */
module Toolsets {
  import opened Basics

  datatype Toolset = Toolset(tools: seq<string>, includes: seq<string>)

  type Registry = map<string, Toolset>

  /** The two names that stand for every registered toolset. */
  predicate IsAll(name: string) {
    name == "all" || name == "*"
  }

  predicate NamesAll(reg: Registry) {
    "all" in reg || "*" in reg
  }

  // ---------------------------------------------------------------- reachability

  function Successors(reg: Registry, name: string): set<string> {
    if IsAll(name) then reg.Keys
    else if name in reg then set n | n in reg[name].includes
    else {}
  }

  function ToolsOf(reg: Registry, name: string): set<string> {
    if IsAll(name) || name !in reg then {} else set t | t in reg[name].tools
  }

  ghost predicate IsPath(reg: Registry, p: seq<string>, avoiding: set<string>) {
    && p != []
    && (forall i :: 0 <= i < |p| - 1 ==> p[i + 1] in Successors(reg, p[i]))
    && (forall i :: 0 <= i < |p| ==> IsAll(p[i]) || p[i] !in avoiding)
  }

  /** What a walk may meet: a toolset with a given tool, or a wildcard. */
  datatype Goal = HasTool(tool: string) | Wildcard

  predicate Hits(reg: Registry, name: string, goal: Goal) {
    match goal
    case HasTool(tool) => tool in ToolsOf(reg, name)
    case Wildcard => IsAll(name)
  }

  /** Some name that can be reached from `name` without passing through `avoiding` hits the goal. */
  ghost predicate Leads(reg: Registry, name: string, avoiding: set<string>, goal: Goal) {
    exists p :: IsPath(reg, p, avoiding) && p[0] == name && Hits(reg, p[|p| - 1], goal)
  }

  /** Some toolset that can be reached from `name` has the tool. */
  ghost predicate Provides(reg: Registry, name: string, tool: string) {
    Leads(reg, name, {}, HasTool(tool))
  }

  /** A wildcard can be reached and stands for a toolset that is itself named after a wildcard. */
  ghost predicate Unbounded(reg: Registry, name: string) {
    NamesAll(reg) && Leads(reg, name, {}, Wildcard)
  }

  lemma Prepend(reg: Registry, name: string, next: string, avoiding: set<string>, beyond: set<string>, goal: Goal)
    requires next in Successors(reg, name) && Leads(reg, next, beyond, goal)
    requires avoiding <= beyond && (IsAll(name) || name !in avoiding)
    ensures Leads(reg, name, avoiding, goal)
  {
    var p :| IsPath(reg, p, beyond) && p[0] == next && Hits(reg, p[|p| - 1], goal);
    assert IsPath(reg, [name] + p, avoiding);
  }

  lemma LeadsHere(reg: Registry, name: string, avoiding: set<string>, goal: Goal)
    requires Hits(reg, name, goal) && (IsAll(name) || name !in avoiding)
    ensures Leads(reg, name, avoiding, goal)
  {
    assert IsPath(reg, [name], avoiding);
  }

  /** A path can be cut at its last visit to where it starts, so the rest avoids the start. */
  lemma {:induction false} CutAtLastVisit(reg: Registry, p: seq<string>, name: string, avoiding: set<string>, goal: Goal)
    requires IsPath(reg, p, avoiding) && p[0] == name && !IsAll(name) && Hits(reg, p[|p| - 1], goal)
    ensures Hits(reg, name, goal) || exists next :: next in Successors(reg, name) && Leads(reg, next, avoiding + {name}, goal)
    decreases |p|
  {
    if |p| > 1 {
      if i :| 1 <= i < |p| && p[i] == name {
        CutAtLastVisit(reg, p[i..], name, avoiding, goal);
      } else {
        assert IsPath(reg, p[1..], avoiding + {name});
        assert Leads(reg, p[1], avoiding + {name}, goal);
      }
    }
  }

  lemma LeadsFromAll(reg: Registry, name: string, avoiding: set<string>, goal: Goal)
    requires IsAll(name)
    ensures Leads(reg, name, avoiding, goal) <==> goal.Wildcard? || exists n :: n in reg && Leads(reg, n, avoiding, goal)
  {
    if goal.Wildcard? {
      LeadsHere(reg, name, avoiding, goal);
    } else if Leads(reg, name, avoiding, goal) {
      var p :| IsPath(reg, p, avoiding) && p[0] == name && Hits(reg, p[|p| - 1], goal);
      assert IsPath(reg, p[1..], avoiding) && p[1] in reg;
      assert Leads(reg, p[1], avoiding, goal);
    }
    if n :| n in reg && Leads(reg, n, avoiding, goal) {
      Prepend(reg, name, n, avoiding, avoiding, goal);
    }
  }

  lemma LeadsFromNamed(reg: Registry, name: string, avoiding: set<string>, goal: Goal)
    requires !IsAll(name) && name in reg && name !in avoiding
    ensures Leads(reg, name, avoiding, goal) <==>
      Hits(reg, name, goal) || exists n :: n in reg[name].includes && Leads(reg, n, avoiding + {name}, goal)
  {
    if Leads(reg, name, avoiding, goal) {
      var p :| IsPath(reg, p, avoiding) && p[0] == name && Hits(reg, p[|p| - 1], goal);
      CutAtLastVisit(reg, p, name, avoiding, goal);
    }
    if Hits(reg, name, goal) {
      LeadsHere(reg, name, avoiding, goal);
    }
    if n :| n in reg[name].includes && Leads(reg, n, avoiding + {name}, goal) {
      Prepend(reg, name, n, avoiding, avoiding + {name}, goal);
    }
  }

  lemma LeadsNowhere(reg: Registry, name: string, avoiding: set<string>, goal: Goal)
    requires !IsAll(name) && (name !in reg || name in avoiding)
    ensures !Leads(reg, name, avoiding, goal)
  {
    if name !in avoiding {
      forall p | IsPath(reg, p, avoiding) && p[0] == name ensures |p| == 1 {
        assert |p| > 1 ==> p[0 + 1] in Successors(reg, p[0]);
      }
    }
  }

  /** One toolset includes the other; `all` and `*` include every registered one. */
  predicate Includes(reg: Registry, name: string, next: string) {
    if name == "all" || name == "*" then next in reg else name in reg && next in reg[name].includes
  }

  /** Reachability in words: a chain of inclusions to a registered toolset, not a wildcard, that lists the tool. */
  lemma ProvidesMeans(reg: Registry, name: string, tool: string)
    ensures Provides(reg, name, tool) <==> exists p: seq<string> ::
      && IsChain(reg, p) && p[0] == name
      && p[|p| - 1] in reg && p[|p| - 1] != "all" && p[|p| - 1] != "*" && tool in reg[p[|p| - 1]].tools
  {
    forall p: seq<string> ensures IsChain(reg, p) <==> IsPath(reg, p, {}) {
      assert forall a, b :: b in Successors(reg, a) <==> Includes(reg, a, b);
    }
  }

  ghost predicate IsChain(reg: Registry, p: seq<string>) {
    p != [] && forall i :: 0 <= i < |p| - 1 ==> Includes(reg, p[i], p[i + 1])
  }

  // ---------------------------------------------------------------- the walk

  /** Enough interpreter stack for any walk that has not yet visited the given names. */
  function StackNeeded(reg: Registry, name: string, visited: set<string>): nat {
    2 * |reg.Keys - visited| + if IsAll(name) then 2 else 1
  }

  /** No walk from these names comes to a wildcard that stands for a toolset of the same name. */
  ghost predicate Bounded(reg: Registry, names: set<string>, visited: set<string>) {
    NamesAll(reg) ==> forall n :: n in names ==> !Leads(reg, n, visited, Wildcard)
  }

  lemma BoundedAll(reg: Registry, name: string, visited: set<string>)
    requires IsAll(name)
    ensures Bounded(reg, {name}, visited) <==> !NamesAll(reg)
    ensures Bounded(reg, reg.Keys, visited) <==> !NamesAll(reg)
  {
    LeadsHere(reg, name, visited, Wildcard);
    LeadsHere(reg, "all", visited, Wildcard);
    LeadsHere(reg, "*", visited, Wildcard);
  }

  /**
   * The recursive walk, with a copy of the visited set for every branch. `stack` is how deep the interpreter lets
   * it recurse; `None` is its recursion error.
   */
  method Resolve(reg: Registry, name: string, visited: set<string>, stack: nat) returns (r: Option<set<string>>)
    ensures r.Some? ==> forall tool :: tool in r.value <==> Leads(reg, name, visited, HasTool(tool))
    ensures Bounded(reg, {name}, visited) && stack >= StackNeeded(reg, name, visited) ==> r.Some?
    ensures !Bounded(reg, {name}, visited) ==> r.None?
    decreases stack, 0
  {
    if stack == 0 {
      return None;
    }
    if IsAll(name) {
      BoundedAll(reg, name, visited);
      r := ResolveEach(reg, reg.Keys, visited, stack - 1);
      forall tool | r.Some? ensures tool in r.value <==> Leads(reg, name, visited, HasTool(tool)) {
        LeadsFromAll(reg, name, visited, HasTool(tool));
      }
      return;
    }
    if name in visited || name !in reg {
      forall goal ensures !Leads(reg, name, visited, goal) {
        LeadsNowhere(reg, name, visited, goal);
      }
      return Some({});
    }
    var inner := visited + {name};
    assert reg.Keys - inner == reg.Keys - visited - {name};
    LeadsFromNamed(reg, name, visited, Wildcard);
    var included := ResolveEach(reg, Successors(reg, name), inner, stack - 1);
    if included.None? {
      return None;
    }
    r := Some((set t | t in reg[name].tools) + included.value);
    forall tool ensures tool in r.value <==> Leads(reg, name, visited, HasTool(tool)) {
      LeadsFromNamed(reg, name, visited, HasTool(tool));
    }
  }

  /** Resolve a collection of names, each with its own copy of the visited set, and join what they give. */
  method ResolveEach(reg: Registry, names: set<string>, visited: set<string>, stack: nat) returns (r: Option<set<string>>)
    ensures r.Some? ==> forall tool :: tool in r.value <==> exists n :: n in names && Leads(reg, n, visited, HasTool(tool))
    ensures Bounded(reg, names, visited) && stack >= 2 * |reg.Keys - visited| + 2 ==> r.Some?
    ensures Bounded(reg, names, visited) && (forall n :: n in names ==> !IsAll(n)) && stack >= 2 * |reg.Keys - visited| + 1 ==> r.Some?
    ensures !Bounded(reg, names, visited) ==> r.None?
    decreases stack, 1
  {
    var tools: set<string> := {};
    var todo := names;
    while todo != {}
      invariant todo <= names
      invariant forall tool :: tool in tools <==> exists n :: n in names && n !in todo && Leads(reg, n, visited, HasTool(tool))
      invariant Bounded(reg, names - todo, visited)
      decreases |todo|
    {
      var n :| n in todo;
      var part := Resolve(reg, n, visited, stack);
      if part.None? {
        return None;
      }
      tools := tools + part.value;
      todo := todo - {n};
    }
    r := Some(tools);
  }

  /**
   * A resolution from scratch: with enough stack it comes to an end exactly when no wildcard it can reach stands for
   * a toolset named after a wildcard, and it gives exactly the tools of the toolsets reachable from the name.
   */
  method ResolveToolset(reg: Registry, name: string, stack: nat) returns (r: Option<set<string>>)
    ensures r.Some? ==> forall tool :: tool in r.value <==> Provides(reg, name, tool)
    ensures stack >= 2 * |reg| + 2 ==> (r.Some? <==> !Unbounded(reg, name))
    ensures Unbounded(reg, name) ==> r.None?
  {
    assert reg.Keys - {} == reg.Keys;
    r := Resolve(reg, name, {}, stack);
  }

  /** One toolset named after a wildcard makes every resolution that meets a wildcard run without end. */
  lemma WildcardToolsetIsUnbounded(reg: Registry, toolset: Toolset, from: string)
    requires from in reg && !IsAll(from) && "*" in reg[from].includes
    ensures Unbounded(reg["all" := toolset], from) && Unbounded(reg["all" := toolset], "*")
  {
    var reg' := reg["all" := toolset];
    LeadsHere(reg', "*", {}, Wildcard);
    Prepend(reg', from, "*", {}, {}, Wildcard);
  }

  /** The registry is global and grows: a toolset is added or replaced by name. */
  class ToolsetRegistry {
    var toolsets: Registry

    constructor (toolsets: Registry)
      ensures this.toolsets == toolsets
    {
      this.toolsets := toolsets;
    }

    method CreateCustomToolset(name: string, tools: seq<string>, includes: seq<string>)
      modifies this
      ensures toolsets == old(toolsets)[name := Toolset(tools, includes)]
    {
      toolsets := toolsets[name := Toolset(tools, includes)];
    }

    /** A name is valid when it is registered or is a wildcard; other names resolve to nothing. */
    method ResolveIn(name: string, stack: nat) returns (r: Option<set<string>>)
      ensures r.Some? ==> forall tool :: tool in r.value <==> Provides(toolsets, name, tool)
      ensures stack >= 2 * |toolsets| + 2 ==> (r.Some? <==> !Unbounded(toolsets, name))
    {
      r := ResolveToolset(toolsets, name, stack);
    }
  }

  ghost predicate Reaches(reg: Registry, from: string, to: string) {
    exists p :: IsPath(reg, p, {}) && p[0] == from && p[|p| - 1] == to
  }

  /** Up to its first visit to `name`, a path of one registry is a path of the other. */
  lemma {:induction false} PathTransfers(reg: Registry, reg': Registry, p: seq<string>, name: string)
    requires forall n :: n != name ==> (n in reg <==> n in reg') && (n in reg ==> reg[n] == reg'[n])
    requires IsPath(reg, p, {}) && name !in p
    ensures IsPath(reg', p, {}) && ToolsOf(reg', p[|p| - 1]) == ToolsOf(reg, p[|p| - 1])
  {
    forall i | 0 <= i < |p| - 1 ensures p[i + 1] in Successors(reg', p[i]) {
      assert p[i + 1] in Successors(reg, p[i]) && p[i] in p && p[i + 1] in p;
    }
    assert p[|p| - 1] in p;
  }

  /** Paths from a name that does not lead to the new toolset are paths of both registries. */
  lemma SameLeads(reg: Registry, name: string, toolset: Toolset, from: string, goal: Goal)
    requires !Reaches(reg[name := toolset], from, name)
    ensures Leads(reg[name := toolset], from, {}, goal) <==> Leads(reg, from, {}, goal)
  {
    var reg' := reg[name := toolset];
    if Leads(reg', from, {}, goal) {
      var p :| IsPath(reg', p, {}) && p[0] == from && Hits(reg', p[|p| - 1], goal);
      NotPassing(reg', p, name);
      PathTransfers(reg', reg, p, name);
    }
    if Leads(reg, from, {}, goal) {
      var p :| IsPath(reg, p, {}) && p[0] == from && Hits(reg, p[|p| - 1], goal);
      if name in p {
        OldPathLeads(reg, name, toolset, p);
      }
      PathTransfers(reg, reg', p, name);
    }
  }

  /** Creating or replacing a toolset changes neither the tools nor the end of a walk that does not lead to it. */
  lemma CreationIsLocal(reg: Registry, name: string, toolset: Toolset, from: string)
    requires !Reaches(reg[name := toolset], from, name)
    ensures forall tool :: Provides(reg[name := toolset], from, tool) <==> Provides(reg, from, tool)
    ensures Unbounded(reg[name := toolset], from) <==> Unbounded(reg, from)
  {
    var reg' := reg[name := toolset];
    forall tool ensures Provides(reg', from, tool) <==> Provides(reg, from, tool) {
      SameLeads(reg, name, toolset, from, HasTool(tool));
    }
    SameLeads(reg, name, toolset, from, Wildcard);
    if Leads(reg', from, {}, Wildcard) {
      var p :| IsPath(reg', p, {}) && p[0] == from && IsAll(p[|p| - 1]);
      assert IsPath(reg', p + [name], {});
      assert Reaches(reg', from, name);
      assert false;
    }
  }

  lemma NotPassing(reg: Registry, p: seq<string>, name: string)
    requires IsPath(reg, p, {}) && !Reaches(reg, p[0], name)
    ensures name !in p
  {
    forall i | 0 <= i < |p| ensures p[i] != name {
      assert IsPath(reg, p[..i + 1], {});
      assert Reaches(reg, p[0], p[i]);
    }
  }

  /** A path of the old registry that meets the new name leads to it in the new one as well. */
  lemma {:induction false} OldPathLeads(reg: Registry, name: string, toolset: Toolset, p: seq<string>)
    requires IsPath(reg, p, {}) && name in p
    ensures Reaches(reg[name := toolset], p[0], name)
  {
    var reg' := reg[name := toolset];
    if |p| == 1 {
      assert IsPath(reg', p, {});
    } else {
      var init, last := p[..|p| - 1], p[|p| - 1];
      assert p == init + [last];
      assert IsPath(reg, init, {});
      if name in init {
        OldPathLeads(reg, name, toolset, init);
      } else {
        PathTransfers(reg, reg', init, name);
        assert p[|p| - 2 + 1] in Successors(reg, p[|p| - 2]) && p[|p| - 2] in init;
        assert IsPath(reg', p, {});
      }
    }
  }
}
