/** Configuration documents: merging over defaults, and reading back what was set. */
module Config {
  import opened Basics

  /** A leaf of a document; lists are leaves. */
  datatype Leaf = Null | Flag(b: bool) | Number(x: real) | Text(s: string) | Items(items: seq<Leaf>)

  datatype Value = Scalar(leaf: Leaf) | Mapping(entries: map<string, Value>)

  type Document = v: Value | v.Mapping? witness Mapping(map[])

  // ---------------------------------------------------------------- merge

  /** The override wins, except that two mappings under the same key are merged in turn. */
  function DeepMerge(base: Document, over: Document): Document
    decreases over
  {
    Mapping(map k | k in base.entries.Keys + over.entries.Keys ::
      if k !in over.entries then base.entries[k]
      else if k in base.entries && base.entries[k].Mapping? && over.entries[k].Mapping? then
        DeepMerge(base.entries[k], over.entries[k])
      else over.entries[k])
  }

  lemma {:induction false} MergeSelf(d: Document)
    ensures DeepMerge(d, d) == d
    decreases d
  {
    forall k | k in d.entries && d.entries[k].Mapping? ensures DeepMerge(d.entries[k], d.entries[k]) == d.entries[k] {
      MergeSelf(d.entries[k]);
    }
    assert DeepMerge(d, d).entries == d.entries;
  }

  /** Merging the same override twice changes nothing. */
  lemma {:induction false} MergeIsIdempotent(base: Document, over: Document)
    ensures DeepMerge(DeepMerge(base, over), over) == DeepMerge(base, over)
    decreases over
  {
    var once := DeepMerge(base, over);
    forall k | k in over.entries && over.entries[k].Mapping?
      ensures DeepMerge(once.entries[k], over.entries[k]) == once.entries[k]
    {
      if k in base.entries && base.entries[k].Mapping? {
        MergeIsIdempotent(base.entries[k], over.entries[k]);
      } else {
        MergeSelf(over.entries[k]);
      }
    }
    assert DeepMerge(once, over).entries == once.entries;
  }

  /** Merging over a base what was already merged over it changes nothing. */
  lemma {:induction false} MergeAbsorbs(base: Document, over: Document)
    ensures DeepMerge(base, DeepMerge(base, over)) == DeepMerge(base, over)
    decreases over
  {
    var once := DeepMerge(base, over);
    forall k | k in base.entries && base.entries[k].Mapping? && once.entries[k].Mapping?
      ensures DeepMerge(base.entries[k], once.entries[k]) == once.entries[k]
    {
      if k in over.entries {
        MergeAbsorbs(base.entries[k], over.entries[k]);
      } else {
        MergeSelf(base.entries[k]);
      }
    }
    assert DeepMerge(base, once).entries == once.entries;
  }

  // ---------------------------------------------------------------- paths

  type Path = p: seq<string> | p != [] witness ["model"]

  /** Set a leaf or subtree, creating mappings on the way and replacing scalars that stand in it. */
  function Put(d: Document, path: Path, v: Value): Document
    decreases |path|
  {
    var k := path[0];
    if |path| == 1 then Mapping(d.entries[k := v])
    else
      var child := if k in d.entries && d.entries[k].Mapping? then d.entries[k] else Mapping(map[]);
      Mapping(d.entries[k := Put(child, path[1..], v)])
  }

  function Get(d: Document, path: Path): Option<Value>
    decreases |path|
  {
    var k := path[0];
    if k !in d.entries then None
    else if |path| == 1 then Some(d.entries[k])
    else if d.entries[k].Mapping? then Get(d.entries[k], path[1..])
    else None
  }

  /** Neither path continues the other. */
  predicate Diverge(p: Path, q: Path)
    decreases |p|
  {
    p[0] != q[0] || (|p| > 1 && |q| > 1 && Diverge(p[1..], q[1..]))
  }

  lemma {:induction false} GetPut(d: Document, path: Path, v: Value)
    ensures Get(Put(d, path, v), path) == Some(v)
    decreases |path|
  {
    if |path| > 1 {
      var k := path[0];
      GetPut(if k in d.entries && d.entries[k].Mapping? then d.entries[k] else Mapping(map[]), path[1..], v);
    }
  }

  /** Setting one path leaves what every diverging path reads alone. */
  lemma {:induction false} PutKeepsOthers(d: Document, path: Path, v: Value, other: Path)
    requires Diverge(path, other)
    ensures Get(Put(d, path, v), other) == Get(d, other)
    decreases |path|
  {
    var k := path[0];
    if other[0] == k {
      PutKeepsOthers(if k in d.entries && d.entries[k].Mapping? then d.entries[k] else Mapping(map[]), path[1..], v, other[1..]);
    }
  }

  /** A scalar of the override survives any defaults. */
  lemma {:induction false} MergeKeepsScalars(base: Document, over: Document, path: Path)
    requires Get(over, path).Some? && Get(over, path).value.Scalar?
    ensures Get(DeepMerge(base, over), path) == Get(over, path)
    decreases |path|
  {
    var k := path[0];
    if |path| > 1 && k in base.entries && base.entries[k].Mapping? {
      MergeKeepsScalars(base.entries[k], over.entries[k], path[1..]);
    }
  }

  /** A scalar of the document stands on the way to the path. */
  predicate Cut(d: Document, path: Path)
    decreases |path|
  {
    var k := path[0];
    |path| > 1 && k in d.entries && (d.entries[k].Scalar? || Cut(d.entries[k], path[1..]))
  }

  /** That is: some proper beginning of the path leads to a scalar. */
  lemma {:induction false} CutMeans(d: Document, path: Path)
    ensures Cut(d, path) <==> exists i :: 1 <= i < |path| && Get(d, path[..i]).Some? && Get(d, path[..i]).value.Scalar?
    decreases |path|
  {
    var k := path[0];
    if |path| > 1 && k in d.entries {
      assert path[..1] == [k];
      if d.entries[k].Mapping? {
        CutMeans(d.entries[k], path[1..]);
        forall i | 2 <= i < |path| ensures Get(d, path[..i]) == Get(d.entries[k], path[1..][..i - 1]) {
          assert path[..i][1..] == path[1..][..i - 1];
        }
        if Cut(d.entries[k], path[1..]) {
          var i :| 1 <= i < |path[1..]| && Get(d.entries[k], path[1..][..i]).Some? && Get(d.entries[k], path[1..][..i]).value.Scalar?;
          assert Get(d, path[..i + 1]) == Get(d.entries[k], path[1..][..i + 1 - 1]);
        }
      } else {
        assert Get(d, path[..1]) == Some(d.entries[k]);
      }
    } else if |path| > 1 {
      assert forall i :: 1 <= i < |path| ==> path[..i][0] == k;
    }
  }

  /**
   * Merging, path by path: the override decides where it has a value or cuts the path off; elsewhere the base is read.
   * Two mappings are merged, any other pair is not.
   */
  lemma {:induction false} MergeByPaths(base: Document, over: Document, path: Path)
    ensures var merged, b, o := Get(DeepMerge(base, over), path), Get(base, path), Get(over, path);
      && (o.None? && !Cut(over, path) ==> merged == b)
      && (o.None? && Cut(over, path) ==> merged.None?)
      && (o.Some? && o.value.Scalar? ==> merged == o)
      && (o.Some? && o.value.Mapping? && b.Some? && b.value.Mapping? ==> merged == Some(DeepMerge(b.value, o.value)))
      && (o.Some? && o.value.Mapping? && !(b.Some? && b.value.Mapping?) ==> merged == o)
    decreases |path|
  {
    var k := path[0];
    if |path| > 1 && k in over.entries && over.entries[k].Mapping? && k in base.entries && base.entries[k].Mapping? {
      MergeByPaths(base.entries[k], over.entries[k], path[1..]);
    }
  }

  // ---------------------------------------------------------------- migration

  const SCHEMA := "schema_version"
  const CURRENT: Value := Scalar(Number(2.0))
  const LEGACY: Value := Scalar(Number(1.0))

  /** White space, as `str.strip` knows it. */
  predicate Blank(c: char) {
    var n := c as int;
    || 9 <= n <= 13 || 28 <= n <= 32 || n == 133 || n == 160 || n == 5760 || 8192 <= n <= 8202
    || n == 8232 || n == 8233 || n == 8239 || n == 8287 || n == 12288
  }

  function Strip(s: string): string {
    if s != [] && Blank(s[0]) then Strip(s[1..])
    else if s != [] && Blank(s[|s| - 1]) then Strip(s[..|s| - 1])
    else s
  }

  function Lower(s: string): string {
    seq(|s|, i requires 0 <= i < |s| => if 'A' <= s[i] <= 'Z' then ((s[i] as int) + 32) as char else s[i])
  }

  const BACKENDS: set<string> := {"", "codex", "claude", "lemex"}

  /** The value, read as the name of a backend, is empty or one of the native ones. */
  predicate Native(v: Value) {
    match v
    case Mapping(entries) => entries == map[]
    case Scalar(Text(name)) => Lower(Strip(name)) in BACKENDS
    case Scalar(leaf) => leaf == Null || leaf == Flag(false) || leaf == Number(0.0) || leaf == Items([])
  }

  predicate HasAny(v: Value, keys: set<string>) {
    v.Mapping? && exists k :: k in keys && k in v.entries
  }

  const RETIRED: set<string> := {"custom_providers", "local_models", "compression"}
  const RETIRED_MODEL: set<string> := {"base_url", "api_key", "context_lengths", "prover_light"}
  const RETIRED_AGENT: set<string> := {"max_turns", "temperature", "seed", "top_p", "top_k", "min_p"}
  const RETIRED_ROLE: set<string> :=
    {"base_url", "api_key", "command_template", "codex_command_template", "claude_code_command_template"}

  predicate RetiredModel(v: Value) {
    match v
    case Mapping(entries) => ("provider" in entries && !Native(entries["provider"])) || HasAny(v, RETIRED_MODEL)
    case Scalar(leaf) => leaf.Text? && Strip(leaf.s) != ""
  }

  predicate RetiredRoles(v: Value) {
    v.Mapping? && exists role :: role in v.entries && HasAny(v.entries[role], RETIRED_ROLE)
  }

  /** The document has settings of an older release. */
  predicate Retired(d: Document) {
    || HasAny(d, RETIRED)
    || ("model" in d.entries && RetiredModel(d.entries["model"]))
    || ("agent" in d.entries && HasAny(d.entries["agent"], RETIRED_AGENT))
    || ("auxiliary" in d.entries && RetiredRoles(d.entries["auxiliary"]))
  }

  /** A document of another schema or with retired settings is marked, not rewritten. */
  predicate NeedsMigration(d: Document) {
    (SCHEMA in d.entries && d.entries[SCHEMA] != CURRENT) || Retired(d)
  }

  predicate AllBlank(s: string) {
    forall i :: 0 <= i < |s| ==> Blank(s[i])
  }

  lemma BlankInFront(s: string, front: string, core: string, back: string)
    requires s != "" && s[1..] == front + core + back && Blank(s[0]) && AllBlank(front)
    ensures s == ([s[0]] + front) + core + back && AllBlank([s[0]] + front)
  {
  }

  lemma BlankBehind(s: string, front: string, core: string, back: string)
    requires s != "" && s[..|s| - 1] == front + core + back && Blank(s[|s| - 1]) && AllBlank(back)
    ensures s == front + core + (back + [s[|s| - 1]]) && AllBlank(back + [s[|s| - 1]])
  {
  }

  /** Stripping takes away the blanks at both ends and nothing else. */
  lemma {:induction false} StripMeans(s: string) returns (front: string, back: string)
    ensures s == front + Strip(s) + back && AllBlank(front) && AllBlank(back)
    ensures Strip(s) != "" ==> !Blank(Strip(s)[0]) && !Blank(Strip(s)[|Strip(s)| - 1])
    decreases |s|
  {
    if s != "" && Blank(s[0]) {
      front, back := StripMeans(s[1..]);
      BlankInFront(s, front, Strip(s), back);
      front := [s[0]] + front;
    } else if s != "" && Blank(s[|s| - 1]) {
      front, back := StripMeans(s[..|s| - 1]);
      BlankBehind(s, front, Strip(s), back);
      back := back + [s[|s| - 1]];
    } else {
      front, back := "", "";
    }
  }

  /** A key of the set stands below the path. */
  ghost predicate Below(d: Document, path: seq<string>, keys: set<string>) {
    exists k :: k in keys && Get(d, path + [k]).Some?
  }

  lemma GetTwo(d: Document, k: string, j: string)
    ensures Get(d, [k] + [j]) ==
      if k in d.entries && d.entries[k].Mapping? && j in d.entries[k].entries then Some(d.entries[k].entries[j]) else None
  {
    assert ([k] + [j])[1..] == [j];
  }

  lemma GetThree(d: Document, k: string, i: string, j: string)
    ensures Get(d, [k, i] + [j]) == if k in d.entries && d.entries[k].Mapping? then Get(d.entries[k], [i] + [j]) else None
  {
    assert ([k, i] + [j])[1..] == [i] + [j];
  }

  /** The retired settings, as paths of a document. */
  lemma RetiredMeans(d: Document)
    ensures Retired(d) <==>
      || Below(d, [], {"custom_providers", "local_models", "compression"})
      || (exists s :: Get(d, ["model"]) == Some(Scalar(Text(s))) && Strip(s) != "")
      || (exists v :: Get(d, ["model"] + ["provider"]) == Some(v) && !Native(v))
      || Below(d, ["model"], {"base_url", "api_key", "context_lengths", "prover_light"})
      || Below(d, ["agent"], {"max_turns", "temperature", "seed", "top_p", "top_k", "min_p"})
      || (exists role: string :: Below(d, ["auxiliary", role],
            {"base_url", "api_key", "command_template", "codex_command_template", "claude_code_command_template"}))
  {
    forall k ensures [] + [k] == [k] && (Get(d, [] + [k]).Some? <==> k in d.entries) {
    }
    GetTwo(d, "model", "provider");
    RolesMean(d);
    assert Below(d, [], RETIRED) <==> HasAny(d, RETIRED);
    SectionMeans(d, "model", RETIRED_MODEL);
    SectionMeans(d, "agent", RETIRED_AGENT);
  }

  lemma SectionMeans(d: Document, section: string, keys: set<string>)
    ensures Below(d, [section], keys) <==> section in d.entries && HasAny(d.entries[section], keys)
  {
    forall j ensures Get(d, [section] + [j]).Some? <==>
      section in d.entries && d.entries[section].Mapping? && j in d.entries[section].entries
    {
      GetTwo(d, section, j);
    }
  }

  lemma RolesMean(d: Document)
    ensures (exists role: string :: Below(d, ["auxiliary", role], RETIRED_ROLE)) <==>
      "auxiliary" in d.entries && RetiredRoles(d.entries["auxiliary"])
  {
    forall role: string
      ensures Below(d, ["auxiliary", role], RETIRED_ROLE) <==>
        && "auxiliary" in d.entries && d.entries["auxiliary"].Mapping?
        && role in d.entries["auxiliary"].entries && HasAny(d.entries["auxiliary"].entries[role], RETIRED_ROLE)
    {
      forall j ensures Get(d, ["auxiliary", role] + [j]) ==
        if "auxiliary" in d.entries && d.entries["auxiliary"].Mapping? then Get(d.entries["auxiliary"], [role] + [j]) else None
      {
        GetThree(d, "auxiliary", role, j);
      }
      if "auxiliary" in d.entries && d.entries["auxiliary"].Mapping? {
        SectionMeans(d.entries["auxiliary"], role, RETIRED_ROLE);
      }
    }
  }

  lemma Unstripped(name: string)
    requires name != "" && !Blank(name[0]) && !Blank(name[|name| - 1])
    ensures Strip(name) == name && Strip([' '] + name) == name
  {
    assert ([' '] + name)[1..] == name;
  }

  /** A backend is recognised whatever its case and the blanks around it; any other name is foreign. */
  lemma BackendNames()
    ensures Native(Scalar(Text([' '] + "Codex"))) && Native(Scalar(Null)) && !Native(Scalar(Number(1.0)))
    ensures !Native(Scalar(Text("openai")))
  {
    Unstripped("Codex");
    assert Lower("Codex") == "codex";
    Unstripped("openai");
    assert Lower("openai")[1] == 'p';
  }

  lemma MergedKeys(base: Document, over: Document, keys: set<string>)
    ensures HasAny(DeepMerge(base, over), keys) <==> HasAny(base, keys) || HasAny(over, keys)
  {
    assert DeepMerge(base, over).entries.Keys == base.entries.Keys + over.entries.Keys;
  }

  lemma MergedModel(base: Document, over: Document)
    requires RetiredModel(DeepMerge(base, over))
    ensures RetiredModel(base) || RetiredModel(over)
  {
    MergedKeys(base, over, RETIRED_MODEL);
  }

  lemma MergedRoles(base: Document, over: Document)
    requires RetiredRoles(DeepMerge(base, over))
    ensures RetiredRoles(base) || RetiredRoles(over)
  {
    var merged := DeepMerge(base, over);
    var role :| role in merged.entries && HasAny(merged.entries[role], RETIRED_ROLE);
    if role in base.entries && role in over.entries && base.entries[role].Mapping? && over.entries[role].Mapping? {
      MergedKeys(base.entries[role], over.entries[role], RETIRED_ROLE);
    }
  }

  /** Merging brings in no retired setting that neither document has. */
  lemma MergeRetiresNothing(base: Document, over: Document)
    requires Retired(DeepMerge(base, over))
    ensures Retired(base) || Retired(over)
  {
    MergedKeys(base, over, RETIRED);
    if Both(base, over, "model") {
      if RetiredModel(DeepMerge(base.entries["model"], over.entries["model"])) {
        MergedModel(base.entries["model"], over.entries["model"]);
      }
    }
    if Both(base, over, "agent") {
      MergedKeys(base.entries["agent"], over.entries["agent"], RETIRED_AGENT);
    }
    if Both(base, over, "auxiliary") {
      if RetiredRoles(DeepMerge(base.entries["auxiliary"], over.entries["auxiliary"])) {
        MergedRoles(base.entries["auxiliary"], over.entries["auxiliary"]);
      }
    }
  }

  /** The key holds a mapping in both documents, so that merging goes on below it. */
  predicate Both(base: Document, over: Document, k: string) {
    k in base.entries && k in over.entries && base.entries[k].Mapping? && over.entries[k].Mapping?
  }

  // ---------------------------------------------------------------- the store

  function WithDefaults(defaults: Document, d: Document): Document {
    var merged := DeepMerge(defaults, d);
    if NeedsMigration(d) then Mapping(merged.entries[SCHEMA := LEGACY]) else merged
  }

  /** The configuration file: absent, not readable as YAML, not a mapping, or a document. */
  datatype File = Absent | Unreadable | NotMapping | Holds(document: Document)

  /** What a load sees; a missing file is first created from the defaults. */
  function Loaded(defaults: Document, f: File): Document {
    match f
    case Absent => WithDefaults(defaults, defaults)
    case Unreadable => defaults
    case NotMapping => defaults
    case Holds(d) => WithDefaults(defaults, d)
  }

  class ConfigStore {
    const defaults: Document
    var file: File
    var cache: Option<Document>

    constructor (defaults: Document, file: File)
      ensures this.defaults == defaults && this.file == file && cache.None?
    {
      this.defaults := defaults;
      this.file := file;
      cache := None;
    }

    /** The cached document, else the file merged over the defaults; errors are not cached. */
    method Load() returns (d: Document)
      modifies this
      ensures d == if old(cache).Some? then old(cache).value else Loaded(defaults, old(file))
      ensures file == if old(cache).None? && old(file).Absent? then Holds(defaults) else old(file)
      ensures cache == if old(cache).None? && !file.Holds? then None else Some(d)
      ensures Loaded(defaults, file) == Loaded(defaults, old(file))
    {
      if cache.Some? {
        return cache.value;
      }
      if file.Absent? {
        file := Holds(defaults);
      }
      if !file.Holds? {
        return defaults;
      }
      d := WithDefaults(defaults, file.document);
      cache := Some(d);
    }

    method Save(d: Document)
      modifies this
      ensures file == Holds(d) && cache.None?
    {
      file := Holds(d);
      cache := None;
    }

    /** An update starts from the document on disk, never from the cache, which another process may have outdated. */
    method SetValue(path: seq<string>, v: Value) returns (ok: bool)
      modifies this
      ensures ok == (path != [])
      ensures ok ==> file == Holds(Put(Loaded(defaults, old(file)), path, v)) && cache.None?
      ensures !ok ==> Loaded(defaults, file) == Loaded(defaults, old(file))
    {
      cache := None;
      var config := Load();
      if path == [] {
        return false;
      }
      Save(Put(config, path, v));
      return true;
    }

    method GetValue(path: seq<string>, default: Value) returns (v: Value)
      modifies this
      ensures var seen := if old(cache).Some? then old(cache).value else Loaded(defaults, old(file));
        v == if path != [] && Get(seen, path).Some? then Get(seen, path).value else default
    {
      var config := Load();
      if path == [] {
        return default;
      }
      var found := Get(config, path);
      return if found.Some? then found.value else default;
    }
  }

  // ---------------------------------------------------------------- laws

  /**
   * A scalar that was set is read back through save, reload and merge with the defaults, whatever the file was:
   * for every path outside the schema marker; at the marker itself exactly when migration leaves the value alone.
   */
  lemma GetAfterSet(defaults: Document, f: File, path: Path, v: Value)
    requires v.Scalar?
    ensures var saved := Put(Loaded(defaults, f), path, v);
      Get(Loaded(defaults, Holds(saved)), path) == Some(v) <==>
        (path[0] != SCHEMA || (|path| == 1 && (v == LEGACY || !NeedsMigration(saved))))
  {
    var saved := Put(Loaded(defaults, f), path, v);
    GetPut(Loaded(defaults, f), path, v);
    MergeKeepsScalars(defaults, saved, path);
  }

  /** Outside the schema marker a load reads as the plain merge. */
  lemma LoadsReadAsMerged(defaults: Document, d: Document, path: Path)
    requires path[0] != SCHEMA
    ensures Get(Loaded(defaults, Holds(d)), path) == Get(DeepMerge(defaults, d), path)
  {
  }

  /** The marker reads 1 exactly when migration is due. */
  lemma MarkerShowsMigration(defaults: Document, d: Document)
    requires SCHEMA in defaults.entries && defaults.entries[SCHEMA] == CURRENT
    ensures Get(Loaded(defaults, Holds(d)), [SCHEMA]) == Some(if NeedsMigration(d) then LEGACY else CURRENT)
  {
  }

  /** A default at a path the file does not touch is read back, whatever else the file says. */
  lemma UntouchedDefaultsAreRead(defaults: Document, d: Document, path: Path)
    requires path[0] != SCHEMA && Get(d, path).None?
    requires forall i :: 1 <= i < |path| ==> Get(d, path[..i]).None? || Get(d, path[..i]).value.Mapping?
    ensures Get(Loaded(defaults, Holds(d)), path) == Get(defaults, path)
  {
    CutMeans(d, path);
    assert !Cut(d, path);
    MergeByPaths(defaults, d, path);
    LoadsReadAsMerged(defaults, d, path);
  }

  /** A missing or unusable file reads as the defaults. */
  lemma UnusableFilesReadAsDefaults(defaults: Document, f: File)
    requires UpToDate(defaults) && !f.Holds?
    ensures Loaded(defaults, f) == defaults
  {
    MergeSelf(defaults);
  }

  /** Setting the schema marker to 3 reads back as 1, under all defaults and over every file. */
  lemma SchemaIsNotReadBack(defaults: Document, f: File)
    ensures Get(Loaded(defaults, Holds(Put(Loaded(defaults, f), [SCHEMA], Scalar(Number(3.0))))), [SCHEMA]) == Some(LEGACY)
  {
    var saved := Put(Loaded(defaults, f), [SCHEMA], Scalar(Number(3.0)));
    assert saved.entries[SCHEMA] != CURRENT;
  }

  /** The defaults of a release are of its own schema and free of retired settings. */
  predicate UpToDate(defaults: Document) {
    SCHEMA in defaults.entries && defaults.entries[SCHEMA] == CURRENT && !Retired(defaults)
  }

  lemma MarkedStaysMarked(defaults: Document, once: Document)
    requires DeepMerge(defaults, once) == once
    ensures DeepMerge(defaults, Mapping(once.entries[SCHEMA := LEGACY])).entries[SCHEMA := LEGACY] == once.entries[SCHEMA := LEGACY]
  {
    var marked: Document := Mapping(once.entries[SCHEMA := LEGACY]);
    forall k | k in marked.entries && k != SCHEMA
      ensures DeepMerge(defaults, marked).entries[k] == DeepMerge(defaults, once).entries[k]
    {
    }
  }

  /** Under any defaults of the current schema, a saved load is stable exactly if merging retires nothing new. */
  lemma StableExactly(defaults: Document, d: Document)
    requires SCHEMA in defaults.entries && defaults.entries[SCHEMA] == CURRENT
    ensures Loaded(defaults, Holds(Loaded(defaults, Holds(d)))) == Loaded(defaults, Holds(d)) <==>
      NeedsMigration(d) || !Retired(DeepMerge(defaults, d))
  {
    MergeAbsorbs(defaults, d);
    if NeedsMigration(d) {
      MarkedStaysMarked(defaults, DeepMerge(defaults, d));
    }
  }

  /** Loading, saving what was loaded and loading again is the same as loading once, for every document. */
  lemma SaveOfALoadIsStable(defaults: Document, d: Document)
    requires UpToDate(defaults)
    ensures Loaded(defaults, Holds(Loaded(defaults, Holds(d)))) == Loaded(defaults, Holds(d))
  {
    StableExactly(defaults, d);
    if Retired(DeepMerge(defaults, d)) {
      MergeRetiresNothing(defaults, d);
    }
  }

  // ---------------------------------------------------------------- the shipped defaults

  const SECTIONS: set<string> :=
    {SCHEMA, "leanflow", "model", "auxiliary", "toolsets", "agent", "limits", "storage", "logging"}

  function Str(s: string): Value { Scalar(Text(s)) }

  const SHIPPED_MODEL: Document := Mapping(map["provider" := Str("codex"), "default" := Str("")])
  const SHIPPED_AGENT: Document := Mapping(map["reasoning_effort" := Str("")])
  const SHIPPED_ROLE: Document := Mapping(map["provider" := Str(""), "model" := Str(""), "reasoning_effort" := Str("")])

  /** The shipped defaults, as far as migration looks at them. */
  predicate IsShipped(defaults: Document) {
    && defaults.entries.Keys == SECTIONS
    && defaults.entries[SCHEMA] == CURRENT
    && defaults.entries["model"] == SHIPPED_MODEL
    && defaults.entries["agent"] == SHIPPED_AGENT
    && defaults.entries["auxiliary"].Mapping?
    && forall role :: role in defaults.entries["auxiliary"].entries ==> defaults.entries["auxiliary"].entries[role] == SHIPPED_ROLE
  }

  lemma ShippedModelIsNative()
    ensures !RetiredModel(SHIPPED_MODEL)
  {
    assert Strip("codex") == "codex" && Lower("codex") == "codex";
  }

  lemma ShippedKeysAreCurrent()
    ensures SECTIONS !! RETIRED
    ensures !HasAny(SHIPPED_AGENT, RETIRED_AGENT) && !HasAny(SHIPPED_ROLE, RETIRED_ROLE)
  {
  }

  /** With the shipped defaults, what is loaded once can be saved and loaded again without change. */
  lemma ShippedLoadsAreStable(defaults: Document, d: Document)
    requires IsShipped(defaults)
    ensures UpToDate(defaults)
    ensures Loaded(defaults, Holds(Loaded(defaults, Holds(d)))) == Loaded(defaults, Holds(d))
  {
    ShippedModelIsNative();
    ShippedKeysAreCurrent();
    SaveOfALoadIsStable(defaults, d);
  }
}
