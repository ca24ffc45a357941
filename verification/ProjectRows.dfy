/** Rows of the user-level registry of managed projects, their identity, and how a selector finds one. */
module ProjectRows {
  // Paths are sequences of components, the root being the first component of an absolute path. `derive` stands for
  // the hash that turns a path into an ID.

  import opened Options
  import opened Whitespace

  type Path = seq<string>

  type Derive = Path -> string

  ghost predicate NeverEmpty(derive: Derive) {
    forall p :: derive(p) != ""
  }

  datatype Agent = Agent(tool: string, scope: string, shimPath: Path, mcpConfigPath: Option<Path>,
                         mcpBackupPath: Option<Path>, installedAt: string)

  datatype Hook = Hook(name: string, path: Path, mode: string, installedAt: string)

  datatype AgentHook = AgentHook(tool: string, path: Path, installedAt: string)

  datatype Entry = Entry(id: string, path: Path, name: Option<string>, lastOpened: Option<string>,
                         initializedAt: string, rootIgnored: bool, syntextIgnored: bool, exportIgnored: bool,
                         exportLine: Option<string>, agents: seq<Agent>, hooks: seq<Hook>,
                         agentHooks: seq<AgentHook>)

  function ToolOf(a: Agent): string { a.tool }
  function NameOf(h: Hook): string { h.name }
  function HookToolOf(h: AgentHook): string { h.tool }

  // ---- lists kept distinct by a key ----

  predicate Distinct<T>(s: seq<T>, key: T -> string) {
    forall i, j :: 0 <= i < j < |s| ==> key(s[i]) != key(s[j])
  }

  function FindKey<T>(s: seq<T>, key: T -> string, k: string): (i: nat)
    ensures i <= |s| && (i < |s| ==> key(s[i]) == k)
    ensures forall j :: 0 <= j < i ==> key(s[j]) != k
  {
    if s == [] || key(s[0]) == k then 0 else 1 + FindKey(s[1..], key, k)
  }

  /** Replaces the first element with the same key, or appends. */
  function Put<T>(s: seq<T>, key: T -> string, x: T): seq<T> {
    var i := FindKey(s, key, key(x));
    if i < |s| then s[i := x] else s + [x]
  }

  function PutAll<T>(s: seq<T>, key: T -> string, xs: seq<T>): seq<T> {
    if xs == [] then s else Put(PutAll(s, key, xs[..|xs| - 1]), key, xs[|xs| - 1])
  }

  /** `retain` of what bears none of the names. */
  function Without<T>(s: seq<T>, key: T -> string, names: seq<string>): seq<T> {
    if s == [] then []
    else (if key(s[0]) in names then [] else [s[0]]) + Without(s[1..], key, names)
  }

  lemma DistinctCons<T>(x: T, rest: seq<T>, key: T -> string)
    ensures Distinct([x] + rest, key) <==> Distinct(rest, key) && forall y :: y in rest ==> key(y) != key(x)
  {
    var s := [x] + rest;
    assert s[0] == x && s[1..] == rest;
    if Distinct(s, key) {
      forall y | y in rest ensures key(y) != key(x) {
        var j :| 0 <= j < |rest| && rest[j] == y;
        assert s[j + 1] == y;
      }
      forall i, j | 0 <= i < j < |rest| ensures key(rest[i]) != key(rest[j]) {
        assert rest[i] == s[i + 1] && rest[j] == s[j + 1];
      }
    }
    if Distinct(rest, key) && forall y :: y in rest ==> key(y) != key(x) {
      forall i, j | 0 <= i < j < |s| ensures key(s[i]) != key(s[j]) {
        assert s[j] == rest[j - 1] && s[j] in rest;
        if i > 0 { assert s[i] == rest[i - 1]; }
      }
    }
  }

  /** After `Put` the new element is the one under its key, the other keys keep theirs, and keys stay distinct. */
  lemma PutLaws<T>(s: seq<T>, key: T -> string, x: T)
    requires Distinct(s, key)
    ensures Distinct(Put(s, key, x), key) && x in Put(s, key, x)
    ensures forall y :: y in s && key(y) != key(x) ==> y in Put(s, key, x)
    ensures forall y :: y in Put(s, key, x) ==> y == x || (y in s && key(y) != key(x))
  {
    var put, n := Put(s, key, x), FindKey(s, key, key(x));
    assert put[n] == x;
    forall y | y in s && key(y) != key(x) ensures y in put {
      var j :| 0 <= j < |s| && s[j] == y;
      assert put[j] == y;
    }
  }

  lemma {:induction false} PutAllDistinct<T>(s: seq<T>, key: T -> string, xs: seq<T>)
    requires Distinct(s, key)
    ensures Distinct(PutAll(s, key, xs), key)
  {
    if xs != [] {
      PutAllDistinct(s, key, xs[..|xs| - 1]);
      PutLaws(PutAll(s, key, xs[..|xs| - 1]), key, xs[|xs| - 1]);
    }
  }

  lemma {:induction false} WithoutElements<T>(s: seq<T>, key: T -> string, names: seq<string>)
    ensures forall y :: y in Without(s, key, names) ==> y in s && key(y) !in names
    ensures forall y :: y in s && key(y) !in names ==> y in Without(s, key, names)
  {
    if s != [] {
      WithoutElements(s[1..], key, names);
      assert s == [s[0]] + s[1..];
    }
  }

  lemma {:induction false} WithoutDistinct<T>(s: seq<T>, key: T -> string, names: seq<string>)
    requires Distinct(s, key)
    ensures Distinct(Without(s, key, names), key)
  {
    if s != [] {
      var first, rest := s[0], s[1..];
      assert s == [first] + rest;
      DistinctCons(first, rest, key);
      WithoutDistinct(rest, key, names);
      WithoutElements(rest, key, names);
      DistinctCons(first, Without(rest, key, names), key);
      assert [] + Without(rest, key, names) == Without(rest, key, names);
    }
  }

  lemma {:induction false} WithoutConcat<T>(a: seq<T>, b: seq<T>, key: T -> string, names: seq<string>)
    ensures Without(a + b, key, names) == Without(a, key, names) + Without(b, key, names)
  {
    if a == [] {
      assert a + b == b;
    } else {
      assert (a + b)[0] == a[0] && (a + b)[1..] == a[1..] + b;
      WithoutConcat(a[1..], b, key, names);
    }
  }

  /** Removing a key undoes `Put` under that key. */
  lemma PutThenWithout<T>(s: seq<T>, key: T -> string, x: T)
    ensures Without(Put(s, key, x), key, [key(x)]) == Without(s, key, [key(x)])
  {
    var i, names := FindKey(s, key, key(x)), [key(x)];
    if i < |s| {
      assert s[i := x] == s[..i] + [x] + s[i + 1..] && s == s[..i] + [s[i]] + s[i + 1..];
      WithoutConcat(s[..i] + [x], s[i + 1..], key, names);
      WithoutConcat(s[..i], [x], key, names);
      WithoutConcat(s[..i] + [s[i]], s[i + 1..], key, names);
      WithoutConcat(s[..i], [s[i]], key, names);
    } else {
      WithoutConcat(s, [x], key, names);
    }
  }

  predicate RowOk(e: Entry) {
    Distinct(e.agents, ToolOf) && Distinct(e.hooks, NameOf) && Distinct(e.agentHooks, HookToolOf)
  }

  // ---- identity and names ----

  function EffectiveId(derive: Derive, e: Entry): string {
    if e.id == "" then derive(e.path) else e.id
  }

  function Ensured(derive: Derive, e: Entry): Entry {
    if e.id == "" then e.(id := derive(e.path)) else e
  }

  function Fresh(derive: Derive, path: Path, now: string): Entry {
    Entry(derive(path), path, None, None, now, false, false, false, None, [], [], [])
  }

  function DefaultName(path: Path): string {
    if path == [] || path[|path| - 1] == "" then "project" else path[|path| - 1]
  }

  function DisplayName(e: Entry): string {
    if e.name.Some? && Trim(e.name.value) != "" then e.name.value else DefaultName(e.path)
  }

  // ---- lookup ----

  predicate PathsDistinct(projects: seq<Entry>) {
    forall i, j :: 0 <= i < j < |projects| ==> projects[i].path != projects[j].path
  }

  ghost predicate Good(projects: seq<Entry>) {
    PathsDistinct(projects) && forall e :: e in projects ==> RowOk(e)
  }

  /** Index of the first row with this path, or the number of rows. */
  function Find(projects: seq<Entry>, path: Path): (i: nat)
    ensures i <= |projects| && (i < |projects| ==> projects[i].path == path)
    ensures forall j :: 0 <= j < i ==> projects[j].path != path
  {
    if projects == [] || projects[0].path == path then 0 else 1 + Find(projects[1..], path)
  }

  function FindId(derive: Derive, projects: seq<Entry>, id: string): (i: nat)
    ensures i <= |projects| && (i < |projects| ==> EffectiveId(derive, projects[i]) == id)
    ensures forall j :: 0 <= j < i ==> EffectiveId(derive, projects[j]) != id
  {
    if projects == [] || EffectiveId(derive, projects[0]) == id then 0 else 1 + FindId(derive, projects[1..], id)
  }

  /** The rows shown under a name, in order. */
  function Named(projects: seq<Entry>, name: string): seq<Entry> {
    if projects == [] then []
    else (if DisplayName(projects[0]) == name then [projects[0]] else []) + Named(projects[1..], name)
  }

  datatype Resolution = Found(index: nat) | NotFound | Ambiguous(matches: seq<Entry>)

  /** `resolve_project_index` */
  function Resolve(derive: Derive, projects: seq<Entry>, selector: string, path: Option<Path>): Resolution {
    var i := FindId(derive, projects, selector);
    if i < |projects| then Found(i)
    else if path.Some? && Find(projects, path.value) < |projects| then Found(Find(projects, path.value))
    else
      var matches := Named(projects, selector);
      if matches == [] then NotFound
      else if |matches| > 1 then Ambiguous(matches)
      else
        var k := Find(projects, matches[0].path);
        if k < |projects| then Found(k) else NotFound
  }

  // ---- what a selector finds ----

  predicate Bears(projects: seq<Entry>, i: nat, name: string) {
    i < |projects| && DisplayName(projects[i]) == name
  }

  predicate OnlyBearer(projects: seq<Entry>, i: nat, name: string) {
    Bears(projects, i, name) && forall j :: 0 <= j < |projects| && Bears(projects, j, name) ==> j == i
  }

  lemma {:induction false} NamedNone(projects: seq<Entry>, name: string)
    ensures Named(projects, name) == [] <==> forall j: nat :: j < |projects| ==> !Bears(projects, j, name)
  {
    if projects != [] {
      NamedNone(projects[1..], name);
      if forall j: nat :: j < |projects| ==> !Bears(projects, j, name) {
        assert !Bears(projects, 0, name);
        forall j: nat | j < |projects[1..]| ensures !Bears(projects[1..], j, name) {
          assert !Bears(projects, j + 1, name);
        }
      } else {
        var j: nat :| j < |projects| && Bears(projects, j, name);
        if j > 0 { assert Bears(projects[1..], j - 1, name); }
      }
    }
  }

  /** Exactly one row is listed under a name when exactly one bears it, and it is that one. */
  lemma {:induction false} NamedOne(projects: seq<Entry>, name: string, i: nat)
    requires Bears(projects, i, name)
    ensures |Named(projects, name)| == 1 <==> OnlyBearer(projects, i, name)
    ensures |Named(projects, name)| == 1 ==> Named(projects, name) == [projects[i]]
  {
    var rest := projects[1..];
    NamedNone(rest, name);
    if i == 0 {
      if OnlyBearer(projects, 0, name) {
        forall j: nat | j < |rest| ensures !Bears(rest, j, name) { assert !Bears(projects, j + 1, name); }
      } else {
        var j :| 0 <= j < |projects| && Bears(projects, j, name) && j != 0;
        assert Bears(rest, j - 1, name);
      }
    } else {
      assert Bears(rest, i - 1, name);
      NamedOne(rest, name, i - 1);
      if OnlyBearer(projects, i, name) {
        assert !Bears(projects, 0, name);
        forall j | 0 <= j < |rest| && Bears(rest, j, name) ensures j == i - 1 { assert Bears(projects, j + 1, name); }
      } else {
        var j :| 0 <= j < |projects| && Bears(projects, j, name) && j != i;
        if j > 0 { assert Bears(rest, j - 1, name); }
      }
    }
  }

  /** When the selector is neither an ID nor a registered path, it finds a row exactly when that row is the only one
      shown under it; nobody bearing it is "not found", several are "ambiguous". */
  lemma NameFindsItsBearer(derive: Derive, projects: seq<Entry>, selector: string, path: Option<Path>, i: nat)
    requires PathsDistinct(projects) && FindId(derive, projects, selector) == |projects|
    requires path.Some? ==> Find(projects, path.value) == |projects|
    ensures Resolve(derive, projects, selector, path) == Found(i) <==> OnlyBearer(projects, i, selector)
    ensures Resolve(derive, projects, selector, path) == NotFound
      <==> forall j: nat :: j < |projects| ==> !Bears(projects, j, selector)
  {
    NamedNone(projects, selector);
    var matches := Named(projects, selector);
    if matches != [] {
      var j: nat :| j < |projects| && Bears(projects, j, selector);
      NamedOne(projects, selector, j);
      if |matches| == 1 {
        assert matches[0] == projects[j] && Find(projects, projects[j].path) == j;
      } else if Bears(projects, i, selector) {
        NamedOne(projects, selector, i);
      }
    }
  }

  /** If two rows share a path, the name of the second one finds the first. */
  lemma SharedPathMisleads(derive: Derive, projects: seq<Entry>, selector: string)
    requires |projects| == 2 && projects[0].path == projects[1].path
    requires FindId(derive, projects, selector) == 2
    requires DisplayName(projects[0]) != selector && DisplayName(projects[1]) == selector
    ensures Resolve(derive, projects, selector, None) == Found(0)
  {
    assert Bears(projects, 1, selector) && OnlyBearer(projects, 1, selector);
    NamedOne(projects, selector, 1);
  }
}
