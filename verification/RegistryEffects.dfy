/** What each registry operation comes to for the rows, field by field.
    The operations are planned as changes of the list of rows; here each is said again in terms of the rows before and
    after: which row it concerns, which of its fields change and to what, and that all other rows stay as and where
    they were. */
module RegistryEffects {
  import opened Options
  import opened Whitespace
  import opened ProjectRows
  import opened Relocation
  import opened Registry

  /** Row `i` is the first with this path. */
  predicate FirstAt(projects: seq<Entry>, i: nat, path: Path) {
    i < |projects| && projects[i].path == path && forall j :: 0 <= j < i ==> projects[j].path != path
  }

  predicate Unknown(projects: seq<Entry>, path: Path) {
    forall j :: 0 <= j < |projects| ==> projects[j].path != path
  }

  lemma FirstIs(projects: seq<Entry>, i: nat, path: Path)
    ensures FirstAt(projects, i, path) <==> i < |projects| && Find(projects, path) == i
    ensures Unknown(projects, path) <==> Find(projects, path) == |projects|
  {}

  /** A row with its ID written out. */
  function Explicit(derive: Derive, e: Entry): Entry {
    e.(id := if e.id != "" then e.id else derive(e.path))
  }

  /** A row that nothing has been recorded in. */
  function Empty(derive: Derive, path: Path, now: string): Entry {
    Entry(derive(path), path, None, None, now, false, false, false, None, [], [], [])
  }

  /** An identity file at the path, if it counts, is missing or agrees. */
  predicate IdentityAgrees(derive: Derive, s: State, row: Entry, env: Env) {
    row.path in env.initialized ==> env.identityIo && (row.path in s.markers ==> s.markers[row.path] == row.id)
  }

  // ---- recording what is installed ----

  /** The row an operation starts from, at the place where it goes back: the first row with the path, or a new row
      at the end. */
  predicate StartsFrom(derive: Derive, s: State, path: Path, now: string, i: nat, row: Entry) {
    || (FirstAt(s.projects, i, path) && row == Explicit(derive, s.projects[i]))
    || (Unknown(s.projects, path) && i == |s.projects| && row == Empty(derive, path, now))
  }

  function PutAt(projects: seq<Entry>, i: nat, row: Entry): seq<Entry>
    requires i <= |projects|
  {
    if i < |projects| then projects[i := row] else projects + [row]
  }

  lemma StartsAtRow(derive: Derive, s: State, path: Path, now: string, i: nat, row: Entry)
    requires StartsFrom(derive, s, path, now, i, row)
    ensures i <= |s.projects| && row == RowFor(derive, s.projects, path, now) && row.path == path
  {
    FirstIs(s.projects, i, path);
  }

  lemma PutsBack(s: State, i: nat, row: Entry)
    requires FirstAt(s.projects, i, row.path) || (Unknown(s.projects, row.path) && i == |s.projects|)
    ensures Perform(s.projects, PutRow(s.projects, row)) == PutAt(s.projects, i, row)
  {
    FirstIs(s.projects, i, row.path);
  }

  /** A recording operation that needs no identity file puts its row where it started from. */
  lemma RecordedGoesBack(derive: Derive, s: State, op: Op, env: Env, i: nat, row: Entry)
    requires Works(env) && Records(op) && !op.RecordProject? && !op.RecordInstall? && (op.RecordSyntext? ==> op.added)
    requires StartsFrom(derive, s, op.path, env.now, i, row)
    ensures i <= |s.projects| && row == RowFor(derive, s.projects, op.path, env.now)
    ensures Next(derive, s, op, env)
      == State(PutAt(s.projects, i, Recorded(derive, s.projects, op, env.now)), s.markers)
  {
    StartsAtRow(derive, s, op.path, env.now, i, row);
    PutsBack(s, i, Recorded(derive, s.projects, op, env.now));
  }

  /** `record_project` stamps the row as opened now; `record_install` remembers that the ignore line was added, once it
      ever was. A foreign identity file stops both. */
  lemma RegistersRow(derive: Derive, s: State, op: Op, env: Env, i: nat, row: Entry)
    requires NeverEmpty(derive) && Works(env) && (op.RecordProject? || op.RecordInstall?)
    requires StartsFrom(derive, s, op.path, env.now, i, row)
    ensures var after := Next(derive, s, op, env);
      if !IdentityAgrees(derive, s, row, env) then after == s && !Plan(derive, s, op, env).ok
      else
        && Plan(derive, s, op, env).ok
        && (op.RecordProject? ==> after.projects == PutAt(s.projects, i, row.(lastOpened := Some(env.now))))
        && (op.RecordInstall? ==>
              after.projects == PutAt(s.projects, i, row.(rootIgnored := row.rootIgnored || op.rootAdded)))
  {
    StartsAtRow(derive, s, op.path, env.now, i, row);
    var put := Recorded(derive, s.projects, op, env.now);
    PutsBack(s, i, put);
    assert Plan(derive, s, op, env) == PlanIdentified(derive, s, put, env);
  }

  lemma SetsSyntextFlag(derive: Derive, s: State, path: Path, added: bool, env: Env, i: nat, row: Entry)
    requires Works(env) && StartsFrom(derive, s, path, env.now, i, row)
    ensures var after := Next(derive, s, RecordSyntext(path, added), env);
      && after.markers == s.markers
      && after.projects == if added then PutAt(s.projects, i, row.(syntextIgnored := true)) else s.projects
  {
    StartsAtRow(derive, s, path, env.now, i, row);
    if added { RecordedGoesBack(derive, s, RecordSyntext(path, added), env, i, row); }
  }

  /** `after` has `x` under its key, and all elements of `before` under other keys, at their places. */
  predicate HasPut<T(==)>(before: seq<T>, after: seq<T>, key: T -> string, x: T) {
    && |before| <= |after| <= |before| + 1 && x in after
    && (forall j :: 0 <= j < |before| ==> after[j] == if key(before[j]) == key(x) then x else before[j])
    && (|after| > |before| <==> forall j :: 0 <= j < |before| ==> key(before[j]) != key(x))
    && (|after| > |before| ==> after[|before|] == x)
  }

  lemma PutPuts<T>(s: seq<T>, key: T -> string, x: T)
    requires Distinct(s, key)
    ensures HasPut(s, Put(s, key, x), key, x)
  {
    var i, put := FindKey(s, key, key(x)), Put(s, key, x);
    assert put[i] == x;
  }

  lemma RecordsAgent(derive: Derive, s: State, path: Path, agent: Agent, env: Env, i: nat, row: Entry)
    requires Works(env) && Good(s.projects) && StartsFrom(derive, s, path, env.now, i, row)
    ensures var after := Next(derive, s, RecordAgent(path, agent), env);
      && i < |after.projects| && after.markers == s.markers
      && after.projects == PutAt(s.projects, i, row.(agents := after.projects[i].agents))
      && HasPut(row.agents, after.projects[i].agents, ToolOf, agent)
  {
    RecordedGoesBack(derive, s, RecordAgent(path, agent), env, i, row);
    if i < |s.projects| { assert s.projects[i] in s.projects && RowOk(s.projects[i]); }
    PutPuts(row.agents, ToolOf, agent);
  }

  /** `xs` lists `x`, and nothing later in it has its key. */
  predicate LastOfKey<T(==)>(xs: seq<T>, key: T -> string, x: T) {
    exists i :: 0 <= i < |xs| && xs[i] == x && forall j :: i < j < |xs| ==> key(xs[j]) != key(x)
  }

  lemma {:induction false} LastOfKeyStep<T>(xs: seq<T>, key: T -> string, x: T)
    requires xs != []
    ensures var init, last := xs[..|xs| - 1], xs[|xs| - 1];
      LastOfKey(xs, key, x) <==> x == last || (key(last) != key(x) && LastOfKey(init, key, x))
  {
    var init, n := xs[..|xs| - 1], |xs| - 1;
    if LastOfKey(xs, key, x) {
      var i :| 0 <= i < |xs| && xs[i] == x && forall j :: i < j < |xs| ==> key(xs[j]) != key(x);
      if i < n { assert init[i] == x && key(xs[n]) != key(x); }
    }
    if x == xs[n] {
      assert LastOfKey(xs, key, x);
    } else if key(xs[n]) != key(x) && LastOfKey(init, key, x) {
      var i :| 0 <= i < |init| && init[i] == x && forall j :: i < j < |init| ==> key(init[j]) != key(x);
      assert xs[i] == x;
      forall j | i < j < |xs| ensures key(xs[j]) != key(x) { if j < n { assert init[j] == xs[j]; } }
    }
  }

  /** A list of new elements: for each key the last one given, and the old ones under all other keys. */
  lemma {:induction false} PutAllHolds<T>(s: seq<T>, key: T -> string, xs: seq<T>, x: T)
    requires Distinct(s, key)
    ensures x in PutAll(s, key, xs)
      <==> LastOfKey(xs, key, x) || (x in s && forall j :: 0 <= j < |xs| ==> key(xs[j]) != key(x))
  {
    if xs != [] {
      var init, last := xs[..|xs| - 1], xs[|xs| - 1];
      PutAllHolds(s, key, init, x);
      PutAllDistinct(s, key, init);
      PutLaws(PutAll(s, key, init), key, last);
      LastOfKeyStep(xs, key, x);
      assert (forall j :: 0 <= j < |xs| ==> key(xs[j]) != key(x))
        <==> (key(last) != key(x) && forall j :: 0 <= j < |init| ==> key(init[j]) != key(x));
    }
  }

  lemma RecordsHooks(derive: Derive, s: State, path: Path, hooks: seq<Hook>, env: Env, i: nat, row: Entry, h: Hook)
    requires Works(env) && Good(s.projects) && StartsFrom(derive, s, path, env.now, i, row)
    ensures var after := Next(derive, s, Op.RecordHooks(path, hooks), env);
      && i < |after.projects| && after.markers == s.markers
      && after.projects == PutAt(s.projects, i, row.(hooks := after.projects[i].hooks))
      && (h in after.projects[i].hooks <==>
            LastOfKey(hooks, NameOf, h) || (h in row.hooks && forall j :: 0 <= j < |hooks| ==> hooks[j].name != h.name))
  {
    RecordedGoesBack(derive, s, Op.RecordHooks(path, hooks), env, i, row);
    if i < |s.projects| { assert s.projects[i] in s.projects && RowOk(s.projects[i]); }
    PutAllHolds(row.hooks, NameOf, hooks, h);
  }

  lemma RecordsAgentHooks(derive: Derive, s: State, path: Path, hooks: seq<AgentHook>, env: Env, i: nat, row: Entry,
                          h: AgentHook)
    requires Works(env) && Good(s.projects) && StartsFrom(derive, s, path, env.now, i, row)
    ensures var after := Next(derive, s, Op.RecordAgentHooks(path, hooks), env);
      && i < |after.projects| && after.markers == s.markers
      && after.projects == PutAt(s.projects, i, row.(agentHooks := after.projects[i].agentHooks))
      && (h in after.projects[i].agentHooks <==>
            LastOfKey(hooks, HookToolOf, h)
            || (h in row.agentHooks && forall j :: 0 <= j < |hooks| ==> hooks[j].tool != h.tool))
  {
    RecordedGoesBack(derive, s, Op.RecordAgentHooks(path, hooks), env, i, row);
    if i < |s.projects| { assert s.projects[i] in s.projects && RowOk(s.projects[i]); }
    PutAllHolds(row.agentHooks, HookToolOf, hooks, h);
  }

  // ---- operations that pass over an unknown path ----

  lemma UnknownIsPassedOver(derive: Derive, s: State, op: Op, env: Env)
    requires Works(env) && OnlyKnown(op) && Unknown(s.projects, op.path)
    ensures Next(derive, s, op, env) == s && Plan(derive, s, op, env).ok
  {
    FirstIs(s.projects, 0, op.path);
  }

  lemma RecordsExportLine(derive: Derive, s: State, path: Path, line: string, env: Env, i: nat)
    requires Works(env) && FirstAt(s.projects, i, path)
    ensures Next(derive, s, RecordExport(path, line), env)
      == State(s.projects[i := Explicit(derive, s.projects[i]).(exportIgnored := true, exportLine := Some(line))],
               s.markers)
  {
    FirstIs(s.projects, i, path);
  }

  lemma RemovesFirst(derive: Derive, s: State, path: Path, env: Env, i: nat)
    requires Works(env) && FirstAt(s.projects, i, path)
    ensures Next(derive, s, RemoveProject(path), env) == State(s.projects[..i] + s.projects[i + 1..], s.markers)
  {
    FirstIs(s.projects, i, path);
    SelectAllBut(s.projects, i);
    assert seq(|s.projects|, j => j != i) == seq(|s.projects|, j => j != i);
  }

  lemma DropsHooks(derive: Derive, s: State, path: Path, names: seq<string>, env: Env, i: nat, h: Hook)
    requires Works(env) && FirstAt(s.projects, i, path)
    ensures var row, after := s.projects[i], Next(derive, s, HooksUninstall(path, names), env);
      && |after.projects| == |s.projects| && after.markers == s.markers
      && after.projects == s.projects[i := row.(hooks := after.projects[i].hooks)]
      && (h in after.projects[i].hooks <==> h in row.hooks && h.name !in names)
  {
    FirstIs(s.projects, i, path);
    WithoutElements(s.projects[i].hooks, NameOf, names);
  }

  lemma DropsAgent(derive: Derive, s: State, path: Path, tool: string, env: Env, i: nat, a: Agent)
    requires Works(env) && FirstAt(s.projects, i, path)
    ensures var row, after := Explicit(derive, s.projects[i]), Next(derive, s, AgentUninstall(path, tool), env);
      && |after.projects| == |s.projects| && after.markers == s.markers
      && after.projects == s.projects[i := row.(agents := after.projects[i].agents)]
      && (a in after.projects[i].agents <==> a in row.agents && a.tool != tool)
  {
    FirstIs(s.projects, i, path);
    WithoutElements(s.projects[i].agents, ToolOf, [tool]);
  }

  /** What a partial uninstall leaves of a row that it does not drop. */
  lemma ClearsWhatIsGone(derive: Derive, s: State, path: Path, p: Progress, env: Env, i: nat,
                         a: Agent, h: Hook, t: AgentHook)
    requires Works(env) && FirstAt(s.projects, i, path) && !p.dataDeleted
    ensures var row, after := s.projects[i], Next(derive, s, UninstallProgress(path, p), env);
      && |after.projects| == |s.projects| && after.markers == s.markers
      && var left := after.projects[i];
      && after.projects == s.projects[i := row.(agents := left.agents, hooks := left.hooks,
           agentHooks := left.agentHooks, rootIgnored := left.rootIgnored, syntextIgnored := left.syntextIgnored,
           exportIgnored := left.exportIgnored, exportLine := left.exportLine)]
      && (a in left.agents <==> a in row.agents && a.tool !in p.tools)
      && (h in left.hooks <==> h in row.hooks && h.name !in p.hooks)
      && (t in left.agentHooks <==> t in row.agentHooks && t.tool !in p.hookTools)
      && (left.rootIgnored <==> row.rootIgnored && !p.rootRemoved)
      && (left.syntextIgnored <==> row.syntextIgnored && !p.syntextRemoved)
      && (left.exportIgnored <==> row.exportIgnored && !p.exportRemoved)
      && left.exportLine == if p.exportRemoved then None else row.exportLine
  {
    FirstIs(s.projects, i, path);
    WithoutElements(s.projects[i].agents, ToolOf, p.tools);
    WithoutElements(s.projects[i].hooks, NameOf, p.hooks);
    WithoutElements(s.projects[i].agentHooks, HookToolOf, p.hookTools);
  }

  // ---- operations that drop rows ----

  /** `a` is what is left of `b` when some elements are taken out. */
  predicate LeftOf<T(==)>(a: seq<T>, b: seq<T>) {
    a == [] || (b != [] && ((a[0] == b[0] && LeftOf(a[1..], b[1..])) || LeftOf(a, b[1..])))
  }

  lemma {:induction false} SelectIsLeft<T>(s: seq<T>, mask: seq<bool>)
    requires |s| == |mask|
    ensures LeftOf(Select(s, mask), s)
    decreases s
  {
    if s != [] {
      var later := Select(s[1..], mask[1..]);
      SelectIsLeft(s[1..], mask[1..]);
      if mask[0] {
        assert Select(s, mask) == [s[0]] + later && ([s[0]] + later)[1..] == later;
      } else {
        assert Select(s, mask) == later;
      }
    }
  }

  lemma {:induction false} SelectHolds<T>(s: seq<T>, mask: seq<bool>, x: T)
    requires |s| == |mask|
    ensures x in Select(s, mask) <==> exists k :: 0 <= k < |s| && mask[k] && s[k] == x
    decreases s
  {
    if s != [] {
      SelectHolds(s[1..], mask[1..], x);
      if k :| 0 <= k < |s| && mask[k] && s[k] == x {
        if k > 0 { assert mask[1..][k - 1] && s[1..][k - 1] == x; }
      }
      if k :| 0 <= k < |s[1..]| && mask[1..][k] && s[1..][k] == x { assert mask[k + 1] && s[k + 1] == x; }
    }
  }

  /** `prune_missing_projects`: a row stays exactly when its path exists; the rows left are untouched and in
      order, and nothing changes when every path exists. */
  lemma PruneKeepsExisting(derive: Derive, s: State, existing: set<Path>, env: Env)
    requires Works(env)
    ensures var after := Next(derive, s, Prune(existing), env);
      && after.markers == s.markers && Plan(derive, s, Prune(existing), env).ok
      && (forall e :: e in after.projects <==> e in s.projects && e.path in existing)
      && LeftOf(after.projects, s.projects)
      && ((forall e :: e in s.projects ==> e.path in existing) ==> after.projects == s.projects)
  {
    var mask := KeepExisting(s.projects, existing);
    var after := Next(derive, s, Prune(existing), env);
    if false !in mask { SelectAll(s.projects, mask); }
    assert after.projects == Select(s.projects, mask);
    SelectIsLeft(s.projects, mask);
    forall e ensures e in after.projects <==> e in s.projects && e.path in existing {
      SelectHolds(s.projects, mask, e);
    }
    if forall e :: e in s.projects ==> e.path in existing {
      forall k | 0 <= k < |mask| ensures mask[k] { assert s.projects[k] in s.projects; }
    }
  }

  /** `record_uninstall`: all rows with the path go, the others stay in order. */
  lemma UninstallDropsPath(derive: Derive, s: State, path: Path, env: Env)
    requires Works(env)
    ensures var after := Next(derive, s, Uninstall(path), env);
      && after.markers == s.markers
      && (forall e :: e in after.projects <==> e in s.projects && e.path != path)
      && LeftOf(after.projects, s.projects)
  {
    SelectIsLeft(s.projects, KeepOthers(s.projects, path));
    SelectOthers(s.projects, path);
  }

  // ---- operations on a selected row ----

  /** A selector is first taken for an ID, then for a path, and only then for a name. */
  lemma SelectorOrder(derive: Derive, projects: seq<Entry>, selector: string, path: Option<Path>, i: nat)
    requires i < |projects|
    ensures EffectiveId(derive, projects[i]) == selector
            && (forall j :: 0 <= j < i ==> EffectiveId(derive, projects[j]) != selector)
      ==> Resolve(derive, projects, selector, path) == Found(i)
    ensures (forall j :: 0 <= j < |projects| ==> EffectiveId(derive, projects[j]) != selector)
            && path.Some? && FirstAt(projects, i, path.value)
      ==> Resolve(derive, projects, selector, path) == Found(i)
  {
    if path.Some? { FirstIs(projects, i, path.value); }
  }

  /** The ID in force: the recorded one, or the hash of the path. */
  lemma IdInForce(derive: Derive, e: Entry)
    ensures EffectiveId(derive, e) == Explicit(derive, e).id
  {}

  /** The name a row is shown under: its own, unless that is blank, else its directory's, else "project". */
  lemma ShownUnder(e: Entry)
    ensures e.name.Some? && Trim(e.name.value) != "" ==> DisplayName(e) == e.name.value
    ensures e.name.None? || Trim(e.name.value) == "" ==>
      forall parent, last :: e.path == parent + [last] && last != "" ==> DisplayName(e) == last
    ensures (e.name.None? || Trim(e.name.value) == "") && (e.path == [] || e.path[|e.path| - 1] == "") ==>
      DisplayName(e) == "project"
  {}

  lemma OpensSelected(derive: Derive, s: State, selector: string, path: Option<Path>, env: Env, i: nat)
    requires Works(env) && i < |s.projects| && Resolve(derive, s.projects, selector, path) == Found(i)
    ensures Next(derive, s, MarkOpened(selector, path), env)
      == State(s.projects[i := Explicit(derive, s.projects[i]).(lastOpened := Some(env.now))], s.markers)
  {}

  lemma RenamesSelected(derive: Derive, s: State, selector: string, path: Option<Path>, name: string, env: Env, i: nat)
    requires Works(env) && i < |s.projects| && Resolve(derive, s.projects, selector, path) == Found(i)
    ensures var after := Next(derive, s, Rename(selector, path, name), env);
      if Trim(name) == "" then after == s && !Plan(derive, s, Rename(selector, path, name), env).ok
      else after == State(s.projects[i := Explicit(derive, s.projects[i]).(name := Some(Trim(name)))], s.markers)
  {}

  /** A selector that finds no single row makes the operation fail. */
  lemma UnresolvedFails(derive: Derive, s: State, op: Op, env: Env)
    requires op.MarkOpened? || op.Rename? || op.Relink?
    requires !Resolve(derive, s.projects, op.selector, op.selectorPath).Found?
    requires op.MarkOpened? || op.Relink? ==> env.home
    ensures Next(derive, s, op, env) == s && !Plan(derive, s, op, env).ok
  {}

  /** A target that does not exist makes a relink fail. */
  lemma NoTargetFails(derive: Derive, s: State, selector: string, path: Option<Path>, env: Env)
    requires env.home
    ensures var op := Relink(selector, path, None); Next(derive, s, op, env) == s && !Plan(derive, s, op, env).ok
  {}

  /** A relink moves the row, its ID written out, to the target, unless the target is not set up, is registered, or
      belongs to another project. */
  lemma RelinksSelected(derive: Derive, s: State, selector: string, path: Option<Path>, target: Path, env: Env, i: nat)
    requires NeverEmpty(derive) && Works(env) && i < |s.projects|
    requires Resolve(derive, s.projects, selector, path) == Found(i)
    ensures var op, row := Relink(selector, path, Some(target)), Explicit(derive, s.projects[i]);
      var after := Next(derive, s, op, env);
      if target in env.configured && Unknown(s.projects, target) && env.identityIo
         && (target in s.markers ==> s.markers[target] == row.id)
      then
        && Plan(derive, s, op, env).ok
        && after.projects == s.projects[i := MovedEntry(row.(path := target), s.projects[i].path)]
        && after.markers == if target in env.initialized then s.markers[target := row.id] else s.markers
      else after == s && !Plan(derive, s, op, env).ok
  {
    FirstIs(s.projects, i, target);
  }

  /** Without a home directory nothing is changed. The operations that install and uninstall report success then,
      those a user calls for report an error. */
  lemma NoHomeNoChange(derive: Derive, s: State, op: Op, env: Env)
    requires !env.home
    ensures Next(derive, s, op, env) == s
    ensures Plan(derive, s, op, env).ok
      <==> (op.RecordInstall? || op.RecordAgent? || op.RecordExport? || op.RecordHooks? || op.RecordAgentHooks?
            || op.RecordSyntext? || op.HooksUninstall? || op.AgentUninstall? || op.Uninstall? || op.UninstallProgress?)
  {}

  /** A registry file that cannot be read or written makes every operation fail that would have used it. */
  lemma UnreadableFails(derive: Derive, s: State, op: Op, env: Env)
    requires env.home && !env.loads && !(op.RecordSyntext? && !op.added)
    ensures Next(derive, s, op, env) == s && !Plan(derive, s, op, env).ok
  {}
}
