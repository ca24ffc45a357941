/** The registry operations as they change the file: load, edit the rows, check the identity file, save. */
module RegistryFile {
  import opened Options
  import opened Whitespace
  import opened ProjectRows
  import opened Relocation
  import opened Registry

  /** `for` each new record: replace the one with the same key, or append. */
  method UpsertAll<T>(s: seq<T>, key: T -> string, xs: seq<T>) returns (r: seq<T>)
    ensures r == PutAll(s, key, xs)
  {
    r := s;
    for k := 0 to |xs|
      invariant r == PutAll(s, key, xs[..k])
    {
      assert xs[..k + 1][..k] == xs[..k];
      var j := FindKey(r, key, key(xs[k]));
      if j < |r| { r := r[j := xs[k]]; } else { r := r + [xs[k]]; }
    }
    assert xs[..|xs|] == xs;
  }

  method Clear(row: Entry, p: Progress) returns (cleared: Entry)
    ensures cleared == Cleared(row, p)
  {
    cleared := row.(agents := Without(row.agents, ToolOf, p.tools));
    cleared := cleared.(hooks := Without(row.hooks, NameOf, p.hooks));
    cleared := cleared.(agentHooks := Without(row.agentHooks, HookToolOf, p.hookTools));
    if p.rootRemoved { cleared := cleared.(rootIgnored := false); }
    if p.syntextRemoved { cleared := cleared.(syntextIgnored := false); }
    if p.exportRemoved { cleared := cleared.(exportIgnored := false, exportLine := None); }
  }

  class ProjectRegistry {
    const derive: Derive
    var projects: seq<Entry>
    var markers: Markers

    constructor (derive: Derive)
      ensures this.derive == derive && projects == [] && markers == map[]
      ensures NeverEmpty(derive) ==> Valid()
    {
      this.derive := derive;
      projects, markers := [], map[];
    }

    ghost function Now(): State
      reads this
    {
      State(projects, markers)
    }

    /** Paths are distinct, and so are the records inside each row by their keys. A file written by hand need not be
        valid; a valid one stays valid. */
    ghost predicate Valid()
      reads this
    {
      NeverEmpty(derive) && Good(projects)
    }

    /** `save_to`, an atomic write: all rows or none. */
    method Save(rows: seq<Entry>, env: Env) returns (ok: bool)
      modifies this`projects
      ensures ok == env.saves && projects == if env.saves then rows else old(projects)
    {
      if env.saves { projects := rows; }
      ok := env.saves;
    }

    method WriteIdentity(row: Entry, env: Env) returns (ok: bool)
      modifies this`markers
      ensures var m := Identified(derive, row, old(markers), env);
        ok == m.Some? && markers == if m.Some? then m.value else old(markers)
    {
      if row.path !in env.initialized { return true; }
      if !env.identityIo { return false; }
      if row.path in markers { return markers[row.path] == EffectiveId(derive, row); }
      markers := markers[row.path := EffectiveId(derive, row)];
      ok := true;
    }

    /** Writes the identity file, then the rows with `row` put in place. */
    method SaveIdentified(row: Entry, rows: seq<Entry>, env: Env) returns (ok: bool)
      requires rows == Perform(projects, PutRow(projects, row))
      modifies this
      ensures var o := PlanIdentified(derive, old(Now()), row, env);
        ok == o.ok && Now() == State(Perform(old(projects), o.change), o.markers)
    {
      ok := WriteIdentity(row, env);
      if ok { ok := Save(rows, env); }
    }

    /** The rows with one for this path, its ID made explicit, and where it is. */
    method Locate(path: Path, env: Env) returns (rows: seq<Entry>, i: nat)
      ensures i == Find(projects, path) && i < |rows| && rows[i] == RowFor(derive, projects, path, env.now)
      ensures forall row: Entry :: row.path == path ==> rows[i := row] == Perform(projects, PutRow(projects, row))
    {
      rows, i := projects, Find(projects, path);
      if i < |rows| {
        rows := rows[i := Ensured(derive, rows[i])];
      } else {
        rows := rows + [Fresh(derive, path, env.now)];
      }
    }

    method RecordProject(path: Path, env: Env) returns (ok: bool)
      modifies this
      ensures Now() == Next(derive, old(Now()), Op.RecordProject(path), env)
      ensures ok == Plan(derive, old(Now()), Op.RecordProject(path), env).ok
      ensures old(Valid()) ==> Valid() && AllCarried(derive, old(projects), projects)
    {
      NextKeeps(derive, Now(), Op.RecordProject(path), env);
      if !env.home || !env.loads { return false; }
      var rows, i := Locate(path, env);
      var row := rows[i].(lastOpened := Some(env.now));
      ok := SaveIdentified(row, rows[i := row], env);
    }

    method RecordInstall(path: Path, rootAdded: bool, env: Env) returns (ok: bool)
      modifies this
      ensures Now() == Next(derive, old(Now()), Op.RecordInstall(path, rootAdded), env)
      ensures ok == Plan(derive, old(Now()), Op.RecordInstall(path, rootAdded), env).ok
      ensures old(Valid()) ==> Valid() && AllCarried(derive, old(projects), projects)
    {
      NextKeeps(derive, Now(), Op.RecordInstall(path, rootAdded), env);
      if !env.home { return true; }
      if !env.loads { return false; }
      var rows, i := Locate(path, env);
      var row := rows[i].(rootIgnored := rows[i].rootIgnored || rootAdded);
      ok := SaveIdentified(row, rows[i := row], env);
    }

    method RecordAgent(path: Path, agent: Agent, env: Env) returns (ok: bool)
      modifies this
      ensures Now() == Next(derive, old(Now()), Op.RecordAgent(path, agent), env)
      ensures ok == Plan(derive, old(Now()), Op.RecordAgent(path, agent), env).ok
      ensures old(Valid()) ==> Valid() && AllCarried(derive, old(projects), projects)
    {
      NextKeeps(derive, Now(), Op.RecordAgent(path, agent), env);
      if !env.home { return true; }
      if !env.loads { return false; }
      var rows, i := Locate(path, env);
      var agents := rows[i].agents;
      var j := FindKey(agents, ToolOf, agent.tool);
      if j < |agents| { agents := agents[j := agent]; } else { agents := agents + [agent]; }
      ok := Save(rows[i := rows[i].(agents := agents)], env);
    }

    method RecordHooks(path: Path, hooks: seq<Hook>, env: Env) returns (ok: bool)
      modifies this
      ensures Now() == Next(derive, old(Now()), Op.RecordHooks(path, hooks), env)
      ensures ok == Plan(derive, old(Now()), Op.RecordHooks(path, hooks), env).ok
      ensures old(Valid()) ==> Valid() && AllCarried(derive, old(projects), projects)
    {
      NextKeeps(derive, Now(), Op.RecordHooks(path, hooks), env);
      if !env.home { return true; }
      if !env.loads { return false; }
      var rows, i := Locate(path, env);
      var recorded := UpsertAll(rows[i].hooks, NameOf, hooks);
      ok := Save(rows[i := rows[i].(hooks := recorded)], env);
    }

    method RecordAgentHooks(path: Path, hooks: seq<AgentHook>, env: Env) returns (ok: bool)
      modifies this
      ensures Now() == Next(derive, old(Now()), Op.RecordAgentHooks(path, hooks), env)
      ensures ok == Plan(derive, old(Now()), Op.RecordAgentHooks(path, hooks), env).ok
      ensures old(Valid()) ==> Valid() && AllCarried(derive, old(projects), projects)
    {
      NextKeeps(derive, Now(), Op.RecordAgentHooks(path, hooks), env);
      if !env.home { return true; }
      if !env.loads { return false; }
      var rows, i := Locate(path, env);
      var recorded := UpsertAll(rows[i].agentHooks, HookToolOf, hooks);
      ok := Save(rows[i := rows[i].(agentHooks := recorded)], env);
    }

    method RecordSyntextGitignore(path: Path, added: bool, env: Env) returns (ok: bool)
      modifies this
      ensures Now() == Next(derive, old(Now()), Op.RecordSyntext(path, added), env)
      ensures ok == Plan(derive, old(Now()), Op.RecordSyntext(path, added), env).ok
      ensures old(Valid()) ==> Valid() && AllCarried(derive, old(projects), projects)
    {
      NextKeeps(derive, Now(), Op.RecordSyntext(path, added), env);
      if !added || !env.home { return true; }
      if !env.loads { return false; }
      var rows, i := Locate(path, env);
      ok := Save(rows[i := rows[i].(syntextIgnored := true)], env);
    }

    method RecordExportGitignore(path: Path, line: string, env: Env) returns (ok: bool)
      modifies this
      ensures Now() == Next(derive, old(Now()), Op.RecordExport(path, line), env)
      ensures ok == Plan(derive, old(Now()), Op.RecordExport(path, line), env).ok
      ensures old(Valid()) ==> Valid() && AllCarried(derive, old(projects), projects)
    {
      NextKeeps(derive, Now(), Op.RecordExport(path, line), env);
      if !env.home { return true; }
      if !env.loads { return false; }
      var i := Find(projects, path);
      if i == |projects| { return true; }
      var row := Ensured(derive, projects[i]);
      row := row.(exportIgnored := true, exportLine := Some(line));
      ok := Save(projects[i := row], env);
    }

    method RemoveProject(path: Path, env: Env) returns (ok: bool)
      modifies this
      ensures Now() == Next(derive, old(Now()), Op.RemoveProject(path), env)
      ensures ok == Plan(derive, old(Now()), Op.RemoveProject(path), env).ok
      ensures old(Valid()) ==> Valid() && AllCarried(derive, old(projects), projects)
    {
      NextKeeps(derive, Now(), Op.RemoveProject(path), env);
      if !env.home || !env.loads { return false; }
      var i := Find(projects, path);
      if i == |projects| { return true; }
      SelectAllBut(projects, i);
      ok := Save(projects[..i] + projects[i + 1..], env);
    }

    method RecordHooksUninstall(path: Path, names: seq<string>, env: Env) returns (ok: bool)
      modifies this
      ensures Now() == Next(derive, old(Now()), Op.HooksUninstall(path, names), env)
      ensures ok == Plan(derive, old(Now()), Op.HooksUninstall(path, names), env).ok
      ensures old(Valid()) ==> Valid() && AllCarried(derive, old(projects), projects)
    {
      NextKeeps(derive, Now(), Op.HooksUninstall(path, names), env);
      if !env.home { return true; }
      if !env.loads { return false; }
      var i := Find(projects, path);
      if i == |projects| { return true; }
      var row := projects[i];
      ok := Save(projects[i := row.(hooks := Without(row.hooks, NameOf, names))], env);
    }

    method RecordAgentUninstall(path: Path, tool: string, env: Env) returns (ok: bool)
      modifies this
      ensures Now() == Next(derive, old(Now()), Op.AgentUninstall(path, tool), env)
      ensures ok == Plan(derive, old(Now()), Op.AgentUninstall(path, tool), env).ok
      ensures old(Valid()) ==> Valid() && AllCarried(derive, old(projects), projects)
    {
      NextKeeps(derive, Now(), Op.AgentUninstall(path, tool), env);
      if !env.home { return true; }
      if !env.loads { return false; }
      var i := Find(projects, path);
      if i == |projects| { return true; }
      var row := Ensured(derive, projects[i]);
      ok := Save(projects[i := row.(agents := Without(row.agents, ToolOf, [tool]))], env);
    }

    method RecordUninstall(path: Path, env: Env) returns (ok: bool)
      modifies this
      ensures Now() == Next(derive, old(Now()), Op.Uninstall(path), env)
      ensures ok == Plan(derive, old(Now()), Op.Uninstall(path), env).ok
      ensures old(Valid()) ==> Valid() && AllCarried(derive, old(projects), projects)
    {
      NextKeeps(derive, Now(), Op.Uninstall(path), env);
      if !env.home { return true; }
      if !env.loads { return false; }
      var kept, _ := Retain(projects, KeepOthers(projects, path));
      ok := Save(kept, env);
    }

    method RecordUninstallProgress(path: Path, p: Progress, env: Env) returns (ok: bool)
      modifies this
      ensures Now() == Next(derive, old(Now()), Op.UninstallProgress(path, p), env)
      ensures ok == Plan(derive, old(Now()), Op.UninstallProgress(path, p), env).ok
      ensures old(Valid()) ==> Valid() && AllCarried(derive, old(projects), projects)
    {
      NextKeeps(derive, Now(), Op.UninstallProgress(path, p), env);
      if !env.home { return true; }
      if !env.loads { return false; }
      var i := Find(projects, path);
      if i == |projects| { return true; }
      var row := projects[i];
      row := Clear(row, p);
      var rows := projects[i := row];
      if p.dataDeleted && Bare(row) {
        SelectAfterEdit(projects, i, row);
        var kept, _ := Retain(rows, KeepOthers(rows, path));
        rows := kept;
      }
      ok := Save(rows, env);
    }

    method Relink(selector: string, selectorPath: Option<Path>, target: Option<Path>, env: Env)
      returns (ok: bool, updated: nat)
      modifies this
      ensures Now() == Next(derive, old(Now()), Op.Relink(selector, selectorPath, target), env)
      ensures ok == Plan(derive, old(Now()), Op.Relink(selector, selectorPath, target), env).ok
      ensures old(Valid()) ==> Valid() && AllCarried(derive, old(projects), projects)
      ensures ok ==>
        var row := old(projects)[Resolve(derive, old(projects), selector, selectorPath).index];
        updated == EntryHits(row, row.path)
    {
      NextKeeps(derive, Now(), Op.Relink(selector, selectorPath, target), env);
      updated := 0;
      if !env.home || !env.loads { return false, 0; }
      var r := Resolve(derive, projects, selector, selectorPath);
      if !r.Found? || target.None? { return false, 0; }
      ok, updated := MoveRow(r.index, target.value, env);
    }

    method MoveRow(i: nat, target: Path, env: Env) returns (ok: bool, updated: nat)
      requires i < |projects|
      modifies this
      ensures var o := PlanRelink(derive, old(Now()), i, target, env);
        ok == o.ok && Now() == State(Perform(old(projects), o.change), o.markers)
      ensures ok ==> updated == EntryHits(old(projects)[i], old(projects)[i].path)
    {
      var row := projects[i];
      var from, id := row.path, EffectiveId(derive, row);
      if target !in env.configured || Find(projects, target) < |projects| || !env.identityIo { return false, 0; }
      if target in markers && markers[target] != id { return false, 0; }
      row, updated := RewriteInstallRecordPaths(row.(id := id, path := target), from);
      ok := WriteIdentity(row, env);
      if ok { ok := Save(projects[i := row], env); }
    }

    method PruneMissing(existing: set<Path>, env: Env) returns (ok: bool)
      modifies this
      ensures Now() == Next(derive, old(Now()), Op.Prune(existing), env)
      ensures ok == Plan(derive, old(Now()), Op.Prune(existing), env).ok
      ensures old(Valid()) ==> Valid() && AllCarried(derive, old(projects), projects)
    {
      NextKeeps(derive, Now(), Op.Prune(existing), env);
      if !env.home || !env.loads { return false; }
      var kept, removed := Retain(projects, KeepExisting(projects, existing));
      if removed == [] { return true; }
      ok := Save(kept, env);
    }

    method MarkOpened(selector: string, selectorPath: Option<Path>, env: Env) returns (ok: bool)
      modifies this
      ensures Now() == Next(derive, old(Now()), Op.MarkOpened(selector, selectorPath), env)
      ensures ok == Plan(derive, old(Now()), Op.MarkOpened(selector, selectorPath), env).ok
      ensures old(Valid()) ==> Valid() && AllCarried(derive, old(projects), projects)
    {
      NextKeeps(derive, Now(), Op.MarkOpened(selector, selectorPath), env);
      if !env.home || !env.loads { return false; }
      var r := Resolve(derive, projects, selector, selectorPath);
      if !r.Found? { return false; }
      var row := Ensured(derive, projects[r.index]);
      ok := Save(projects[r.index := row.(lastOpened := Some(env.now))], env);
    }

    method Rename(selector: string, selectorPath: Option<Path>, name: string, env: Env) returns (ok: bool)
      modifies this
      ensures Now() == Next(derive, old(Now()), Op.Rename(selector, selectorPath, name), env)
      ensures ok == Plan(derive, old(Now()), Op.Rename(selector, selectorPath, name), env).ok
      ensures old(Valid()) ==> Valid() && AllCarried(derive, old(projects), projects)
    {
      NextKeeps(derive, Now(), Op.Rename(selector, selectorPath, name), env);
      var trimmed := Trim(name);
      if trimmed == "" || !env.home || !env.loads { return false; }
      var r := Resolve(derive, projects, selector, selectorPath);
      if !r.Found? { return false; }
      var row := Ensured(derive, projects[r.index]);
      ok := Save(projects[r.index := row.(name := Some(trimmed))], env);
    }
  }

  /** A row that is dropped anyway may be edited first. */
  lemma SelectAfterEdit(rows: seq<Entry>, i: nat, row: Entry)
    requires i < |rows| && row.path == rows[i].path
    ensures KeepOthers(rows[i := row], row.path) == KeepOthers(rows, row.path)
    ensures Select(rows[i := row], KeepOthers(rows, row.path)) == Select(rows, KeepOthers(rows, row.path))
  {
    DroppedIsFree(rows, i, row, KeepOthers(rows, row.path));
  }

  lemma {:induction false} DroppedIsFree(rows: seq<Entry>, i: nat, row: Entry, mask: seq<bool>)
    requires i < |rows| == |mask| && !mask[i]
    ensures Select(rows[i := row], mask) == Select(rows, mask)
  {
    if i > 0 {
      DroppedIsFree(rows[1..], i - 1, row, mask[1..]);
      assert rows[i := row][1..] == rows[1..][i - 1 := row];
    } else {
      assert rows[i := row][1..] == rows[1..];
    }
  }
}
