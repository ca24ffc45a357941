/** The operations on the registry of managed projects. */
module Registry {
  // Each operation loads the file, changes a row, and saves; what the environment decides (home directory, parse
  // errors, the clock, failed writes) is a parameter. A path handed to an operation is already canonical.

  import opened Options
  import opened Whitespace
  import opened ProjectRows
  import opened Relocation

  /** `initialized` holds the directories with a `.synrepo` directory, `configured` those with a `config.toml` in it;
      `identityIo` and `saves` tell whether the identity file and the registry file can be read and written. */
  datatype Env = Env(home: bool, loads: bool, now: string, initialized: set<Path>, configured: set<Path>,
                     identityIo: bool, saves: bool)

  datatype Progress = Progress(tools: seq<string>, hooks: seq<string>, hookTools: seq<string>, rootRemoved: bool,
                               syntextRemoved: bool, exportRemoved: bool, dataDeleted: bool)

  datatype Op =
    | RecordProject(path: Path)
    | RecordInstall(path: Path, rootAdded: bool)
    | RecordAgent(path: Path, agent: Agent)
    | RecordExport(path: Path, line: string)
    | RecordHooks(path: Path, hooks: seq<Hook>)
    | RecordAgentHooks(path: Path, agentHooks: seq<AgentHook>)
    | RecordSyntext(path: Path, added: bool)
    | RemoveProject(path: Path)
    | HooksUninstall(path: Path, names: seq<string>)
    | AgentUninstall(path: Path, tool: string)
    | Uninstall(path: Path)
    | UninstallProgress(path: Path, progress: Progress)
    | Relink(selector: string, selectorPath: Option<Path>, target: Option<Path>)
    | Prune(existing: set<Path>)
    | MarkOpened(selector: string, selectorPath: Option<Path>)
    | Rename(selector: string, selectorPath: Option<Path>, name: string)

  /** What an operation does to the list of rows. `Keep` says for each row whether it stays. */
  datatype Change = Nothing | Replace(index: nat, row: Entry) | Push(row: Entry) | Keep(mask: seq<bool>)

  type Markers = map<Path, string>

  datatype State = State(projects: seq<Entry>, markers: Markers)

  datatype Outcome = Outcome(ok: bool, change: Change, markers: Markers)

  function Stays(mask: seq<bool>): nat {
    if mask == [] then 0 else (if mask[0] then 1 else 0) + Stays(mask[1..])
  }

  function Select<T>(s: seq<T>, mask: seq<bool>): (r: seq<T>)
    requires |s| == |mask|
    ensures |r| == Stays(mask)
  {
    if s == [] then [] else (if mask[0] then [s[0]] else []) + Select(s[1..], mask[1..])
  }

  predicate Fits(change: Change, n: nat) {
    (change.Replace? ==> change.index < n) && (change.Keep? ==> |change.mask| == n)
  }

  function Perform(projects: seq<Entry>, change: Change): seq<Entry>
    requires Fits(change, |projects|)
  {
    match change
    case Nothing => projects
    case Replace(i, row) => projects[i := row]
    case Push(row) => projects + [row]
    case Keep(mask) => Select(projects, mask)
  }

  // ---- what each operation does ----

  /** The row an operation works on: the existing one with its ID made explicit, or a new one. */
  function RowFor(derive: Derive, projects: seq<Entry>, path: Path, now: string): Entry {
    var i := Find(projects, path);
    if i < |projects| then Ensured(derive, projects[i]) else Fresh(derive, path, now)
  }

  predicate Records(op: Op) {
    op.RecordProject? || op.RecordInstall? || op.RecordAgent? || op.RecordHooks? || op.RecordAgentHooks?
    || op.RecordSyntext?
  }

  /** The row as a recording operation leaves it. */
  function Recorded(derive: Derive, projects: seq<Entry>, op: Op, now: string): Entry
    requires Records(op)
  {
    var row := RowFor(derive, projects, op.path, now);
    match op
    case RecordProject(_) => row.(lastOpened := Some(now))
    case RecordInstall(_, rootAdded) => row.(rootIgnored := row.rootIgnored || rootAdded)
    case RecordAgent(_, agent) => row.(agents := Put(row.agents, ToolOf, agent))
    case RecordHooks(_, hooks) => row.(hooks := PutAll(row.hooks, NameOf, hooks))
    case RecordAgentHooks(_, hooks) => row.(agentHooks := PutAll(row.agentHooks, HookToolOf, hooks))
    case RecordSyntext(_, _) => row.(syntextIgnored := true)
  }

  function PutRow(projects: seq<Entry>, row: Entry): Change {
    var i := Find(projects, row.path);
    if i < |projects| then Replace(i, row) else Push(row)
  }

  /** `write_identity_if_initialized`: an existing marker must agree, a missing one is written. */
  function Identified(derive: Derive, row: Entry, markers: Markers, env: Env): (r: Option<Markers>) {
    if row.path !in env.initialized then Some(markers)
    else if !env.identityIo then None
    else if row.path in markers then (if markers[row.path] == EffectiveId(derive, row) then Some(markers) else None)
    else Some(markers[row.path := EffectiveId(derive, row)])
  }

  function Unchanged(ok: bool, s: State): Outcome {
    Outcome(ok, Nothing, s.markers)
  }

  function Saved(change: Change, markers: Markers, env: Env): Outcome {
    if env.saves then Outcome(true, change, markers) else Outcome(false, Nothing, markers)
  }

  function Cleared(row: Entry, p: Progress): Entry {
    row.(agents := Without(row.agents, ToolOf, p.tools), hooks := Without(row.hooks, NameOf, p.hooks),
         agentHooks := Without(row.agentHooks, HookToolOf, p.hookTools),
         rootIgnored := row.rootIgnored && !p.rootRemoved,
         syntextIgnored := row.syntextIgnored && !p.syntextRemoved,
         exportIgnored := row.exportIgnored && !p.exportRemoved,
         exportLine := if p.exportRemoved then None else row.exportLine)
  }

  /** Nothing that synrepo installed is left. */
  predicate Bare(row: Entry) {
    row.agents == [] && row.hooks == [] && row.agentHooks == []
    && !row.rootIgnored && !row.syntextIgnored && !row.exportIgnored
  }

  function KeepOthers(projects: seq<Entry>, path: Path): seq<bool> {
    seq(|projects|, i requires 0 <= i < |projects| => projects[i].path != path)
  }

  function KeepExisting(projects: seq<Entry>, existing: set<Path>): seq<bool> {
    seq(|projects|, i requires 0 <= i < |projects| => projects[i].path in existing)
  }

  /** Whether the operation reports a missing home directory as an error. */
  predicate NeedsHome(op: Op) {
    op.RecordProject? || op.RemoveProject? || op.Relink? || op.Prune? || op.MarkOpened? || op.Rename?
  }

  function Plan(derive: Derive, s: State, op: Op, env: Env): (o: Outcome)
    ensures Fits(o.change, |s.projects|)
  {
    if op.RecordSyntext? && !op.added then Unchanged(true, s)
    else if op.Rename? && Trim(op.name) == "" then Unchanged(false, s)
    else if !env.home then Unchanged(!NeedsHome(op), s)
    else if !env.loads then Unchanged(false, s)
    else if Records(op) then
      var row := Recorded(derive, s.projects, op, env.now);
      if op.RecordProject? || op.RecordInstall? then PlanIdentified(derive, s, row, env)
      else Saved(PutRow(s.projects, row), s.markers, env)
    else if OnlyKnown(op) then
      var i := Find(s.projects, op.path);
      if i == |s.projects| then Unchanged(true, s)
      else Saved(PlanKnown(derive, s.projects, i, op), s.markers, env)
    else if op.Uninstall? then Saved(Keep(KeepOthers(s.projects, op.path)), s.markers, env)
    else if op.Prune? then
      var mask := KeepExisting(s.projects, op.existing);
      if false !in mask then Unchanged(true, s) else Saved(Keep(mask), s.markers, env)
    else
      var r := Resolve(derive, s.projects, op.selector, op.selectorPath);
      if !r.Found? then Unchanged(false, s) else PlanSelected(derive, s, r.index, op, env)
  }

  /** The operations on the row a selector found. */
  function PlanSelected(derive: Derive, s: State, i: nat, op: Op, env: Env): (o: Outcome)
    requires op.Relink? || op.MarkOpened? || op.Rename?
    requires i < |s.projects|
    ensures Fits(o.change, |s.projects|)
  {
    if op.Relink? then
      if op.target.None? then Unchanged(false, s) else PlanRelink(derive, s, i, op.target.value, env)
    else if op.MarkOpened? then
      Saved(Replace(i, Ensured(derive, s.projects[i]).(lastOpened := Some(env.now))), s.markers, env)
    else
      Saved(Replace(i, Ensured(derive, s.projects[i]).(name := Some(Trim(op.name)))), s.markers, env)
  }

  predicate OnlyKnown(op: Op) {
    op.RecordExport? || op.RemoveProject? || op.HooksUninstall? || op.AgentUninstall? || op.UninstallProgress?
  }

  /** The operations that pass over a path without a row. */
  function PlanKnown(derive: Derive, projects: seq<Entry>, i: nat, op: Op): (c: Change)
    requires OnlyKnown(op) && i < |projects|
    ensures Fits(c, |projects|)
  {
    var row := projects[i];
    match op
    case RecordExport(_, line) =>
      Replace(i, Ensured(derive, row).(exportIgnored := true, exportLine := Some(line)))
    case HooksUninstall(_, names) => Replace(i, row.(hooks := Without(row.hooks, NameOf, names)))
    case AgentUninstall(_, tool) =>
      Replace(i, Ensured(derive, row).(agents := Without(row.agents, ToolOf, [tool])))
    case UninstallProgress(path, p) =>
      if p.dataDeleted && Bare(Cleared(row, p)) then Keep(KeepOthers(projects, path)) else Replace(i, Cleared(row, p))
    case _ => Keep(seq(|projects|, j => j != i))
  }

  function PlanIdentified(derive: Derive, s: State, row: Entry, env: Env): (o: Outcome)
    ensures Fits(o.change, |s.projects|)
  {
    var markers := Identified(derive, row, s.markers, env);
    if markers.None? then Unchanged(false, s) else Saved(PutRow(s.projects, row), markers.value, env)
  }

  function PlanRelink(derive: Derive, s: State, i: nat, target: Path, env: Env): (o: Outcome)
    requires i < |s.projects|
    ensures Fits(o.change, |s.projects|)
  {
    var e := s.projects[i];
    var id := EffectiveId(derive, e);
    if target !in env.configured || Find(s.projects, target) < |s.projects| || !env.identityIo then Unchanged(false, s)
    else if target in s.markers && s.markers[target] != id then Unchanged(false, s)
    else
      var row := MovedEntry(e.(id := id, path := target), e.path);
      var markers := Identified(derive, row, s.markers, env);
      if markers.None? then Unchanged(false, s) else Saved(Replace(i, row), markers.value, env)
  }

  function Next(derive: Derive, s: State, op: Op, env: Env): State {
    var o := Plan(derive, s, op, env);
    State(Perform(s.projects, o.change), o.markers)
  }

  // ---- selection ----

  lemma {:induction false} SelectStep<T>(s: seq<T>, mask: seq<bool>, i: nat)
    requires i < |s| == |mask|
    ensures Select(s[..i + 1], mask[..i + 1]) == Select(s[..i], mask[..i]) + if mask[i] then [s[i]] else []
  {
    if i > 0 {
      SelectStep(s[1..], mask[1..], i - 1);
      assert s[..i + 1][1..] == s[1..][..i] && s[..i][1..] == s[1..][..i - 1];
      assert mask[..i + 1][1..] == mask[1..][..i] && mask[..i][1..] == mask[1..][..i - 1];
    }
  }

  lemma {:induction false} SelectAllBut<T>(s: seq<T>, i: nat)
    requires i < |s|
    ensures Select(s, seq(|s|, j => j != i)) == s[..i] + s[i + 1..]
  {
    var mask := seq(|s|, j => j != i);
    if i == 0 {
      SelectAll(s[1..], mask[1..]);
    } else {
      SelectAllBut(s[1..], i - 1);
      assert mask[1..] == seq(|s| - 1, j => j != i - 1);
    }
  }

  lemma {:induction false} SelectAll<T>(s: seq<T>, mask: seq<bool>)
    requires |s| == |mask| && false !in mask
    ensures Select(s, mask) == s
  {
    if s != [] { SelectAll(s[1..], mask[1..]); }
  }

  method Retain(rows: seq<Entry>, mask: seq<bool>) returns (kept: seq<Entry>, removed: seq<Entry>)
    requires |rows| == |mask|
    ensures kept == Select(rows, mask)
    ensures removed == [] <==> false !in mask
  {
    kept, removed := [], [];
    for i := 0 to |rows|
      invariant kept == Select(rows[..i], mask[..i])
      invariant removed == [] <==> false !in mask[..i]
    {
      SelectStep(rows, mask, i);
      if mask[i] { kept := kept + [rows[i]]; } else { removed := removed + [rows[i]]; }
      assert mask[..i + 1] == mask[..i] + [mask[i]];
    }
    assert rows[..|rows|] == rows && mask[..|rows|] == mask;
  }

  // ---- what every operation keeps ----

  predicate SameIdentity(derive: Derive, a: Entry, b: Entry) {
    EffectiveId(derive, a) == EffectiveId(derive, b) && a.initializedAt == b.initializedAt
  }

  predicate NewPath(projects: seq<Entry>, path: Path) {
    forall e :: e in projects ==> e.path != path
  }

  /** A change that keeps identities, distinct paths and distinct records. */
  predicate Sound(derive: Derive, projects: seq<Entry>, change: Change) {
    && Fits(change, |projects|)
    && match change
       case Replace(i, row) =>
         && SameIdentity(derive, projects[i], row) && RowOk(row)
         && (row.path == projects[i].path || NewPath(projects, row.path))
       case Push(row) => NewPath(projects, row.path) && RowOk(row) && row.id == derive(row.path)
       case _ => true
  }

  lemma FindNew(projects: seq<Entry>, path: Path)
    ensures Find(projects, path) == |projects| <==> NewPath(projects, path)
  {
    if Find(projects, path) == |projects| {
      forall e | e in projects ensures e.path != path {
        var j :| 0 <= j < |projects| && projects[j] == e;
      }
    } else {
      assert projects[Find(projects, path)] in projects;
    }
  }

  /** Putting back an edited `RowFor` is sound whatever was edited but identity and path. */
  lemma PutRowSound(derive: Derive, projects: seq<Entry>, path: Path, now: string, row: Entry)
    requires NeverEmpty(derive) && Good(projects)
    requires var base := RowFor(derive, projects, path, now);
      row.id == base.id && row.path == base.path && row.initializedAt == base.initializedAt
    requires RowOk(row)
    ensures Sound(derive, projects, PutRow(projects, row))
  {
    FindNew(projects, path);
  }

  lemma RowForOk(derive: Derive, projects: seq<Entry>, path: Path, now: string)
    requires Good(projects)
    ensures RowOk(RowFor(derive, projects, path, now))
  {
    var i := Find(projects, path);
    if i < |projects| { assert projects[i] in projects; }
  }

  lemma MovedRowOk(e: Entry, from: Path)
    requires RowOk(e)
    ensures RowOk(MovedEntry(e, from))
  {
    var m := MovedEntry(e, from);
    assert forall i :: 0 <= i < |e.agents| ==> ToolOf(m.agents[i]) == ToolOf(e.agents[i]);
    assert forall i :: 0 <= i < |e.hooks| ==> NameOf(m.hooks[i]) == NameOf(e.hooks[i]);
    assert forall i :: 0 <= i < |e.agentHooks| ==> HookToolOf(m.agentHooks[i]) == HookToolOf(e.agentHooks[i]);
  }

  lemma ClearedRowOk(e: Entry, p: Progress)
    requires RowOk(e)
    ensures RowOk(Cleared(e, p))
  {
    WithoutDistinct(e.agents, ToolOf, p.tools);
    WithoutDistinct(e.hooks, NameOf, p.hooks);
    WithoutDistinct(e.agentHooks, HookToolOf, p.hookTools);
  }

  lemma KnownSound(derive: Derive, projects: seq<Entry>, i: nat, op: Op)
    requires NeverEmpty(derive) && Good(projects) && OnlyKnown(op) && i < |projects|
    ensures Sound(derive, projects, PlanKnown(derive, projects, i, op))
  {
    var row := projects[i];
    assert row in projects;
    match op
    case HooksUninstall(_, names) => WithoutDistinct(row.hooks, NameOf, names);
    case AgentUninstall(_, tool) => WithoutDistinct(row.agents, ToolOf, [tool]);
    case UninstallProgress(_, p) => ClearedRowOk(row, p);
    case _ =>
  }

  lemma RelinkSound(derive: Derive, s: State, i: nat, target: Path, env: Env)
    requires NeverEmpty(derive) && Good(s.projects) && i < |s.projects|
    ensures Sound(derive, s.projects, PlanRelink(derive, s, i, target, env).change)
  {
    var e := s.projects[i];
    assert e in s.projects;
    FindNew(s.projects, target);
    MovedRowOk(e.(id := EffectiveId(derive, e), path := target), e.path);
  }

  /** Every operation, in every environment, makes a sound change. */
  lemma PlanSound(derive: Derive, s: State, op: Op, env: Env)
    requires NeverEmpty(derive) && Good(s.projects)
    ensures Sound(derive, s.projects, Plan(derive, s, op, env).change)
  {
    if Plan(derive, s, op, env).change.Nothing? {
    } else if Records(op) {
      RecordSound(derive, s, op, env);
    } else if OnlyKnown(op) {
      KnownSound(derive, s.projects, Find(s.projects, op.path), op);
    } else if op.Relink? {
      RelinkSound(derive, s, Resolve(derive, s.projects, op.selector, op.selectorPath).index, op.target.value, env);
    } else if op.MarkOpened? || op.Rename? {
      assert s.projects[Resolve(derive, s.projects, op.selector, op.selectorPath).index] in s.projects;
    }
  }

  lemma RecordedOk(derive: Derive, projects: seq<Entry>, op: Op, now: string)
    requires NeverEmpty(derive) && Good(projects) && Records(op)
    ensures RowOk(Recorded(derive, projects, op, now))
  {
    var row := RowFor(derive, projects, op.path, now);
    RowForOk(derive, projects, op.path, now);
    match op
    case RecordAgent(_, agent) => PutLaws(row.agents, ToolOf, agent);
    case RecordHooks(_, hooks) => PutAllDistinct(row.hooks, NameOf, hooks);
    case RecordAgentHooks(_, hooks) => PutAllDistinct(row.agentHooks, HookToolOf, hooks);
    case _ =>
  }

  lemma RecordSound(derive: Derive, s: State, op: Op, env: Env)
    requires NeverEmpty(derive) && Good(s.projects) && Records(op)
    ensures Sound(derive, s.projects, Plan(derive, s, op, env).change)
  {
    var row := Recorded(derive, s.projects, op, env.now);
    RecordedOk(derive, s.projects, op, env.now);
    PutRowSound(derive, s.projects, op.path, env.now, row);
  }

  lemma {:induction false} SelectGood(projects: seq<Entry>, mask: seq<bool>)
    requires Good(projects) && |projects| == |mask|
    ensures Good(Select(projects, mask)) && forall e :: e in Select(projects, mask) ==> e in projects
  {
    if projects != [] {
      var rest := projects[1..];
      assert Good(rest) by { assert forall e :: e in rest ==> e in projects; }
      SelectGood(rest, mask[1..]);
      forall e | e in Select(rest, mask[1..]) ensures e.path != projects[0].path {
        assert e in rest;
        var j :| 0 <= j < |rest| && rest[j] == e;
        assert projects[j + 1] == e;
      }
    }
  }

  lemma SoundGood(derive: Derive, projects: seq<Entry>, change: Change)
    requires Good(projects) && Sound(derive, projects, change)
    ensures Good(Perform(projects, change))
  {
    match change
    case Keep(mask) => SelectGood(projects, mask);
    case Replace(i, row) =>
      assert forall j :: 0 <= j < |projects| ==> projects[j] in projects;
    case Push(row) =>
      assert forall j :: 0 <= j < |projects| ==> projects[j] in projects;
    case Nothing =>
  }

  /** The row has the identity of an earlier one, or is new at its path under the ID derived from it. */
  ghost predicate Carried(derive: Derive, before: seq<Entry>, e: Entry) {
    (exists f :: f in before && SameIdentity(derive, f, e)) || (NewPath(before, e.path) && e.id == derive(e.path))
  }

  ghost predicate AllCarried(derive: Derive, before: seq<Entry>, after: seq<Entry>) {
    forall e :: e in after ==> Carried(derive, before, e)
  }

  lemma SoundCarries(derive: Derive, projects: seq<Entry>, change: Change)
    requires Good(projects) && Sound(derive, projects, change)
    ensures AllCarried(derive, projects, Perform(projects, change))
  {
    var after := Perform(projects, change);
    if change.Keep? { SelectGood(projects, change.mask); }
    forall e | e in after ensures Carried(derive, projects, e) {
      if e in projects {
        assert SameIdentity(derive, e, e);
      } else if change.Replace? {
        assert e == change.row && projects[change.index] in projects;
      } else {
        assert e == change.row;
      }
    }
  }

  /** What every operation keeps, in every environment. */
  lemma NextKeeps(derive: Derive, s: State, op: Op, env: Env)
    ensures NeverEmpty(derive) && Good(s.projects) ==>
      Good(Next(derive, s, op, env).projects) && AllCarried(derive, s.projects, Next(derive, s, op, env).projects)
  {
    if NeverEmpty(derive) && Good(s.projects) {
      var change := Plan(derive, s, op, env).change;
      PlanSound(derive, s, op, env);
      SoundGood(derive, s.projects, change);
      SoundCarries(derive, s.projects, change);
    }
  }

  // ---- runs, with the rows numbered in the order in which they were first recorded ----

  /** `births[i]` is the number of row `i`; numbers from `next` on are unused. */
  datatype Tracked = Tracked(state: State, births: seq<int>, next: int)

  predicate Numbered(t: Tracked) {
    && |t.births| == |t.state.projects|
    && AllBelow(t.births, t.next)
    && Different(t.births)
  }

  /** An operation, or the outside world touching the identity files (a directory is moved, say). */
  datatype Event = Call(op: Op, env: Env) | Elsewhere(markers: Markers)

  function BirthsAfter(births: seq<int>, next: int, change: Change): seq<int>
    requires Fits(change, |births|)
  {
    match change
    case Push(_) => births + [next]
    case Keep(mask) => Select(births, mask)
    case _ => births
  }

  function Step(derive: Derive, t: Tracked, event: Event): (u: Tracked)
    requires |t.births| == |t.state.projects|
    ensures |u.births| == |u.state.projects|
  {
    match event
    case Elsewhere(markers) => t.(state := t.state.(markers := markers))
    case Call(op, env) =>
      var change := Plan(derive, t.state, op, env).change;
      Tracked(Next(derive, t.state, op, env), BirthsAfter(t.births, t.next, change),
              if change.Push? then t.next + 1 else t.next)
  }

  /** Row `j` of `u` is row `i` of `t`. */
  ghost predicate IsRow(derive: Derive, t: Tracked, i: nat, u: Tracked, j: nat)
    requires Numbered(t) && Numbered(u)
  {
    i < |t.births| && j < |u.births| && t.births[i] == u.births[j]
    && SameIdentity(derive, t.state.projects[i], u.state.projects[j])
  }

  /** Every row of `u` older than `t.next` is a row of `t`, with the same identity. */
  ghost predicate Carries(derive: Derive, t: Tracked, u: Tracked)
    requires Numbered(t) && Numbered(u)
  {
    t.next <= u.next
    && forall j :: 0 <= j < |u.births| && u.births[j] < t.next ==> exists i :: IsRow(derive, t, i, u, j)
  }

  predicate Different(s: seq<int>) {
    forall i, j :: 0 <= i < j < |s| ==> s[i] != s[j]
  }

  lemma DifferentCons(x: int, rest: seq<int>)
    ensures Different([x] + rest) <==> Different(rest) && x !in rest
  {
    var s := [x] + rest;
    assert s[0] == x && forall i :: 0 <= i < |rest| ==> s[i + 1] == rest[i];
    if Different(s) {
      forall i, j | 0 <= i < j < |rest| ensures rest[i] != rest[j] {
        assert rest[i] == s[i + 1] && rest[j] == s[j + 1];
      }
    }
  }

  lemma {:induction false} SelectNumbers(births: seq<int>, mask: seq<bool>)
    requires |births| == |mask| && Different(births)
    ensures Different(Select(births, mask)) && forall b :: b in Select(births, mask) ==> b in births
  {
    if births != [] {
      var rest, later := births[1..], Select(births[1..], mask[1..]);
      assert births == [births[0]] + rest;
      DifferentCons(births[0], rest);
      SelectNumbers(rest, mask[1..]);
      DifferentCons(births[0], later);
      assert Select(births, mask) == if mask[0] then [births[0]] + later else later;
    }
  }

  /** Rows and their numbers are selected alike. */
  lemma {:induction false} SelectTogether(projects: seq<Entry>, births: seq<int>, mask: seq<bool>, j: nat)
      returns (i: nat)
    requires |projects| == |births| == |mask| && j < |Select(births, mask)|
    ensures |Select(projects, mask)| == |Select(births, mask)| && i < |births|
    ensures births[i] == Select(births, mask)[j] && projects[i] == Select(projects, mask)[j]
  {
    if mask[0] && j == 0 {
      i := 0;
    } else {
      i := SelectTogether(projects[1..], births[1..], mask[1..], if mask[0] then j - 1 else j);
      i := i + 1;
    }
  }

  predicate AllBelow(births: seq<int>, next: int) {
    forall b :: b in births ==> b < next
  }

  lemma BirthsNumbered(births: seq<int>, next: int, change: Change)
    requires Different(births) && AllBelow(births, next) && Fits(change, |births|)
    ensures Different(BirthsAfter(births, next, change))
    ensures AllBelow(BirthsAfter(births, next, change), if change.Push? then next + 1 else next)
  {
    if change.Keep? {
      SelectNumbers(births, change.mask);
    } else if change.Push? {
      assert forall i :: 0 <= i < |births| ==> births[i] in births;
    }
  }

  /** One event carries every row over: nobody's identity changes, and new rows get new numbers. */
  lemma StepCarries(derive: Derive, t: Tracked, event: Event)
    requires NeverEmpty(derive) && Numbered(t) && Good(t.state.projects)
    ensures Numbered(Step(derive, t, event)) && Good(Step(derive, t, event).state.projects)
    ensures Carries(derive, t, Step(derive, t, event))
  {
    var u := Step(derive, t, event);
    if event.Call? { BirthsNumbered(t.births, t.next, Plan(derive, t.state, event.op, event.env).change); }
    if event.Elsewhere? {
      SameCarries(derive, t, u);
    } else {
      var change := Plan(derive, t.state, event.op, event.env).change;
      PlanSound(derive, t.state, event.op, event.env);
      SoundGood(derive, t.state.projects, change);
      ChangeCarries(derive, t, change, u);
    }
  }

  lemma ChangeCarries(derive: Derive, t: Tracked, change: Change, u: Tracked)
    requires Numbered(t) && Numbered(u) && Sound(derive, t.state.projects, change)
    requires u.state.projects == Perform(t.state.projects, change)
    requires u.births == BirthsAfter(t.births, t.next, change)
    requires u.next == if change.Push? then t.next + 1 else t.next
    ensures Carries(derive, t, u)
  {
    forall j | 0 <= j < |u.births| && u.births[j] < t.next ensures exists i :: IsRow(derive, t, i, u, j) {
      if change.Keep? {
        var i := SelectTogether(t.state.projects, t.births, change.mask, j);
        assert IsRow(derive, t, i, u, j);
      } else {
        assert IsRow(derive, t, j, u, j);
      }
    }
  }

  lemma SameCarries(derive: Derive, t: Tracked, u: Tracked)
    requires Numbered(t) && Numbered(u)
    requires u.state.projects == t.state.projects && u.births == t.births && u.next == t.next
    ensures Carries(derive, t, u)
  {
    forall j | 0 <= j < |u.births| && u.births[j] < t.next ensures exists i :: IsRow(derive, t, i, u, j) {
      assert IsRow(derive, t, j, u, j);
    }
  }

  lemma CarriesOn(derive: Derive, t: Tracked, u: Tracked, v: Tracked)
    requires Numbered(t) && Numbered(u) && Numbered(v) && Carries(derive, t, u) && Carries(derive, u, v)
    ensures Carries(derive, t, v)
  {
    forall j | 0 <= j < |v.births| && v.births[j] < t.next ensures exists i :: IsRow(derive, t, i, v, j) {
      var k :| IsRow(derive, u, k, v, j);
      var i :| IsRow(derive, t, i, u, k);
      assert IsRow(derive, t, i, v, j);
    }
  }

  function Run(derive: Derive, t: Tracked, events: seq<Event>): Tracked
    requires |t.births| == |t.state.projects|
    decreases events
  {
    if events == [] then t else Run(derive, Step(derive, t, events[0]), events[1..])
  }

  lemma {:induction false} RunCarries(derive: Derive, t: Tracked, events: seq<Event>)
    requires NeverEmpty(derive) && Numbered(t) && Good(t.state.projects)
    ensures var u := Run(derive, t, events); Numbered(u) && Good(u.state.projects) && Carries(derive, t, u)
    decreases events
  {
    if events == [] {
      SameCarries(derive, t, t);
    } else {
      var s := Step(derive, t, events[0]);
      StepCarries(derive, t, events[0]);
      RunCarries(derive, s, events[1..]);
      CarriesOn(derive, t, s, Run(derive, s, events[1..]));
    }
  }

  lemma SameNumberSameRow(derive: Derive, t: Tracked, u: Tracked, i: nat, j: nat)
    requires Numbered(t) && Numbered(u) && Carries(derive, t, u)
    requires i < |t.births| && j < |u.births| && t.births[i] == u.births[j]
    ensures SameIdentity(derive, t.state.projects[i], u.state.projects[j])
  {
    assert t.births[i] in t.births;
    var k :| IsRow(derive, t, k, u, j);
    assert k == i;
  }

  /** Over every run, from any well-formed registry: paths stay pairwise distinct, records stay distinct by key inside
      each row, and a row that survives keeps its effective ID and its first-seen time, through relinks as well. */
  lemma IdentityIsStable(derive: Derive, t: Tracked, events: seq<Event>, i: nat, j: nat)
    requires NeverEmpty(derive) && Numbered(t) && Good(t.state.projects)
    ensures var u := Run(derive, t, events);
      && Numbered(u) && Good(u.state.projects)
      && (i < |t.births| && j < |u.births| && t.births[i] == u.births[j]
          ==> SameIdentity(derive, t.state.projects[i], u.state.projects[j]))
  {
    var u := Run(derive, t, events);
    RunCarries(derive, t, events);
    if i < |t.births| && j < |u.births| && t.births[i] == u.births[j] { SameNumberSameRow(derive, t, u, i, j); }
  }

  // ---- errors, identity files ----

  /** An operation that fails, or that cannot save, leaves every row alone. */
  lemma FailureChangesNothing(derive: Derive, s: State, op: Op, env: Env)
    requires !Plan(derive, s, op, env).ok || !env.saves
    ensures Next(derive, s, op, env).projects == s.projects
  {}

  predicate MarkersKept(before: Markers, after: Markers) {
    forall p :: p in before ==> p in after && after[p] == before[p]
  }

  lemma IdentifiedKeeps(derive: Derive, s: State, row: Entry, env: Env)
    ensures MarkersKept(s.markers, PlanIdentified(derive, s, row, env).markers)
  {}

  lemma RelinkKeeps(derive: Derive, s: State, i: nat, target: Path, env: Env)
    requires i < |s.projects|
    ensures MarkersKept(s.markers, PlanRelink(derive, s, i, target, env).markers)
  {}

  /** No operation overwrites an identity file. */
  lemma MarkersStay(derive: Derive, s: State, op: Op, env: Env)
    ensures MarkersKept(s.markers, Next(derive, s, op, env).markers)
  {
    if op.RecordProject? || op.RecordInstall? {
      IdentifiedKeeps(derive, s, Recorded(derive, s.projects, op, env.now), env);
    } else if op.Relink? {
      var r := Resolve(derive, s.projects, op.selector, op.selectorPath);
      if r.Found? && op.target.Some? { RelinkKeeps(derive, s, r.index, op.target.value, env); }
    }
  }

  /** After a successful registration of an initialised directory its identity file agrees with its row. */
  lemma MarkerAgrees(derive: Derive, s: State, op: Op, env: Env)
    requires op.RecordProject? || op.RecordInstall?
    requires env.home && Plan(derive, s, op, env).ok && op.path in env.initialized
    ensures var after := Next(derive, s, op, env);
      var i := Find(after.projects, op.path);
      i < |after.projects| && op.path in after.markers
      && after.markers[op.path] == EffectiveId(derive, after.projects[i])
  {
    var row := Recorded(derive, s.projects, op, env.now);
    var after, i := Next(derive, s, op, env), Find(s.projects, op.path);
    assert row.path == op.path && Plan(derive, s, op, env) == PlanIdentified(derive, s, row, env);
    assert after.projects[i] == row;
    assert Find(after.projects, op.path) == i;
  }

  // ---- are IDs unique? ----

  predicate IdsDistinct(derive: Derive, projects: seq<Entry>) {
    forall i, j :: 0 <= i < j < |projects|
      ==> EffectiveId(derive, projects[i]) != EffectiveId(derive, projects[j])
  }

  predicate Holds(derive: Derive, projects: seq<Entry>, id: string) {
    exists e :: e in projects && EffectiveId(derive, e) == id
  }

  lemma {:induction false} SelectIds(derive: Derive, projects: seq<Entry>, mask: seq<bool>)
    requires IdsDistinct(derive, projects) && |projects| == |mask|
    ensures IdsDistinct(derive, Select(projects, mask))
    ensures forall e :: e in Select(projects, mask) ==> e in projects
  {
    if projects != [] {
      var rest := projects[1..];
      SelectIds(derive, rest, mask[1..]);
      forall e | e in Select(rest, mask[1..])
        ensures EffectiveId(derive, e) != EffectiveId(derive, projects[0]) && e in projects
      {
        assert e in rest;
        var j :| 0 <= j < |rest| && rest[j] == e;
        assert projects[j + 1] == e;
      }
    }
  }

  predicate Works(env: Env) {
    env.home && env.loads && env.saves
  }

  /** A recording operation on a path without a row reaches its save: files can be read and written, an ignore line
      was really added, and the identity file of an initialised directory is missing or agrees. */
  predicate Proceeds(derive: Derive, s: State, op: Op, env: Env)
    requires Records(op)
  {
    && Works(env)
    && (op.RecordSyntext? ==> op.added)
    && ((op.RecordProject? || op.RecordInstall?) && op.path in env.initialized ==>
          env.identityIo && (op.path in s.markers ==> s.markers[op.path] == derive(op.path)))
  }

  lemma RecordPushesIff(derive: Derive, s: State, op: Op, env: Env)
    requires NeverEmpty(derive) && Records(op)
    ensures var change := Plan(derive, s, op, env).change;
      && (change.Push? <==> Find(s.projects, op.path) == |s.projects| && Proceeds(derive, s, op, env))
      && (change.Push? ==> change.row.path == op.path && EffectiveId(derive, change.row) == derive(op.path))
  {
    var row := Recorded(derive, s.projects, op, env.now);
    assert row.path == op.path;
    if op.RecordProject? || op.RecordInstall? { IdentifiedPushesIff(derive, s, row, env); }
  }

  lemma IdentifiedPushesIff(derive: Derive, s: State, row: Entry, env: Env)
    ensures var change := PlanIdentified(derive, s, row, env).change;
      && (change.Push? <==> Find(s.projects, row.path) == |s.projects| && env.saves
                            && Identified(derive, row, s.markers, env).Some?)
      && (change.Push? ==> change.row == row)
  {}

  /** A row is added exactly by a recording operation that proceeds on a path without a row. */
  lemma PushesIff(derive: Derive, s: State, op: Op, env: Env)
    requires NeverEmpty(derive)
    ensures var change := Plan(derive, s, op, env).change;
      && (change.Push? <==> Records(op) && Find(s.projects, op.path) == |s.projects| && Proceeds(derive, s, op, env))
      && (change.Push? ==> change.row.path == op.path && EffectiveId(derive, change.row) == derive(op.path))
  {
    if Records(op) { RecordPushesIff(derive, s, op, env); }
  }

  lemma DistinctAfterPush(derive: Derive, projects: seq<Entry>, row: Entry)
    requires IdsDistinct(derive, projects)
    ensures IdsDistinct(derive, projects + [row]) <==> !Holds(derive, projects, EffectiveId(derive, row))
  {
    var after, n := projects + [row], |projects|;
    if IdsDistinct(derive, after) {
      forall e | e in projects ensures EffectiveId(derive, e) != EffectiveId(derive, row) {
        var j :| 0 <= j < n && projects[j] == e;
        assert after[j] == e && after[n] == row;
      }
    } else {
      var i, j :| 0 <= i < j < |after| && EffectiveId(derive, after[i]) == EffectiveId(derive, after[j]);
      assert j == n && after[i] in projects;
    }
  }

  /** Distinct IDs stay distinct exactly unless a recording operation proceeds on a path that has no row and whose
      derived ID another row already holds. */
  lemma IdsStayDistinctIff(derive: Derive, s: State, op: Op, env: Env)
    requires NeverEmpty(derive) && Good(s.projects) && IdsDistinct(derive, s.projects)
    ensures IdsDistinct(derive, Next(derive, s, op, env).projects)
      <==> !(Records(op) && Find(s.projects, op.path) == |s.projects| && Proceeds(derive, s, op, env)
             && Holds(derive, s.projects, derive(op.path)))
  {
    var change := Plan(derive, s, op, env).change;
    PlanSound(derive, s, op, env);
    PushesIff(derive, s, op, env);
    if change.Push? {
      DistinctAfterPush(derive, s.projects, change.row);
    } else if change.Keep? {
      SelectIds(derive, s.projects, change.mask);
    }
  }

  /** An environment in which everything works and these directories are set up. */
  function Fine(initialized: set<Path>): Env {
    Env(true, true, "now", initialized, initialized, true, true)
  }

  lemma FirstProject(derive: Derive, path: Path, env: Env)
    requires NeverEmpty(derive) && Works(env) && env.identityIo && path in env.initialized
    ensures var s := Next(derive, State([], map[]), RecordProject(path), env);
      && s == State([Fresh(derive, path, env.now).(lastOpened := Some(env.now))], map[path := derive(path)])
      && Resolve(derive, s.projects, derive(path), None) == Found(0)
  {
    var s := Next(derive, State([], map[]), RecordProject(path), env);
    assert s.projects == [Fresh(derive, path, env.now).(lastOpened := Some(env.now))];
    assert s.markers == map[path := derive(path)];
  }

  /** And they do collide: register an initialised project, relink it to another initialised directory, register its
      old path again. Both rows have the same ID, which from then on finds the relinked project. */
  lemma RelinkThenRegisterCollides(derive: Derive, from: Path, target: Path)
    requires NeverEmpty(derive) && from != target
    ensures var env := Fine({from, target});
      var s1 := Next(derive, State([], map[]), RecordProject(from), env);
      var s2 := Next(derive, s1, Relink(derive(from), None, Some(target)), env);
      var s3 := Next(derive, s2, RecordProject(from), env);
      && |s3.projects| == 2 && s3.projects[0].path == target && s3.projects[1].path == from
      && EffectiveId(derive, s3.projects[0]) == EffectiveId(derive, s3.projects[1]) == derive(from)
      && Resolve(derive, s3.projects, derive(from), Some(from)) == Found(0)
  {
    var env := Fine({from, target});
    var s1 := Next(derive, State([], map[]), RecordProject(from), env);
    FirstProject(derive, from, env);
    var s2 := Next(derive, s1, Relink(derive(from), None, Some(target)), env);
    assert |s2.projects| == 1 && s2.projects[0].path == target && s2.projects[0].id == derive(from);
  }

  /** The hash tells the paths of these rows apart. */
  predicate TellsApart(derive: Derive, projects: seq<Entry>) {
    forall e, f :: e in projects && f in projects && derive(e.path) == derive(f.path) ==> e.path == f.path
  }

  predicate OwnIds(derive: Derive, projects: seq<Entry>) {
    forall e :: e in projects ==> EffectiveId(derive, e) == derive(e.path)
  }

  /** Without relinks every row has the ID of its own path, so IDs are distinct as soon as the hash tells the registered
      paths apart. */
  lemma {:induction false} NoRelinkNoCollision(derive: Derive, s: State, op: Op, env: Env)
    requires NeverEmpty(derive) && Good(s.projects) && OwnIds(derive, s.projects) && !op.Relink?
    ensures OwnIds(derive, Next(derive, s, op, env).projects)
    ensures TellsApart(derive, Next(derive, s, op, env).projects)
      ==> IdsDistinct(derive, Next(derive, s, op, env).projects)
  {
    var change, after := Plan(derive, s, op, env).change, Next(derive, s, op, env).projects;
    PlanSound(derive, s, op, env);
    SoundGood(derive, s.projects, change);
    if change.Keep? { SelectGood(s.projects, change.mask); }
    if change.Replace? {
      SamePathUnlessRelink(derive, s, op, env);
      assert s.projects[change.index] in s.projects;
    }
    forall e | e in after ensures EffectiveId(derive, e) == derive(e.path) {
      if change.Push? { assert e in s.projects || e == change.row; }
      if change.Replace? { assert e in s.projects || e == change.row; }
    }
    assert forall i :: 0 <= i < |after| ==> after[i] in after;
  }

  lemma SamePathUnlessRelink(derive: Derive, s: State, op: Op, env: Env)
    requires !op.Relink? && Plan(derive, s, op, env).change.Replace?
    ensures var change := Plan(derive, s, op, env).change; change.row.path == s.projects[change.index].path
  {}

  // ---- relinking there and back, renaming and finding ----

  lemma RelinkSucceeds(derive: Derive, s: State, i: nat, target: Path, env: Env)
    requires i < |s.projects| && NewPath(s.projects, target) && env.saves && env.identityIo && target in env.configured
    requires target in s.markers ==> s.markers[target] == EffectiveId(derive, s.projects[i])
    requires NeverEmpty(derive)
    ensures var row, o := s.projects[i], PlanRelink(derive, s, i, target, env);
      && o.ok && o.change == Replace(i, MovedEntry(row.(id := EffectiveId(derive, row), path := target), row.path))
      && MarkersKept(s.markers, o.markers)
      && forall p :: p != target && p in o.markers ==> p in s.markers
  {
    FindNew(s.projects, target);
  }

  lemma RowMoved(projects: seq<Entry>, i: nat, row: Entry)
    requires PathsDistinct(projects) && i < |projects| && row.path != projects[i].path
    ensures NewPath(projects[i := row], projects[i].path)
  {
    forall e | e in projects[i := row] ensures e.path != projects[i].path {
      var j :| 0 <= j < |projects| && projects[i := row][j] == e;
    }
  }

  /** The identity file at a place, if there is one, names row `i`. */
  predicate OwnMarker(derive: Derive, s: State, i: nat, path: Path)
    requires i < |s.projects|
  {
    path in s.markers ==> s.markers[path] == EffectiveId(derive, s.projects[i])
  }

  /** The row, its ID made explicit, comes back from a relink to `target` and back exactly when none of its records
      strays; no other row is touched. Identity files at the two places are missing or the project's own. */
  lemma RelinkAndBack(derive: Derive, s: State, i: nat, target: Path, env: Env, later: Env)
    requires NeverEmpty(derive) && Good(s.projects) && i < |s.projects| && NewPath(s.projects, target)
    requires env.saves && env.identityIo && target in env.configured
    requires later.saves && later.identityIo && s.projects[i].path in later.configured
    requires OwnMarker(derive, s, i, target) && OwnMarker(derive, s, i, s.projects[i].path)
    ensures var row := s.projects[i];
      var there := PlanRelink(derive, s, i, target, env);
      var s1 := State(Perform(s.projects, there.change), there.markers);
      var back := PlanRelink(derive, s1, i, row.path, later);
      && there.ok && back.ok
      && (Perform(s1.projects, back.change) == s.projects[i := Ensured(derive, row)]
          <==> EntryStrays(row, row.path, target) == 0)
  {
    var row := s.projects[i];
    var id := EffectiveId(derive, row);
    var moved := MovedEntry(row.(id := id, path := target), row.path);
    var again := MovedEntry(moved.(path := row.path), target);
    assert row in s.projects;
    RelinkSucceeds(derive, s, i, target, env);
    var there := PlanRelink(derive, s, i, target, env);
    RowMoved(s.projects, i, moved);
    RelinkSucceeds(derive, State(s.projects[i := moved], there.markers), i, row.path, later);
    ThereAndBack(row.(id := id), row.path, target);
    assert s.projects[i := moved][i := again] == s.projects[i := again];
    assert s.projects[i := again][i] == again && s.projects[i := Ensured(derive, row)][i] == Ensured(derive, row);
  }

  lemma RenameSucceeds(derive: Derive, s: State, selector: string, path: Option<Path>, name: string, env: Env)
    requires Plan(derive, s, Rename(selector, path, name), env).ok
    ensures var r := Resolve(derive, s.projects, selector, path);
      && r.Found? && r.index < |s.projects|
      && Next(derive, s, Rename(selector, path, name), env).projects
         == s.projects[r.index := Ensured(derive, s.projects[r.index]).(name := Some(Trim(name)))]
      && Trim(name) != ""
  {}

  /** A renamed project is shown under the trimmed name, and found by it if no other row is shown under it and
      no row has it as its ID. */
  lemma RenamedIsFound(derive: Derive, s: State, selector: string, path: Option<Path>, name: string, env: Env)
    requires Good(s.projects) && Plan(derive, s, Rename(selector, path, name), env).ok
    ensures var i := Resolve(derive, s.projects, selector, path).index;
      var after := Next(derive, s, Rename(selector, path, name), env).projects;
      && Bears(after, i, Trim(name))
      && ((forall j: nat :: j < |s.projects| && j != i ==> !Bears(s.projects, j, Trim(name)))
          && FindId(derive, after, Trim(name)) == |after|
          ==> Resolve(derive, after, Trim(name), None) == Found(i))
  {
    var i := Resolve(derive, s.projects, selector, path).index;
    var after := Next(derive, s, Rename(selector, path, name), env).projects;
    RenameSucceeds(derive, s, selector, path, name, env);
    TrimTwice(name);
    assert Bears(after, i, Trim(name));
    if (forall j: nat :: j < |s.projects| && j != i ==> !Bears(s.projects, j, Trim(name)))
      && FindId(derive, after, Trim(name)) == |after|
    {
      forall j: nat | j < |after| && j != i ensures !Bears(after, j, Trim(name)) {
        assert !Bears(s.projects, j, Trim(name));
      }
      NameFindsItsBearer(derive, after, Trim(name), None, i);
    }
  }

  // ---- what uninstalling undoes ----

  lemma AgentEdits(derive: Derive, s: State, i: nat, path: Path, agent: Agent, env: Env)
    requires Works(env) && i == Find(s.projects, path) < |s.projects|
    ensures var row := Ensured(derive, s.projects[i]);
      && Next(derive, s, RecordAgent(path, agent), env).projects
         == s.projects[i := row.(agents := Put(row.agents, ToolOf, agent))]
      && Next(derive, s, AgentUninstall(path, agent.tool), env).projects
         == s.projects[i := row.(agents := Without(row.agents, ToolOf, [agent.tool]))]
  {}

  lemma AgentUndone(derive: Derive, s: State, s1: State, i: nat, path: Path, agent: Agent, env: Env)
    requires NeverEmpty(derive) && Works(env) && i == Find(s.projects, path) < |s.projects|
    requires var row := Ensured(derive, s.projects[i]);
      s1.projects == s.projects[i := row.(agents := Put(row.agents, ToolOf, agent))]
    ensures var row := Ensured(derive, s.projects[i]);
      Next(derive, s1, AgentUninstall(path, agent.tool), env).projects
        == s.projects[i := row.(agents := Without(row.agents, ToolOf, [agent.tool]))]
  {
    var row := Ensured(derive, s.projects[i]);
    FindAgain(s.projects, i, row.(agents := Put(row.agents, ToolOf, agent)));
    AgentEdits(derive, s1, i, path, agent, env);
    PutThenWithout(row.agents, ToolOf, agent);
  }

  /** Uninstalling an agent undoes recording it: the row is left as if only an older record of that tool had been
      dropped, and its ID is explicit. */
  lemma AgentRoundTrip(derive: Derive, s: State, path: Path, agent: Agent, env: Env)
    requires NeverEmpty(derive) && Works(env) && Find(s.projects, path) < |s.projects|
    ensures var i := Find(s.projects, path);
      var row := Ensured(derive, s.projects[i]);
      Next(derive, Next(derive, s, RecordAgent(path, agent), env), AgentUninstall(path, agent.tool), env).projects
        == s.projects[i := row.(agents := Without(row.agents, ToolOf, [agent.tool]))]
  {
    var i := Find(s.projects, path);
    AgentEdits(derive, s, i, path, agent, env);
    AgentUndone(derive, s, Next(derive, s, RecordAgent(path, agent), env), i, path, agent, env);
  }

  lemma FindAgain(projects: seq<Entry>, i: nat, row: Entry)
    requires i < |projects| && i == Find(projects, row.path)
    ensures Find(projects[i := row], row.path) == i
  {
    var found := Find(projects[i := row], row.path);
    assert projects[i := row][i] == row;
  }

  /** Everything installed that the row knows of is named as removed. */
  predicate AllRemoved(row: Entry, p: Progress) {
    && (forall a :: a in row.agents ==> a.tool in p.tools)
    && (forall h :: h in row.hooks ==> h.name in p.hooks)
    && (forall h :: h in row.agentHooks ==> h.tool in p.hookTools)
    && (row.rootIgnored ==> p.rootRemoved) && (row.syntextIgnored ==> p.syntextRemoved)
    && (row.exportIgnored ==> p.exportRemoved)
  }

  lemma WithoutEmptyIff<T>(s: seq<T>, key: T -> string, names: seq<string>)
    ensures Without(s, key, names) == [] <==> forall x :: x in s ==> key(x) in names
  {
    WithoutElements(s, key, names);
    if Without(s, key, names) != [] { assert Without(s, key, names)[0] in Without(s, key, names); }
  }

  lemma BareIff(row: Entry, p: Progress)
    ensures Bare(Cleared(row, p)) <==> AllRemoved(row, p)
  {
    WithoutEmptyIff(row.agents, ToolOf, p.tools);
    WithoutEmptyIff(row.hooks, NameOf, p.hooks);
    WithoutEmptyIff(row.agentHooks, HookToolOf, p.hookTools);
  }

  /** Uninstall progress drops the row exactly when the data is deleted and nothing installed is left behind;
      no other row goes. */
  lemma UninstallDropsIff(derive: Derive, s: State, path: Path, p: Progress, env: Env)
    requires Good(s.projects) && Works(env) && Find(s.projects, path) < |s.projects|
    ensures var row := s.projects[Find(s.projects, path)];
      var after := Next(derive, s, UninstallProgress(path, p), env).projects;
      && (NewPath(after, path) <==> p.dataDeleted && AllRemoved(row, p))
      && (forall e :: e in s.projects && e.path != path ==> e in after)
  {
    var i := Find(s.projects, path);
    var row := s.projects[i];
    var after := Next(derive, s, UninstallProgress(path, p), env).projects;
    BareIff(row, p);
    if p.dataDeleted && Bare(Cleared(row, p)) {
      assert after == Select(s.projects, KeepOthers(s.projects, path));
      SelectOthers(s.projects, path);
    } else {
      assert after == s.projects[i := Cleared(row, p)];
      assert after[i] in after && after[i].path == path;
      forall e | e in s.projects && e.path != path ensures e in after {
        var j :| 0 <= j < |s.projects| && s.projects[j] == e;
        assert after[j] == e;
      }
    }
  }

  lemma {:induction false} SelectOthers(projects: seq<Entry>, path: Path)
    ensures forall e :: e in Select(projects, KeepOthers(projects, path)) <==> e in projects && e.path != path
  {
    if projects != [] {
      SelectOthers(projects[1..], path);
      assert KeepOthers(projects, path)[1..] == KeepOthers(projects[1..], path);
      assert projects == [projects[0]] + projects[1..];
    }
  }
}
