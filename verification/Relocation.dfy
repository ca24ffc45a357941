/** Rewriting of the install records of a project whose directory has moved.
    Every recorded path under the old directory is moved to the same place under the new one, and those paths are
    counted. Going there and back restores the records, unless some record already lay under the new
    directory. The count is that of the recorded paths under the old one, so the way back counts what went there and
    what strayed. */
module Relocation {
  import opened Options
  import opened ProjectRows

  function Moved(p: Path, from: Path, to: Path): Path {
    if from <= p then to + p[|from|..] else p
  }

  function MovedOption(p: Option<Path>, from: Path, to: Path): Option<Path> {
    if p.Some? then Some(Moved(p.value, from, to)) else None
  }

  function MovedAgent(a: Agent, from: Path, to: Path): Agent {
    a.(shimPath := Moved(a.shimPath, from, to), mcpConfigPath := MovedOption(a.mcpConfigPath, from, to),
       mcpBackupPath := MovedOption(a.mcpBackupPath, from, to))
  }

  function MovedHook(h: Hook, from: Path, to: Path): Hook {
    h.(path := Moved(h.path, from, to))
  }

  function MovedAgentHook(h: AgentHook, from: Path, to: Path): AgentHook {
    h.(path := Moved(h.path, from, to))
  }

  function Map<T>(s: seq<T>, f: T -> T): (r: seq<T>)
    ensures |r| == |s| && forall i :: 0 <= i < |s| ==> r[i] == f(s[i])
  {
    seq(|s|, i requires 0 <= i < |s| => f(s[i]))
  }

  function MovedAgents(s: seq<Agent>, from: Path, to: Path): seq<Agent> {
    Map(s, a => MovedAgent(a, from, to))
  }

  function MovedHooks(s: seq<Hook>, from: Path, to: Path): seq<Hook> {
    Map(s, h => MovedHook(h, from, to))
  }

  function MovedAgentHooks(s: seq<AgentHook>, from: Path, to: Path): seq<AgentHook> {
    Map(s, h => MovedAgentHook(h, from, to))
  }

  /** The row with every record under `from` moved to the row's own path. */
  function MovedEntry(e: Entry, from: Path): Entry {
    e.(agents := MovedAgents(e.agents, from, e.path), hooks := MovedHooks(e.hooks, from, e.path),
       agentHooks := MovedAgentHooks(e.agentHooks, from, e.path))
  }

  // ---- how many values are rewritten ----

  function Sum<T>(s: seq<T>, f: T -> nat): nat {
    if s == [] then 0 else Sum(s[..|s| - 1], f) + f(s[|s| - 1])
  }

  function Hits(p: Path, from: Path): nat {
    if from <= p then 1 else 0
  }

  function OptionHits(p: Option<Path>, from: Path): nat {
    if p.Some? then Hits(p.value, from) else 0
  }

  function AgentHits(a: Agent, from: Path): nat {
    Hits(a.shimPath, from) + OptionHits(a.mcpConfigPath, from) + OptionHits(a.mcpBackupPath, from)
  }

  function AgentsHits(s: seq<Agent>, from: Path): nat {
    Sum(s, a => AgentHits(a, from))
  }

  function HooksHits(s: seq<Hook>, from: Path): nat {
    Sum(s, (h: Hook) => Hits(h.path, from))
  }

  function AgentHooksHits(s: seq<AgentHook>, from: Path): nat {
    Sum(s, (h: AgentHook) => Hits(h.path, from))
  }

  function EntryHits(e: Entry, from: Path): nat {
    AgentsHits(e.agents, from) + HooksHits(e.hooks, from) + AgentHooksHits(e.agentHooks, from)
  }

  method Rewrite(value: Path, from: Path, to: Path, count: nat) returns (moved: Path, updated: nat)
    ensures moved == Moved(value, from, to) && updated == count + Hits(value, from)
  {
    moved, updated := value, count;
    if from <= value {
      moved, updated := to + value[|from|..], count + 1;
    }
  }

  method RewriteAgent(agent: Agent, from: Path, to: Path, count: nat) returns (moved: Agent, updated: nat)
    ensures moved == MovedAgent(agent, from, to) && updated == count + AgentHits(agent, from)
  {
    var path;
    path, updated := Rewrite(agent.shimPath, from, to, count);
    moved := agent.(shimPath := path);
    if agent.mcpConfigPath.Some? {
      path, updated := Rewrite(agent.mcpConfigPath.value, from, to, updated);
      moved := moved.(mcpConfigPath := Some(path));
    }
    if agent.mcpBackupPath.Some? {
      path, updated := Rewrite(agent.mcpBackupPath.value, from, to, updated);
      moved := moved.(mcpBackupPath := Some(path));
    }
  }

  method RewriteAgents(s: seq<Agent>, from: Path, to: Path, count: nat) returns (moved: seq<Agent>, updated: nat)
    ensures moved == MovedAgents(s, from, to) && updated == count + AgentsHits(s, from)
  {
    moved, updated := s, count;
    for i := 0 to |s|
      invariant |moved| == |s| && updated == count + AgentsHits(s[..i], from)
      invariant forall j :: 0 <= j < i ==> moved[j] == MovedAgent(s[j], from, to)
      invariant forall j :: i <= j < |s| ==> moved[j] == s[j]
    {
      assert s[..i + 1][..i] == s[..i];
      var agent;
      agent, updated := RewriteAgent(moved[i], from, to, updated);
      moved := moved[i := agent];
    }
    assert s[..|s|] == s;
  }

  method RewriteHooks(s: seq<Hook>, from: Path, to: Path, count: nat) returns (moved: seq<Hook>, updated: nat)
    ensures moved == MovedHooks(s, from, to) && updated == count + HooksHits(s, from)
  {
    moved, updated := s, count;
    for i := 0 to |s|
      invariant |moved| == |s| && updated == count + HooksHits(s[..i], from)
      invariant forall j :: 0 <= j < i ==> moved[j] == MovedHook(s[j], from, to)
      invariant forall j :: i <= j < |s| ==> moved[j] == s[j]
    {
      assert s[..i + 1][..i] == s[..i];
      var path;
      path, updated := Rewrite(moved[i].path, from, to, updated);
      moved := moved[i := moved[i].(path := path)];
    }
    assert s[..|s|] == s;
  }

  method RewriteAgentHooks(s: seq<AgentHook>, from: Path, to: Path, count: nat)
    returns (moved: seq<AgentHook>, updated: nat)
    ensures moved == MovedAgentHooks(s, from, to) && updated == count + AgentHooksHits(s, from)
  {
    moved, updated := s, count;
    for i := 0 to |s|
      invariant |moved| == |s| && updated == count + AgentHooksHits(s[..i], from)
      invariant forall j :: 0 <= j < i ==> moved[j] == MovedAgentHook(s[j], from, to)
      invariant forall j :: i <= j < |s| ==> moved[j] == s[j]
    {
      assert s[..i + 1][..i] == s[..i];
      var path;
      path, updated := Rewrite(moved[i].path, from, to, updated);
      moved := moved[i := moved[i].(path := path)];
    }
    assert s[..|s|] == s;
  }

  /** `rewrite_install_record_paths` */
  method RewriteInstallRecordPaths(entry: Entry, oldPath: Path) returns (moved: Entry, updated: nat)
    ensures moved == MovedEntry(entry, oldPath) && updated == EntryHits(entry, oldPath)
  {
    var agents, hooks, agentHooks;
    agents, updated := RewriteAgents(entry.agents, oldPath, entry.path, 0);
    hooks, updated := RewriteHooks(entry.hooks, oldPath, entry.path, updated);
    agentHooks, updated := RewriteAgentHooks(entry.agentHooks, oldPath, entry.path, updated);
    moved := entry.(agents := agents, hooks := hooks, agentHooks := agentHooks);
  }

  // ---- there and back ----

  /** A path already under the new place that was not under the old one. */
  function Strays(p: Path, from: Path, to: Path): nat {
    if to <= p && !(from <= p) then 1 else 0
  }

  function OptionStrays(p: Option<Path>, from: Path, to: Path): nat {
    if p.Some? then Strays(p.value, from, to) else 0
  }

  function AgentStrays(a: Agent, from: Path, to: Path): nat {
    Strays(a.shimPath, from, to) + OptionStrays(a.mcpConfigPath, from, to) + OptionStrays(a.mcpBackupPath, from, to)
  }

  function EntryStrays(e: Entry, from: Path, to: Path): nat {
    Sum(e.agents, a => AgentStrays(a, from, to)) + Sum(e.hooks, (h: Hook) => Strays(h.path, from, to))
      + Sum(e.agentHooks, (h: AgentHook) => Strays(h.path, from, to))
  }

  lemma PathThereAndBack(p: Path, from: Path, to: Path)
    ensures Moved(Moved(p, from, to), to, from) == p <==> Strays(p, from, to) == 0
    ensures Hits(Moved(p, from, to), to) == Hits(p, from) + Strays(p, from, to)
  {
    if from <= p {
      assert (to + p[|from|..])[|to|..] == p[|from|..];
      assert from + p[|from|..] == p;
    } else if to <= p {
      assert from <= from + p[|to|..];
    }
  }

  lemma OptionThereAndBack(p: Option<Path>, from: Path, to: Path)
    ensures MovedOption(MovedOption(p, from, to), to, from) == p <==> OptionStrays(p, from, to) == 0
    ensures OptionHits(MovedOption(p, from, to), to) == OptionHits(p, from) + OptionStrays(p, from, to)
  {
    if p.Some? { PathThereAndBack(p.value, from, to); }
  }

  lemma AgentThereAndBack(a: Agent, from: Path, to: Path)
    ensures MovedAgent(MovedAgent(a, from, to), to, from) == a <==> AgentStrays(a, from, to) == 0
    ensures AgentHits(MovedAgent(a, from, to), to) == AgentHits(a, from) + AgentStrays(a, from, to)
  {
    PathThereAndBack(a.shimPath, from, to);
    OptionThereAndBack(a.mcpConfigPath, from, to);
    OptionThereAndBack(a.mcpBackupPath, from, to);
  }

  lemma {:induction false} SumZero<T>(s: seq<T>, f: T -> nat)
    ensures Sum(s, f) == 0 <==> forall x :: x in s ==> f(x) == 0
  {
    if s != [] {
      SumZero(s[..|s| - 1], f);
      assert s == s[..|s| - 1] + [s[|s| - 1]];
    }
  }

  lemma {:induction false} ListCounts<T>(s: seq<T>, there: T -> T, before: T -> nat, after: T -> nat, strays: T -> nat)
    requires forall x :: x in s ==> after(there(x)) == before(x) + strays(x)
    ensures Sum(Map(s, there), after) == Sum(s, before) + Sum(s, strays)
  {
    if s != [] {
      var n := |s| - 1;
      forall x | x in s[..n] ensures x in s {}
      ListCounts(s[..n], there, before, after, strays);
      assert Map(s, there)[..n] == Map(s[..n], there) && s[n] in s;
    }
  }

  lemma ListThereAndBack<T>(s: seq<T>, there: T -> T, back: T -> T, before: T -> nat, after: T -> nat,
                            strays: T -> nat)
    requires forall x :: x in s ==> (back(there(x)) == x <==> strays(x) == 0)
    requires forall x :: x in s ==> after(there(x)) == before(x) + strays(x)
    ensures Map(Map(s, there), back) == s <==> Sum(s, strays) == 0
    ensures Sum(Map(s, there), after) == Sum(s, before) + Sum(s, strays)
  {
    ListCounts(s, there, before, after, strays);
    SumZero(s, strays);
    var again := Map(Map(s, there), back);
    assert forall i :: 0 <= i < |s| ==> again[i] == back(there(s[i])) && s[i] in s;
  }

  /** Relinking from `from` to `to` and back restores the row exactly when no record under the new place came from
      outside the old one; and the second rewrite touches as many values as the first one, plus those. */
  lemma ThereAndBack(e: Entry, from: Path, to: Path)
    ensures var there := MovedEntry(e.(path := to), from);
      && (MovedEntry(there.(path := from), to) == e.(path := from) <==> EntryStrays(e, from, to) == 0)
      && EntryHits(there, to) == EntryHits(e, from) + EntryStrays(e, from, to)
  {
    forall a ensures MovedAgent(MovedAgent(a, from, to), to, from) == a <==> AgentStrays(a, from, to) == 0
      ensures AgentHits(MovedAgent(a, from, to), to) == AgentHits(a, from) + AgentStrays(a, from, to)
    {
      AgentThereAndBack(a, from, to);
    }
    forall p ensures Moved(Moved(p, from, to), to, from) == p <==> Strays(p, from, to) == 0
      ensures Hits(Moved(p, from, to), to) == Hits(p, from) + Strays(p, from, to)
    {
      PathThereAndBack(p, from, to);
    }
    ListThereAndBack(e.agents, a => MovedAgent(a, from, to), a => MovedAgent(a, to, from),
                     a => AgentHits(a, from), a => AgentHits(a, to), a => AgentStrays(a, from, to));
    ListThereAndBack(e.hooks, h => MovedHook(h, from, to), h => MovedHook(h, to, from),
                     (h: Hook) => Hits(h.path, from), (h: Hook) => Hits(h.path, to),
                     (h: Hook) => Strays(h.path, from, to));
    ListThereAndBack(e.agentHooks, h => MovedAgentHook(h, from, to), h => MovedAgentHook(h, to, from),
                     (h: AgentHook) => Hits(h.path, from), (h: AgentHook) => Hits(h.path, to),
                     (h: AgentHook) => Strays(h.path, from, to));
  }

  /** A project moved to a directory below its own can always be moved back. */
  lemma MovedBelow(e: Entry, from: Path, to: Path)
    requires from <= to
    ensures EntryStrays(e, from, to) == 0
  {
    SumZero(e.agents, a => AgentStrays(a, from, to));
    SumZero(e.hooks, (h: Hook) => Strays(h.path, from, to));
    SumZero(e.agentHooks, (h: AgentHook) => Strays(h.path, from, to));
  }

  // ---- what is counted ----

  /** The paths an agent's record holds. */
  function PathsOf(a: Agent): seq<Path> {
    [a.shimPath] + (match a.mcpConfigPath case None => [] case Some(p) => [p])
                 + (match a.mcpBackupPath case None => [] case Some(p) => [p])
  }

  function HowMany(paths: seq<Path>, from: Path): nat {
    if paths == [] then 0 else (if from <= paths[0] then 1 else 0) + HowMany(paths[1..], from)
  }

  lemma AgentHitsAre(a: Agent, from: Path)
    ensures AgentHits(a, from) == HowMany(PathsOf(a), from)
  {
    var config := match a.mcpConfigPath case None => [] case Some(p) => [p];
    var backup := match a.mcpBackupPath case None => [] case Some(p) => [p];
    HowManyConcat([a.shimPath], config, from);
    HowManyConcat([a.shimPath] + config, backup, from);
  }

  lemma {:induction false} HowManyConcat(a: seq<Path>, b: seq<Path>, from: Path)
    ensures HowMany(a + b, from) == HowMany(a, from) + HowMany(b, from)
  {
    if a == [] {
      assert a + b == b;
    } else {
      assert (a + b)[1..] == a[1..] + b;
      HowManyConcat(a[1..], b, from);
    }
  }

  /** All the paths a row's records hold. */
  function RecordedPaths(e: Entry): seq<Path> {
    AgentPaths(e.agents) + HookPaths(e.hooks) + AgentHookPaths(e.agentHooks)
  }

  function AgentPaths(s: seq<Agent>): seq<Path> {
    if s == [] then [] else AgentPaths(s[..|s| - 1]) + PathsOf(s[|s| - 1])
  }

  function HookPaths(s: seq<Hook>): seq<Path> {
    if s == [] then [] else HookPaths(s[..|s| - 1]) + [s[|s| - 1].path]
  }

  function AgentHookPaths(s: seq<AgentHook>): seq<Path> {
    if s == [] then [] else AgentHookPaths(s[..|s| - 1]) + [s[|s| - 1].path]
  }

  lemma {:induction false} AgentsHitsAre(s: seq<Agent>, from: Path)
    ensures AgentsHits(s, from) == HowMany(AgentPaths(s), from)
  {
    if s != [] {
      AgentsHitsAre(s[..|s| - 1], from);
      AgentHitsAre(s[|s| - 1], from);
      HowManyConcat(AgentPaths(s[..|s| - 1]), PathsOf(s[|s| - 1]), from);
    }
  }

  lemma {:induction false} HooksHitsAre(s: seq<Hook>, from: Path)
    ensures HooksHits(s, from) == HowMany(HookPaths(s), from)
  {
    if s != [] {
      HooksHitsAre(s[..|s| - 1], from);
      HowManyConcat(HookPaths(s[..|s| - 1]), [s[|s| - 1].path], from);
    }
  }

  lemma {:induction false} AgentHooksHitsAre(s: seq<AgentHook>, from: Path)
    ensures AgentHooksHits(s, from) == HowMany(AgentHookPaths(s), from)
  {
    if s != [] {
      AgentHooksHitsAre(s[..|s| - 1], from);
      HowManyConcat(AgentHookPaths(s[..|s| - 1]), [s[|s| - 1].path], from);
    }
  }

  /** The number reported is that of the recorded paths under the old one. */
  lemma HitsAreRecordedPaths(e: Entry, from: Path)
    ensures EntryHits(e, from) == HowMany(RecordedPaths(e), from)
  {
    AgentsHitsAre(e.agents, from);
    HooksHitsAre(e.hooks, from);
    AgentHooksHitsAre(e.agentHooks, from);
    HowManyConcat(AgentPaths(e.agents), HookPaths(e.hooks), from);
    HowManyConcat(AgentPaths(e.agents) + HookPaths(e.hooks), AgentHookPaths(e.agentHooks), from);
  }
}
