/** Each counter as a total over the history of updates.
    The updates say which counters they change; here it is the other way round: for each counter, which updates add to
    it and how much. Both readings agree on every history, so no update adds to a counter it should not, or under a
    name it should not. */
module CounterTotals {
  import opened Options
  import opened Tally
  import opened Metrics
  import opened Recording

  datatype Field =
    | CardsServed | CardTokens | RawFileTokens | TokensSaved | TruncationApplied | StaleResponses | TestSurfaceHits
    | ChangedFiles | LatencyMs | LatencySamples | McpRequests | McpResourceReads | CompactOutputs
    | CompactReturnedTokens | CompactOriginalTokens | CompactTokensSaved | CompactOmittedItems
    | CompactTruncationApplied | ResponsesOverSoftCap | ResponsesTruncated | DeepCardsServed | ContextPackTokens
    | ResumeResponses | ResumeTokens | RouteClassifications | FastPathSignals | EditCandidates | EditCandidateSignals
    | LlmNotRequiredSignals | AnchoredEditAccepted | AnchoredEditRejected | CrossLinkGenerations | CrossLinksPromoted
    | CommentaryRefreshes | CommentaryRefreshErrors | LlmCallsAvoided | HookFileReads | HookRepeatedReadWarnings
    | HookRepeatedReadTokens

  function Read(s: Sums, f: Field): nat {
    match f
    case CardsServed => s.cardsServed
    case CardTokens => s.cardTokens
    case RawFileTokens => s.rawFileTokens
    case TokensSaved => s.tokensSaved
    case TruncationApplied => s.truncationApplied
    case StaleResponses => s.staleResponses
    case TestSurfaceHits => s.testSurfaceHits
    case ChangedFiles => s.changedFiles
    case LatencyMs => s.latencyMs
    case LatencySamples => s.latencySamples
    case McpRequests => s.mcpRequests
    case McpResourceReads => s.mcpResourceReads
    case CompactOutputs => s.compactOutputs
    case CompactReturnedTokens => s.compactReturnedTokens
    case CompactOriginalTokens => s.compactOriginalTokens
    case CompactTokensSaved => s.compactTokensSaved
    case CompactOmittedItems => s.compactOmittedItems
    case CompactTruncationApplied => s.compactTruncationApplied
    case ResponsesOverSoftCap => s.responsesOverSoftCap
    case ResponsesTruncated => s.responsesTruncated
    case DeepCardsServed => s.deepCardsServed
    case ContextPackTokens => s.contextPackTokens
    case ResumeResponses => s.resumeResponses
    case ResumeTokens => s.resumeTokens
    case RouteClassifications => s.routeClassifications
    case FastPathSignals => s.fastPathSignals
    case EditCandidates => s.editCandidates
    case EditCandidateSignals => s.editCandidateSignals
    case LlmNotRequiredSignals => s.llmNotRequiredSignals
    case AnchoredEditAccepted => s.anchoredEditAccepted
    case AnchoredEditRejected => s.anchoredEditRejected
    case CrossLinkGenerations => s.crossLinkGeneration
    case CrossLinksPromoted => s.crossLinkPromoted
    case CommentaryRefreshes => s.commentaryRefresh
    case CommentaryRefreshErrors => s.commentaryRefreshErrors
    case LlmCallsAvoided => s.llmCallsAvoided
    case HookFileReads => s.hookFileReads
    case HookRepeatedReadWarnings => s.hookRepeatedReadWarnings
    case HookRepeatedReadTokens => s.hookRepeatedReadTokens
  }

  /** One if the condition holds. */
  function If(b: bool): nat {
    if b then 1 else 0
  }


  /** A route that was classified, by a tool or by a hook. */
  predicate IsRoute(u: Update) {
    u.RouteClassification? || u.HookRouteEmission?
  }

  predicate Signals(u: Update, signal: string) {
    u.HookRouteEmission? && signal in u.route.signals
  }

  /** What one update adds to a counter. */
  function Adds(f: Field, u: Update): nat {
    match f
    case CardsServed => If(u.Card?)
    case LatencySamples => If(u.Card?)
    case DeepCardsServed => If(u.Card? && u.accounting.tier == Deep)
    case TruncationApplied => If(u.Card? && u.accounting.truncated)
    case StaleResponses => If(u.Card? && u.accounting.stale)
    case CardTokens => if u.Card? then u.accounting.tokens else 0
    case RawFileTokens => if u.Card? then u.accounting.rawTokens else 0
    case TokensSaved =>
      if u.Card? && u.accounting.rawTokens > u.accounting.tokens then u.accounting.rawTokens - u.accounting.tokens
      else 0
    case LatencyMs => if u.Card? then u.latencyMs else 0
    case TestSurfaceHits => If(u.TestSurfaceHit?)
    case ChangedFiles => if u.ChangedFiles? then u.count else 0
    case McpRequests => If(u.ToolResult? || u.ResourceRead?)
    case McpResourceReads => If(u.ResourceRead?)
    case CompactOutputs => If(u.CompactOutput?)
    case CompactReturnedTokens => if u.CompactOutput? then u.returned else 0
    case CompactOriginalTokens => if u.CompactOutput? then u.original else 0
    case CompactTokensSaved => if u.CompactOutput? then u.saved else 0
    case CompactOmittedItems => if u.CompactOutput? then u.omitted else 0
    case CompactTruncationApplied => If(u.CompactOutput? && u.truncated)
    case ResponsesOverSoftCap => If(u.ResponseBudget? && u.overSoftCap)
    case ResponsesTruncated => If(u.ResponseBudget? && u.truncated)
    case ContextPackTokens => if u.ContextPackTokens? then u.tokens else 0
    case ResumeResponses => If(u.ResumeContext?)
    case ResumeTokens => if u.ResumeContext? then u.tokens else 0
    case RouteClassifications => If(IsRoute(u))
    case EditCandidates => If(IsRoute(u) && u.route.hasEditCandidate)
    case FastPathSignals => If(Signals(u, "[SYNREPO_CONTEXT_FAST_PATH]"))
    case EditCandidateSignals => If(Signals(u, "[SYNREPO_DETERMINISTIC_EDIT_CANDIDATE]"))
    case LlmNotRequiredSignals => If(Signals(u, "[SYNREPO_LLM_NOT_REQUIRED]"))
    case LlmCallsAvoided =>
      If((u.RouteClassification? && !u.route.llmRequired) || Signals(u, "[SYNREPO_LLM_NOT_REQUIRED]"))
    case AnchoredEditAccepted => if u.AnchoredEdits? then u.accepted else 0
    case AnchoredEditRejected => if u.AnchoredEdits? then u.rejected else 0
    case CrossLinkGenerations => if u.CrossLinkGeneration? then u.attempts else 0
    case CrossLinksPromoted => if u.CrossLinkPromoted? then u.count else 0
    case CommentaryRefreshes => If(u.CommentaryRefresh?)
    case CommentaryRefreshErrors => If(u.CommentaryRefresh? && u.errored)
    case HookFileReads => If(u.HookFileRead?)
    case HookRepeatedReadWarnings => If(u.HookFileRead? && u.repeated)
    case HookRepeatedReadTokens => if u.HookFileRead? && u.repeated then u.tokens else 0
  }

  function Sum(us: seq<Update>, f: Field): nat {
    if us == [] then 0 else Adds(f, us[0]) + Sum(us[1..], f)
  }

  lemma CardAdds(s: Sums, u: Update, f: Field)
    requires u.Card?
    ensures Read(ApplySums(s, u), f) == Read(s, f) + Adds(f, u)
  {}

  lemma RouteAdds(s: Sums, u: Update, f: Field)
    requires u.RouteClassification? || u.HookRouteEmission?
    ensures Read(ApplySums(s, u), f) == Read(s, f) + Adds(f, u)
  {}

  lemma OutputAdds(s: Sums, u: Update, f: Field)
    requires u.CompactOutput? || u.ResponseBudget?
    ensures Read(ApplySums(s, u), f) == Read(s, f) + Adds(f, u)
  {}

  lemma HookAdds(s: Sums, u: Update, f: Field)
    requires u.HookFileRead? || u.CommentaryRefresh?
    ensures Read(ApplySums(s, u), f) == Read(s, f) + Adds(f, u)
  {}

  lemma ToolAdds(s: Sums, u: Update, f: Field)
    requires u.ToolResult? || u.ResourceRead?
    ensures Read(ApplySums(s, u), f) == Read(s, f) + Adds(f, u)
  {}

  lemma NameAdds(s: Sums, u: Update, f: Field)
    requires u.WorkflowCall? || u.SavedContextWrite? || u.TestSurfaceHit?
    ensures Read(ApplySums(s, u), f) == Read(s, f) + Adds(f, u)
  {}

  lemma ContextAdds(s: Sums, u: Update, f: Field)
    requires u.ContextPackTokens? || u.ResumeContext?
    ensures Read(ApplySums(s, u), f) == Read(s, f) + Adds(f, u)
  {}

  lemma CountAdds(s: Sums, u: Update, f: Field)
    requires u.ChangedFiles? || u.AnchoredEdits?
    ensures Read(ApplySums(s, u), f) == Read(s, f) + Adds(f, u)
  {}

  lemma LinkAdds(s: Sums, u: Update, f: Field)
    requires u.CrossLinkGeneration? || u.CrossLinkPromoted?
    ensures Read(ApplySums(s, u), f) == Read(s, f) + Adds(f, u)
  {}

  lemma UpdateAdds(s: Sums, u: Update, f: Field)
    ensures Read(ApplySums(s, u), f) == Read(s, f) + Adds(f, u)
  {
    match u
    case Card(_, _) => CardAdds(s, u, f);
    case RouteClassification(_) => RouteAdds(s, u, f);
    case HookRouteEmission(_) => RouteAdds(s, u, f);
    case CompactOutput(_, _, _, _, _) => OutputAdds(s, u, f);
    case ResponseBudget(_, _, _, _) => OutputAdds(s, u, f);
    case HookFileRead(_, _) => HookAdds(s, u, f);
    case CommentaryRefresh(_) => HookAdds(s, u, f);
    case ToolResult(_, _, _) => ToolAdds(s, u, f);
    case ResourceRead => ToolAdds(s, u, f);
    case ContextPackTokens(_) => ContextAdds(s, u, f);
    case ResumeContext(_) => ContextAdds(s, u, f);
    case ChangedFiles(_) => CountAdds(s, u, f);
    case CrossLinkGeneration(_) => LinkAdds(s, u, f);
    case CrossLinkPromoted(_) => LinkAdds(s, u, f);
    case AnchoredEdits(_, _) => CountAdds(s, u, f);
    case _ => NameAdds(s, u, f);
  }

  /** Every counter is what it was plus the sum, over the updates, of what each adds to it. */
  lemma {:induction false} CountersAreTotals(m: Metrics, us: seq<Update>, f: Field)
    ensures Read(ApplyAll(m, us).sums, f) == Read(m.sums, f) + Sum(us, f)
    decreases us
  {
    if us != [] {
      UpdateAdds(m.sums, us[0], f);
      CountersAreTotals(Apply(m, us[0]), us[1..], f);
    }
  }

  // ---- counters by name ----

  datatype Keyed = BudgetTierUsage | WorkflowCalls | McpToolCalls | McpToolErrors | SavedContextWrites | ToolTokens

  function ReadKeyed(t: Tallies, f: Keyed): Tally {
    match f
    case BudgetTierUsage => t.budgetTierUsage
    case WorkflowCalls => t.workflowCalls
    case McpToolCalls => t.mcpToolCalls
    case McpToolErrors => t.mcpToolErrors
    case SavedContextWrites => t.savedContextWrites
    case ToolTokens => t.toolTokens
  }

  function TierName(b: Budget): string {
    if b == Tiny then "tiny" else if b == Normal then "normal" else "deep"
  }

  /** Whether an update counts under a name, in which tally. */
  predicate Names(f: Keyed, u: Update, k: string) {
    match f
    case BudgetTierUsage => u.Card? && k == TierName(u.accounting.tier)
    case WorkflowCalls => u.WorkflowCall? && k == u.tool
    case McpToolCalls => u.ToolResult? && k == u.tool
    case McpToolErrors => u.ToolResult? && u.error.Some? && k == u.tool
    case SavedContextWrites => (u.SavedContextWrite? && k == u.operation) || (u.ToolResult? && u.savedWrite == Some(k))
    case ToolTokens => u.ResponseBudget? && k == u.tool
  }

  /** What one update adds under a name; only the tokens of a response count for more than one. */
  function AddsUnder(f: Keyed, u: Update, k: string): nat {
    if !Names(f, u, k) then 0 else if f == ToolTokens && u.ResponseBudget? then u.tokens else 1
  }

  lemma UpdateNames(t: Tallies, u: Update, f: Keyed, k: string)
    ensures var t' := ApplyTallies(t, u);
      && Get(ReadKeyed(t', f), k) == Get(ReadKeyed(t, f), k) + AddsUnder(f, u, k)
      && (k in ReadKeyed(t', f) <==> k in ReadKeyed(t, f) || Names(f, u, k))
  {
    if u.ToolResult? {
      ToolNames(t, u, f, k);
    }
  }

  lemma ToolNames(t: Tallies, u: Update, f: Keyed, k: string)
    requires u.ToolResult?
    ensures var t' := ApplyTallies(t, u);
      && Get(ReadKeyed(t', f), k) == Get(ReadKeyed(t, f), k) + AddsUnder(f, u, k)
      && (k in ReadKeyed(t', f) <==> k in ReadKeyed(t, f) || Names(f, u, k))
  {}

  function KeyedSum(us: seq<Update>, f: Keyed, k: string): nat {
    if us == [] then 0 else AddsUnder(f, us[0], k) + KeyedSum(us[1..], f, k)
  }

  /** And every counter under a name; a name is there exactly when some update counted under it. */
  lemma {:induction false} TalliesAreTotals(m: Metrics, us: seq<Update>, f: Keyed, k: string)
    ensures var t := ApplyAll(m, us).tallies;
      && Get(ReadKeyed(t, f), k) == Get(ReadKeyed(m.tallies, f), k) + KeyedSum(us, f, k)
      && (k in ReadKeyed(t, f) <==> k in ReadKeyed(m.tallies, f) || exists u :: u in us && Names(f, u, k))
    decreases us
  {
    if us != [] {
      assert us == [us[0]] + us[1..];
      UpdateNames(m.tallies, us[0], f, k);
      TalliesAreTotals(Apply(m, us[0]), us[1..], f, k);
    }
  }

  /** The update is a failed call of this tool with this code. */
  predicate Failed(u: Update, tool: string, code: string) {
    u.ToolResult? && u.tool == tool && u.error == Some(code)
  }

  function Failures(us: seq<Update>, tool: string, code: string): nat {
    if us == [] then 0 else If(Failed(us[0], tool, code)) + Failures(us[1..], tool, code)
  }

  lemma UpdateFails(m: Metrics, u: Update, tool: string, code: string)
    ensures var (before, after) := (Row(m.errorCodes, tool), Row(Apply(m, u).errorCodes, tool));
      && Get(after, code) == Get(before, code) + If(Failed(u, tool, code))
      && (code in after <==> code in before || Failed(u, tool, code))
  {
    if u.ToolResult? && u.error.Some? { RowBumped(m.errorCodes, u.tool, u.error.value, 1, tool); }
  }

  /** Error counts by tool and code. */
  lemma {:induction false} ErrorCodesAreTotals(m: Metrics, us: seq<Update>, tool: string, code: string)
    ensures var (before, after) := (Row(m.errorCodes, tool), Row(ApplyAll(m, us).errorCodes, tool));
      && Get(after, code) == Get(before, code) + Failures(us, tool, code)
      && (code in after <==> code in before || exists u :: u in us && Failed(u, tool, code))
    decreases us
  {
    if us != [] {
      assert us == [us[0]] + us[1..];
      UpdateFails(m, us[0], tool, code);
      ErrorCodesAreTotals(Apply(m, us[0]), us[1..], tool, code);
    }
  }

  predicate Reaches(u: Update, n: nat) {
    u.ResponseBudget? && u.tokens >= n
  }

  /** The largest response is at least as large as `n` exactly when it was before or some response is. */
  lemma {:induction false} LargestIsMaximum(m: Metrics, us: seq<Update>, n: nat)
    ensures ApplyAll(m, us).largestResponse >= n <==> m.largestResponse >= n || exists u :: u in us && Reaches(u, n)
    decreases us
  {
    if us != [] {
      assert us == [us[0]] + us[1..];
      assert Apply(m, us[0]).largestResponse >= n <==> m.largestResponse >= n || Reaches(us[0], n);
      LargestIsMaximum(Apply(m, us[0]), us[1..], n);
    }
  }
}
