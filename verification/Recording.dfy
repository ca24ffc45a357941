/** The `record_*` updates as a function on counter values, their commutation with merging, and
    the relations between counters that every history of updates and merges keeps. */
module Recording {
  import opened Tally
  import opened Metrics
  import opened Options

  datatype Budget = Tiny | Normal | Deep

  datatype Accounting = Accounting(tier: Budget, tokens: nat, rawTokens: nat, stale: bool, truncated: bool)

  datatype Route = Route(hasEditCandidate: bool, llmRequired: bool, signals: seq<string>)

  const FAST_PATH := "[SYNREPO_CONTEXT_FAST_PATH]"
  const EDIT_CANDIDATE := "[SYNREPO_DETERMINISTIC_EDIT_CANDIDATE]"
  const LLM_NOT_REQUIRED := "[SYNREPO_LLM_NOT_REQUIRED]"

  datatype Update =
    | Card(accounting: Accounting, latencyMs: nat)
    | TestSurfaceHit
    | ChangedFiles(count: nat)
    | WorkflowCall(tool: string)
    | ToolResult(tool: string, error: Option<string>, savedWrite: Option<string>)
    | ResourceRead
    | SavedContextWrite(operation: string)
    | CompactOutput(returned: nat, original: nat, saved: nat, omitted: nat, truncated: bool)
    | ResponseBudget(tool: string, tokens: nat, overSoftCap: bool, truncated: bool)
    | ContextPackTokens(tokens: nat)
    | ResumeContext(tokens: nat)
    | RouteClassification(route: Route)
    | HookRouteEmission(route: Route)
    | HookFileRead(repeated: bool, tokens: nat)
    | AnchoredEdits(accepted: nat, rejected: nat)
    | CrossLinkGeneration(attempts: nat)
    | CrossLinkPromoted(count: nat)
    | CommentaryRefresh(errored: bool)

  function BudgetLabel(b: Budget): string {
    match b
    case Tiny => "tiny"
    case Normal => "normal"
    case Deep => "deep"
  }

  function SaturatingSub(a: nat, b: nat): nat {
    if a < b then 0 else a - b
  }

  function One(b: bool): nat {
    if b then 1 else 0
  }

  /** The effect of one `record_*` call. */
  function Apply(m: Metrics, u: Update): Metrics {
    m.(sums := ApplySums(m.sums, u),
       tallies := ApplyTallies(m.tallies, u),
       errorCodes := if u.ToolResult? && u.error.Some? then BumpNested(m.errorCodes, u.tool, u.error.value, 1)
                     else m.errorCodes,
       largestResponse := if u.ResponseBudget? then Max(m.largestResponse, u.tokens) else m.largestResponse)
  }

  function ApplySums(s: Sums, u: Update): Sums {
    match u
    case Card(a, latency) =>
      s.(cardsServed := s.cardsServed + 1,
         cardTokens := s.cardTokens + a.tokens,
         rawFileTokens := s.rawFileTokens + a.rawTokens,
         tokensSaved := s.tokensSaved + SaturatingSub(a.rawTokens, a.tokens),
         truncationApplied := s.truncationApplied + One(a.truncated),
         deepCardsServed := s.deepCardsServed + One(a.tier == Deep),
         staleResponses := s.staleResponses + One(a.stale),
         latencyMs := s.latencyMs + latency,
         latencySamples := s.latencySamples + 1)
    case TestSurfaceHit => s.(testSurfaceHits := s.testSurfaceHits + 1)
    case ChangedFiles(n) => s.(changedFiles := s.changedFiles + n)
    case WorkflowCall(_) => s
    case ToolResult(_, _, _) => s.(mcpRequests := s.mcpRequests + 1)
    case ResourceRead => s.(mcpRequests := s.mcpRequests + 1, mcpResourceReads := s.mcpResourceReads + 1)
    case SavedContextWrite(_) => s
    case CompactOutput(returned, original, saved, omitted, truncated) =>
      s.(compactOutputs := s.compactOutputs + 1,
         compactReturnedTokens := s.compactReturnedTokens + returned,
         compactOriginalTokens := s.compactOriginalTokens + original,
         compactTokensSaved := s.compactTokensSaved + saved,
         compactOmittedItems := s.compactOmittedItems + omitted,
         compactTruncationApplied := s.compactTruncationApplied + One(truncated))
    case ResponseBudget(_, _, overSoftCap, truncated) =>
      s.(responsesOverSoftCap := s.responsesOverSoftCap + One(overSoftCap),
         responsesTruncated := s.responsesTruncated + One(truncated))
    case ContextPackTokens(n) => s.(contextPackTokens := s.contextPackTokens + n)
    case ResumeContext(n) => s.(resumeResponses := s.resumeResponses + 1, resumeTokens := s.resumeTokens + n)
    case RouteClassification(r) =>
      s.(routeClassifications := s.routeClassifications + 1,
         editCandidates := s.editCandidates + One(r.hasEditCandidate),
         llmCallsAvoided := s.llmCallsAvoided + One(!r.llmRequired))
    case HookRouteEmission(r) =>
      s.(routeClassifications := s.routeClassifications + 1,
         fastPathSignals := s.fastPathSignals + One(FAST_PATH in r.signals),
         editCandidateSignals := s.editCandidateSignals + One(EDIT_CANDIDATE in r.signals),
         llmNotRequiredSignals := s.llmNotRequiredSignals + One(LLM_NOT_REQUIRED in r.signals),
         llmCallsAvoided := s.llmCallsAvoided + One(LLM_NOT_REQUIRED in r.signals),
         editCandidates := s.editCandidates + One(r.hasEditCandidate))
    case HookFileRead(repeated, tokens) =>
      s.(hookFileReads := s.hookFileReads + 1,
         hookRepeatedReadWarnings := s.hookRepeatedReadWarnings + One(repeated),
         hookRepeatedReadTokens := s.hookRepeatedReadTokens + if repeated then tokens else 0)
    case AnchoredEdits(accepted, rejected) =>
      s.(anchoredEditAccepted := s.anchoredEditAccepted + accepted,
         anchoredEditRejected := s.anchoredEditRejected + rejected)
    case CrossLinkGeneration(n) => s.(crossLinkGeneration := s.crossLinkGeneration + n)
    case CrossLinkPromoted(n) => s.(crossLinkPromoted := s.crossLinkPromoted + n)
    case CommentaryRefresh(errored) =>
      s.(commentaryRefresh := s.commentaryRefresh + 1,
         commentaryRefreshErrors := s.commentaryRefreshErrors + One(errored))
  }

  function BumpIf(now: bool, t: Tally, key: string): Tally {
    if now then Bump(t, key, 1) else t
  }

  function ApplyTallies(t: Tallies, u: Update): Tallies {
    match u
    case Card(a, _) => t.(budgetTierUsage := Bump(t.budgetTierUsage, BudgetLabel(a.tier), 1))
    case WorkflowCall(tool) => t.(workflowCalls := Bump(t.workflowCalls, tool, 1))
    case ToolResult(tool, error, savedWrite) =>
      t.(mcpToolCalls := Bump(t.mcpToolCalls, tool, 1),
         mcpToolErrors := BumpIf(error.Some?, t.mcpToolErrors, tool),
         savedContextWrites := BumpIf(savedWrite.Some?, t.savedContextWrites, savedWrite.GetOr("")))
    case SavedContextWrite(op) => t.(savedContextWrites := Bump(t.savedContextWrites, op, 1))
    case ResponseBudget(tool, tokens, _, _) => t.(toolTokens := Bump(t.toolTokens, tool, tokens))
    case _ => t
  }

  function ApplyAll(m: Metrics, us: seq<Update>): Metrics
    decreases us
  {
    if us == [] then m else ApplyAll(Apply(m, us[0]), us[1..])
  }

  lemma SumsThroughMerge(a: Sums, b: Sums, u: Update)
    ensures ApplySums(AddSums(a, b), u) == AddSums(a, ApplySums(b, u))
  {
    if u.Card? || u.CompactOutput? || u.HookRouteEmission? {
      WideSumsThroughMerge(a, b, u);
    } else {
      NarrowSumsThroughMerge(a, b, u);
    }
  }

  lemma WideSumsThroughMerge(a: Sums, b: Sums, u: Update)
    requires u.Card? || u.CompactOutput? || u.HookRouteEmission?
    ensures ApplySums(AddSums(a, b), u) == AddSums(a, ApplySums(b, u))
  {}

  lemma NarrowSumsThroughMerge(a: Sums, b: Sums, u: Update)
    requires !u.Card? && !u.CompactOutput? && !u.HookRouteEmission?
    ensures ApplySums(AddSums(a, b), u) == AddSums(a, ApplySums(b, u))
  {}

  lemma TalliesThroughMerge(a: Tallies, b: Tallies, u: Update)
    ensures ApplyTallies(MergeTallies(a, b), u) == MergeTallies(a, ApplyTallies(b, u))
  {
    if u.ToolResult? {
      ToolResultThroughMerge(a, b, u);
    } else if u.Card? {
      BumpThroughMerge(a.budgetTierUsage, b.budgetTierUsage, BudgetLabel(u.accounting.tier), 1);
    } else if u.WorkflowCall? {
      BumpThroughMerge(a.workflowCalls, b.workflowCalls, u.tool, 1);
    } else if u.SavedContextWrite? {
      BumpThroughMerge(a.savedContextWrites, b.savedContextWrites, u.operation, 1);
    } else if u.ResponseBudget? {
      BumpThroughMerge(a.toolTokens, b.toolTokens, u.tool, u.tokens);
    }
  }

  lemma ToolResultThroughMerge(a: Tallies, b: Tallies, u: Update)
    requires u.ToolResult?
    ensures ApplyTallies(MergeTallies(a, b), u) == MergeTallies(a, ApplyTallies(b, u))
  {
    BumpIfThroughMerge(true, a.mcpToolCalls, b.mcpToolCalls, u.tool);
    BumpIfThroughMerge(u.error.Some?, a.mcpToolErrors, b.mcpToolErrors, u.tool);
    BumpIfThroughMerge(u.savedWrite.Some?, a.savedContextWrites, b.savedContextWrites, u.savedWrite.GetOr(""));
  }

  lemma BumpIfThroughMerge(now: bool, a: Tally, b: Tally, key: string)
    ensures BumpIf(now, Merged(a, b), key) == Merged(a, BumpIf(now, b, key))
  {
    if now { BumpThroughMerge(a, b, key, 1); }
  }

  /** Recording into a delta and merging it later is recording into the merged counters. */
  lemma ApplyThroughMerge(a: Metrics, b: Metrics, u: Update)
    ensures Apply(Merge(a, b), u) == Merge(a, Apply(b, u))
  {
    SumsThroughMerge(a.sums, b.sums, u);
    TalliesThroughMerge(a.tallies, b.tallies, u);
    if u.ToolResult? && u.error.Some? {
      BumpNestedThroughMerge(a.errorCodes, b.errorCodes, u.tool, u.error.value, 1);
    }
  }

  lemma {:induction false} ApplyAllThroughMerge(a: Metrics, b: Metrics, us: seq<Update>)
    ensures ApplyAll(Merge(a, b), us) == Merge(a, ApplyAll(b, us))
    decreases us
  {
    if us != [] {
      ApplyThroughMerge(a, b, us[0]);
      ApplyAllThroughMerge(a, Apply(b, us[0]), us[1..]);
    }
  }

  /** What a batch of updates leaves in an empty delta. */
  function Effect(us: seq<Update>): Metrics {
    ApplyAll(Default(), us)
  }

  /** A batch acts as merging with its effect, so updates of different processes commute. */
  lemma BatchIsMerge(m: Metrics, us: seq<Update>)
    ensures ApplyAll(m, us) == Merge(m, Effect(us))
  {
    MergeUnit(m);
    ApplyAllThroughMerge(m, Default(), us);
  }

  lemma {:induction false} ApplyAllConcat(m: Metrics, us: seq<Update>, vs: seq<Update>)
    ensures ApplyAll(m, us + vs) == ApplyAll(ApplyAll(m, us), vs)
    decreases us
  {
    if us == [] {
      assert us + vs == vs;
    } else {
      ApplyAllConcat(Apply(m, us[0]), us[1..], vs);
      assert (us + vs)[1..] == us[1..] + vs;
    }
  }

  /** The relations between counters. */
  ghost predicate Coherent(m: Metrics) {
    && SumsCoherent(m.sums)
    && TalliesCoherent(m.sums, m.tallies)
    && ErrorsCoherent(m.tallies, m.errorCodes)
    && LargestCoherent(m.largestResponse, m.tallies.toolTokens)
  }

  ghost predicate SumsCoherent(s: Sums) {
    && s.cardsServed == s.latencySamples
    && s.rawFileTokens <= s.tokensSaved + s.cardTokens
    && s.llmNotRequiredSignals <= s.llmCallsAvoided <= s.routeClassifications
    && s.editCandidates <= s.routeClassifications
    && s.hookRepeatedReadWarnings <= s.hookFileReads
    && s.commentaryRefreshErrors <= s.commentaryRefresh
    && s.compactTruncationApplied <= s.compactOutputs
  }

  /** Requests are tool calls plus resource reads; each card is counted in one tier. */
  ghost predicate TalliesCoherent(s: Sums, t: Tallies) {
    && s.mcpRequests == Total(t.mcpToolCalls) + s.mcpResourceReads
    && s.cardsServed == Total(t.budgetTierUsage)
    && s.deepCardsServed == Get(t.budgetTierUsage, "deep")
  }

  /** Per tool: the error count is the sum over its codes and at most its calls. */
  ghost predicate ErrorsCoherent(t: Tallies, codes: Nested) {
    forall tool :: Get(t.mcpToolErrors, tool) == Total(Row(codes, tool)) <= Get(t.mcpToolCalls, tool)
  }

  /** Some tool was sent at least the largest response. */
  ghost predicate LargestCoherent(largest: nat, toolTokens: Tally) {
    largest == 0 || exists tool :: tool in toolTokens && largest <= toolTokens[tool]
  }

  lemma ApplyKeepsCoherent(m: Metrics, u: Update)
    requires Coherent(m)
    ensures Coherent(Apply(m, u))
  {
    ApplyKeepsTallies(m.sums, m.tallies, u);
    ApplyKeepsErrors(m, u);
    if u.ResponseBudget? { BumpKeepsLargest(m.largestResponse, m.tallies.toolTokens, u.tool, u.tokens); }
  }

  lemma ApplyKeepsTallies(s: Sums, t: Tallies, u: Update)
    requires TalliesCoherent(s, t)
    ensures TalliesCoherent(ApplySums(s, u), ApplyTallies(t, u))
  {
    match u
    case Card(c, _) => TotalBump(t.budgetTierUsage, BudgetLabel(c.tier), 1);
    case ToolResult(tool, _, _) => TotalBump(t.mcpToolCalls, tool, 1);
    case _ =>
  }

  lemma ApplyKeepsErrors(m: Metrics, u: Update)
    requires ErrorsCoherent(m.tallies, m.errorCodes)
    ensures ErrorsCoherent(Apply(m, u).tallies, Apply(m, u).errorCodes)
  {
    var t, t' := m.tallies, ApplyTallies(m.tallies, u);
    forall tool
      ensures Get(t'.mcpToolErrors, tool) == Total(Row(Apply(m, u).errorCodes, tool)) <= Get(t'.mcpToolCalls, tool)
    {
      assert Get(t.mcpToolErrors, tool) == Total(Row(m.errorCodes, tool)) <= Get(t.mcpToolCalls, tool);
      if u.ToolResult? && u.error.Some? && u.tool == tool {
        TotalBump(Row(m.errorCodes, tool), u.error.value, 1);
      }
    }
  }

  lemma BumpKeepsLargest(largest: nat, toolTokens: Tally, tool: string, tokens: nat)
    requires LargestCoherent(largest, toolTokens)
    ensures LargestCoherent(Max(largest, tokens), Bump(toolTokens, tool, tokens))
  {
    var after := Bump(toolTokens, tool, tokens);
    if largest < tokens {
      assert tokens <= after[tool];
    } else if largest != 0 {
      var t :| t in toolTokens && largest <= toolTokens[t];
      assert t in after && toolTokens[t] <= after[t];
    }
  }

  lemma MergeKeepsCoherent(a: Metrics, b: Metrics)
    requires Coherent(a) && Coherent(b)
    ensures Coherent(Merge(a, b))
  {
    MergeKeepsTallies(a, b);
    MergeKeepsErrors(a, b);
    MergeKeepsLargest(a.largestResponse, a.tallies.toolTokens, b.largestResponse, b.tallies.toolTokens);
  }

  lemma MergeKeepsTallies(a: Metrics, b: Metrics)
    requires TalliesCoherent(a.sums, a.tallies) && TalliesCoherent(b.sums, b.tallies)
    ensures TalliesCoherent(AddSums(a.sums, b.sums), MergeTallies(a.tallies, b.tallies))
  {
    TotalMerged(a.tallies.mcpToolCalls, b.tallies.mcpToolCalls);
    TotalMerged(a.tallies.budgetTierUsage, b.tallies.budgetTierUsage);
  }

  lemma MergeKeepsErrors(a: Metrics, b: Metrics)
    requires ErrorsCoherent(a.tallies, a.errorCodes) && ErrorsCoherent(b.tallies, b.errorCodes)
    ensures ErrorsCoherent(MergeTallies(a.tallies, b.tallies), MergedNested(a.errorCodes, b.errorCodes))
  {
    var t, codes := MergeTallies(a.tallies, b.tallies), MergedNested(a.errorCodes, b.errorCodes);
    forall tool ensures Get(t.mcpToolErrors, tool) == Total(Row(codes, tool)) <= Get(t.mcpToolCalls, tool) {
      RowTotalMerged(a.errorCodes, b.errorCodes, tool);
      assert Get(a.tallies.mcpToolErrors, tool) <= Get(a.tallies.mcpToolCalls, tool);
      assert Get(b.tallies.mcpToolErrors, tool) <= Get(b.tallies.mcpToolCalls, tool);
    }
  }

  lemma RowTotalMerged(a: Nested, b: Nested, tool: string)
    ensures Total(Row(MergedNested(a, b), tool)) == Total(Row(a, tool)) + Total(Row(b, tool))
  {
    RowMerged(a, b, tool);
    TotalMerged(Row(a, tool), Row(b, tool));
  }

  lemma MergeKeepsLargest(la: nat, ta: Tally, lb: nat, tb: Tally)
    requires LargestCoherent(la, ta) && LargestCoherent(lb, tb)
    ensures LargestCoherent(Max(la, lb), Merged(ta, tb))
  {
    if Max(la, lb) != 0 {
      var big := if la < lb then tb else ta;
      var t :| t in big && Max(la, lb) <= big[t];
      assert t in Merged(ta, tb) && big[t] <= Merged(ta, tb)[t];
    }
  }

  /** Any way of building counters: from nothing, by updates, and by merging separately built ones. */
  datatype History = Empty | Recorded(before: History, update: Update) | Joined(left: History, right: History)

  function Value(h: History): Metrics {
    match h
    case Empty => Default()
    case Recorded(h', u) => Apply(Value(h'), u)
    case Joined(l, r) => Merge(Value(l), Value(r))
  }

  function Updates(h: History): seq<Update> {
    match h
    case Empty => []
    case Recorded(h', u) => Updates(h') + [u]
    case Joined(l, r) => Updates(l) + Updates(r)
  }

  lemma {:induction false} EveryHistoryIsCoherent(h: History)
    ensures Coherent(Value(h))
  {
    match h
    case Empty =>
    case Recorded(h', u) =>
      EveryHistoryIsCoherent(h');
      ApplyKeepsCoherent(Value(h'), u);
    case Joined(l, r) =>
      EveryHistoryIsCoherent(l);
      EveryHistoryIsCoherent(r);
      MergeKeepsCoherent(Value(l), Value(r));
  }

  /** However updates were split over deltas and merged, the result is that of one counter
      receiving all of them. */
  lemma {:induction false} EveryHistoryIsOneRun(h: History)
    ensures Value(h) == ApplyAll(Default(), Updates(h))
  {
    match h
    case Empty =>
    case Recorded(h', u) =>
      EveryHistoryIsOneRun(h');
      ApplyAllConcat(Default(), Updates(h'), [u]);
    case Joined(l, r) =>
      EveryHistoryIsOneRun(l);
      EveryHistoryIsOneRun(r);
      ApplyAllConcat(Default(), Updates(l), Updates(r));
      BatchIsMerge(Value(l), Updates(r));
  }

  /** Counters that some history produces. */
  ghost predicate Built(m: Metrics) {
    exists h :: Value(h) == m
  }

  lemma BuiltIsCoherent(m: Metrics)
    requires Built(m)
    ensures Coherent(m)
  {
    var h :| Value(h) == m;
    EveryHistoryIsCoherent(h);
  }

  lemma DefaultIsBuilt()
    ensures Built(Default())
  {
    assert Value(Empty) == Default();
  }

  lemma MergeIsBuilt(a: Metrics, b: Metrics)
    ensures Built(a) && Built(b) ==> Built(Merge(a, b))
  {
    if Built(a) && Built(b) {
      var l, r :| Value(l) == a && Value(r) == b;
      assert Value(Joined(l, r)) == Merge(a, b);
    }
  }

  lemma {:induction false} BatchIsBuilt(m: Metrics, us: seq<Update>)
    requires Built(m)
    ensures Built(ApplyAll(m, us))
    decreases us
  {
    if us != [] {
      var h :| Value(h) == m;
      assert Value(Recorded(h, us[0])) == Apply(m, us[0]);
      BatchIsBuilt(Apply(m, us[0]), us[1..]);
    }
  }
}
