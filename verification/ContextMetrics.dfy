/** The mutable `ContextMetrics` record: every update changes it in place and is tied to the
    functions `Apply` and `Merge` on counter values. */
module ContextMetricsRecord {
  import opened Tally
  import opened Metrics
  import opened Recording
  import opened Options

  class ContextMetrics {
    var sums: Sums
    var tallies: Tallies
    var errorCodes: Nested
    var largestResponse: nat

    /** The value of the record. */
    function View(): Metrics
      reads this
    {
      Metrics(sums, tallies, errorCodes, largestResponse)
    }

    constructor ()
      ensures View() == Default()
    {
      sums, tallies, errorCodes, largestResponse := NO_SUMS, NO_TALLIES, map[], 0;
    }

    /** A record read back from a stored value. */
    constructor From(m: Metrics)
      ensures View() == m
    {
      sums, tallies, errorCodes, largestResponse := m.sums, m.tallies, m.errorCodes, m.largestResponse;
    }

    /** `merge_from`: additive fields in one assignment, each keyed field by its own pass over the delta. */
    method MergeFrom(delta: ContextMetrics)
      requires delta != this
      modifies this
      ensures View() == Merge(old(View()), delta.View())
    {
      sums := AddSums(sums, delta.sums);
      var tiers := MergeMap(tallies.budgetTierUsage, delta.tallies.budgetTierUsage);
      var workflows := MergeMap(tallies.workflowCalls, delta.tallies.workflowCalls);
      var calls := MergeMap(tallies.mcpToolCalls, delta.tallies.mcpToolCalls);
      var errors := MergeMap(tallies.mcpToolErrors, delta.tallies.mcpToolErrors);
      var writes := MergeMap(tallies.savedContextWrites, delta.tallies.savedContextWrites);
      var tokens := MergeMap(tallies.toolTokens, delta.tallies.toolTokens);
      tallies := Tallies(tiers, workflows, calls, errors, writes, tokens);
      errorCodes := MergeNestedMap(errorCodes, delta.errorCodes);
      largestResponse := Max(largestResponse, delta.largestResponse);
    }

    method RecordCard(a: Accounting, latencyMs: nat)
      modifies this
      ensures View() == Apply(old(View()), Card(a, latencyMs))
    {
      sums := sums.(cardsServed := sums.cardsServed + 1,
                    cardTokens := sums.cardTokens + a.tokens,
                    rawFileTokens := sums.rawFileTokens + a.rawTokens,
                    tokensSaved := sums.tokensSaved + SaturatingSub(a.rawTokens, a.tokens));
      tallies := tallies.(budgetTierUsage := Bump(tallies.budgetTierUsage, BudgetLabel(a.tier), 1));
      if a.truncated { sums := sums.(truncationApplied := sums.truncationApplied + 1); }
      if a.tier == Deep { sums := sums.(deepCardsServed := sums.deepCardsServed + 1); }
      if a.stale { sums := sums.(staleResponses := sums.staleResponses + 1); }
      sums := sums.(latencyMs := sums.latencyMs + latencyMs, latencySamples := sums.latencySamples + 1);
      assert sums == ApplySums(old(sums), Card(a, latencyMs));
    }

    method RecordTestSurfaceHit()
      modifies this
      ensures View() == Apply(old(View()), TestSurfaceHit)
    {
      sums := sums.(testSurfaceHits := sums.testSurfaceHits + 1);
    }

    method RecordChangedFiles(count: nat)
      modifies this
      ensures View() == Apply(old(View()), ChangedFiles(count))
    {
      sums := sums.(changedFiles := sums.changedFiles + count);
    }

    method RecordWorkflowCall(tool: string)
      modifies this
      ensures View() == Apply(old(View()), WorkflowCall(tool))
    {
      tallies := tallies.(workflowCalls := Bump(tallies.workflowCalls, tool, 1));
    }

    method RecordToolResult(tool: string, error: Option<string>, savedWrite: Option<string>)
      modifies this
      ensures View() == Apply(old(View()), ToolResult(tool, error, savedWrite))
    {
      sums := sums.(mcpRequests := sums.mcpRequests + 1);
      tallies := tallies.(mcpToolCalls := Bump(tallies.mcpToolCalls, tool, 1));
      if error.Some? {
        tallies := tallies.(mcpToolErrors := Bump(tallies.mcpToolErrors, tool, 1));
        errorCodes := BumpNested(errorCodes, tool, error.value, 1);
      }
      if savedWrite.Some? { RecordSavedContextWrite(savedWrite.value); }
    }

    method RecordResourceRead()
      modifies this
      ensures View() == Apply(old(View()), ResourceRead)
    {
      sums := sums.(mcpRequests := sums.mcpRequests + 1);
      sums := sums.(mcpResourceReads := sums.mcpResourceReads + 1);
    }

    method RecordSavedContextWrite(operation: string)
      modifies this
      ensures View() == Apply(old(View()), SavedContextWrite(operation))
    {
      tallies := tallies.(savedContextWrites := Bump(tallies.savedContextWrites, operation, 1));
    }

    method RecordCompactOutput(returned: nat, original: nat, saved: nat, omitted: nat, truncated: bool)
      modifies this
      ensures View() == Apply(old(View()), CompactOutput(returned, original, saved, omitted, truncated))
    {
      sums := sums.(compactOutputs := sums.compactOutputs + 1,
                    compactReturnedTokens := sums.compactReturnedTokens + returned,
                    compactOriginalTokens := sums.compactOriginalTokens + original,
                    compactTokensSaved := sums.compactTokensSaved + saved,
                    compactOmittedItems := sums.compactOmittedItems + omitted);
      if truncated { sums := sums.(compactTruncationApplied := sums.compactTruncationApplied + 1); }
    }

    method RecordResponseBudget(tool: string, tokens: nat, overSoftCap: bool, truncated: bool)
      modifies this
      ensures View() == Apply(old(View()), ResponseBudget(tool, tokens, overSoftCap, truncated))
    {
      tallies := tallies.(toolTokens := Bump(tallies.toolTokens, tool, tokens));
      largestResponse := Max(largestResponse, tokens);
      if overSoftCap { sums := sums.(responsesOverSoftCap := sums.responsesOverSoftCap + 1); }
      if truncated { sums := sums.(responsesTruncated := sums.responsesTruncated + 1); }
    }

    method RecordContextPackTokens(tokens: nat)
      modifies this
      ensures View() == Apply(old(View()), ContextPackTokens(tokens))
    {
      sums := sums.(contextPackTokens := sums.contextPackTokens + tokens);
    }

    method RecordResumeContext(tokens: nat)
      modifies this
      ensures View() == Apply(old(View()), ResumeContext(tokens))
    {
      sums := sums.(resumeResponses := sums.resumeResponses + 1);
      sums := sums.(resumeTokens := sums.resumeTokens + tokens);
    }

    method RecordRouteClassification(route: Route)
      modifies this
      ensures View() == Apply(old(View()), RouteClassification(route))
    {
      sums := sums.(routeClassifications := sums.routeClassifications + 1);
      if route.hasEditCandidate { sums := sums.(editCandidates := sums.editCandidates + 1); }
      if !route.llmRequired { sums := sums.(llmCallsAvoided := sums.llmCallsAvoided + 1); }
    }

    method RecordHookRouteEmission(route: Route)
      modifies this
      ensures View() == Apply(old(View()), HookRouteEmission(route))
    {
      sums := sums.(routeClassifications := sums.routeClassifications + 1);
      if FAST_PATH in route.signals { sums := sums.(fastPathSignals := sums.fastPathSignals + 1); }
      if EDIT_CANDIDATE in route.signals { sums := sums.(editCandidateSignals := sums.editCandidateSignals + 1); }
      if LLM_NOT_REQUIRED in route.signals {
        sums := sums.(llmNotRequiredSignals := sums.llmNotRequiredSignals + 1,
                      llmCallsAvoided := sums.llmCallsAvoided + 1);
      }
      if route.hasEditCandidate { sums := sums.(editCandidates := sums.editCandidates + 1); }
    }

    method RecordHookFileRead(repeated: bool, tokens: nat)
      modifies this
      ensures View() == Apply(old(View()), HookFileRead(repeated, tokens))
    {
      sums := sums.(hookFileReads := sums.hookFileReads + 1);
      if repeated {
        sums := sums.(hookRepeatedReadWarnings := sums.hookRepeatedReadWarnings + 1,
                      hookRepeatedReadTokens := sums.hookRepeatedReadTokens + tokens);
      }
    }

    method RecordAnchoredEdits(accepted: nat, rejected: nat)
      modifies this
      ensures View() == Apply(old(View()), AnchoredEdits(accepted, rejected))
    {
      sums := sums.(anchoredEditAccepted := sums.anchoredEditAccepted + accepted);
      sums := sums.(anchoredEditRejected := sums.anchoredEditRejected + rejected);
    }

    method RecordCrossLinkGeneration(attempts: nat)
      modifies this
      ensures View() == Apply(old(View()), CrossLinkGeneration(attempts))
    {
      sums := sums.(crossLinkGeneration := sums.crossLinkGeneration + attempts);
    }

    method RecordCrossLinkPromoted(count: nat)
      modifies this
      ensures View() == Apply(old(View()), CrossLinkPromoted(count))
    {
      sums := sums.(crossLinkPromoted := sums.crossLinkPromoted + count);
    }

    method RecordCommentaryRefresh(errored: bool)
      modifies this
      ensures View() == Apply(old(View()), CommentaryRefresh(errored))
    {
      sums := sums.(commentaryRefresh := sums.commentaryRefresh + 1);
      if errored { sums := sums.(commentaryRefreshErrors := sums.commentaryRefreshErrors + 1); }
    }

    /** One closure passed to `record_delta`: a batch of updates on the same record. */
    method RecordAll(us: seq<Update>)
      modifies this
      ensures View() == ApplyAll(old(View()), us)
    {
      for i := 0 to |us|
        invariant View() == ApplyAll(old(View()), us[..i])
      {
        Record(us[i]);
        ApplyAllConcat(old(View()), us[..i], [us[i]]);
        assert us[..i + 1] == us[..i] + [us[i]];
      }
      assert us[..|us|] == us;
    }

    method Record(u: Update)
      modifies this
      ensures View() == Apply(old(View()), u)
    {
      match u
      case Card(a, latency) => RecordCard(a, latency);
      case TestSurfaceHit => RecordTestSurfaceHit();
      case ChangedFiles(n) => RecordChangedFiles(n);
      case WorkflowCall(tool) => RecordWorkflowCall(tool);
      case ToolResult(tool, error, write) => RecordToolResult(tool, error, write);
      case ResourceRead => RecordResourceRead();
      case SavedContextWrite(op) => RecordSavedContextWrite(op);
      case CompactOutput(r, o, s, k, t) => RecordCompactOutput(r, o, s, k, t);
      case ResponseBudget(tool, n, o, t) => RecordResponseBudget(tool, n, o, t);
      case ContextPackTokens(n) => RecordContextPackTokens(n);
      case ResumeContext(n) => RecordResumeContext(n);
      case RouteClassification(r) => RecordRouteClassification(r);
      case HookRouteEmission(r) => RecordHookRouteEmission(r);
      case HookFileRead(r, n) => RecordHookFileRead(r, n);
      case AnchoredEdits(a, r) => RecordAnchoredEdits(a, r);
      case CrossLinkGeneration(n) => RecordCrossLinkGeneration(n);
      case CrossLinkPromoted(n) => RecordCrossLinkPromoted(n);
      case CommentaryRefresh(e) => RecordCommentaryRefresh(e);
    }
  }
}
