/** The context-metrics counters and the algebra of merging one set of counters into another.
    The fields of `ContextMetrics` are grouped by how merging treats them. */
module Metrics {
  import opened Tally

  /** Counters that merging adds. */
  datatype Sums = Sums(
    cardsServed: nat, cardTokens: nat, rawFileTokens: nat, tokensSaved: nat, truncationApplied: nat,
    staleResponses: nat, testSurfaceHits: nat, changedFiles: nat, latencyMs: nat, latencySamples: nat,
    mcpRequests: nat, mcpResourceReads: nat, compactOutputs: nat, compactReturnedTokens: nat,
    compactOriginalTokens: nat, compactTokensSaved: nat, compactOmittedItems: nat,
    compactTruncationApplied: nat, responsesOverSoftCap: nat, responsesTruncated: nat, deepCardsServed: nat,
    contextPackTokens: nat, resumeResponses: nat, resumeTokens: nat, routeClassifications: nat,
    fastPathSignals: nat, editCandidates: nat, editCandidateSignals: nat, llmNotRequiredSignals: nat,
    anchoredEditAccepted: nat, anchoredEditRejected: nat, crossLinkGeneration: nat, crossLinkPromoted: nat,
    commentaryRefresh: nat, commentaryRefreshErrors: nat, llmCallsAvoided: nat, hookFileReads: nat,
    hookRepeatedReadWarnings: nat, hookRepeatedReadTokens: nat
  ) {
    predicate IsZero() {
      && cardsServed == 0 && cardTokens == 0 && rawFileTokens == 0 && tokensSaved == 0
      && truncationApplied == 0 && staleResponses == 0 && testSurfaceHits == 0 && changedFiles == 0
      && latencyMs == 0 && latencySamples == 0 && mcpRequests == 0 && mcpResourceReads == 0
      && compactOutputs == 0 && compactReturnedTokens == 0 && compactOriginalTokens == 0
      && compactTokensSaved == 0 && compactOmittedItems == 0 && compactTruncationApplied == 0
      && responsesOverSoftCap == 0 && responsesTruncated == 0 && deepCardsServed == 0
      && contextPackTokens == 0 && resumeResponses == 0 && resumeTokens == 0 && routeClassifications == 0
      && fastPathSignals == 0 && editCandidates == 0 && editCandidateSignals == 0
      && llmNotRequiredSignals == 0 && anchoredEditAccepted == 0 && anchoredEditRejected == 0
      && crossLinkGeneration == 0 && crossLinkPromoted == 0 && commentaryRefresh == 0
      && commentaryRefreshErrors == 0 && llmCallsAvoided == 0 && hookFileReads == 0
      && hookRepeatedReadWarnings == 0 && hookRepeatedReadTokens == 0
    }
  }

  /** Counters keyed by one name. */
  datatype Tallies = Tallies(
    budgetTierUsage: Tally, workflowCalls: Tally, mcpToolCalls: Tally, mcpToolErrors: Tally,
    savedContextWrites: Tally, toolTokens: Tally
  ) {
    predicate IsEmpty() {
      && |budgetTierUsage| == 0 && |workflowCalls| == 0 && |mcpToolCalls| == 0 && |mcpToolErrors| == 0
      && |savedContextWrites| == 0 && |toolTokens| == 0
    }
  }

  /** One `ContextMetrics` value; `errorCodes` is keyed by tool and then by error code. */
  datatype Metrics = Metrics(sums: Sums, tallies: Tallies, errorCodes: Nested, largestResponse: nat) {
    predicate IsEmpty() {
      sums.IsZero() && tallies.IsEmpty() && |errorCodes| == 0 && largestResponse == 0
    }
  }

  function Max(a: nat, b: nat): nat {
    if a < b then b else a
  }

  const NO_SUMS := Sums(
    0, 0, 0, 0, 0, 0, 0, 0, 0, 0, 0, 0, 0, 0, 0, 0, 0, 0, 0, 0, 0, 0, 0, 0, 0, 0, 0, 0, 0, 0, 0, 0, 0, 0, 0,
    0, 0, 0, 0
  )

  const NO_TALLIES := Tallies(map[], map[], map[], map[], map[], map[])

  function Default(): Metrics {
    Metrics(NO_SUMS, NO_TALLIES, map[], 0)
  }

  function AddSums(a: Sums, b: Sums): Sums {
    Sums(
      a.cardsServed + b.cardsServed, a.cardTokens + b.cardTokens, a.rawFileTokens + b.rawFileTokens,
      a.tokensSaved + b.tokensSaved, a.truncationApplied + b.truncationApplied,
      a.staleResponses + b.staleResponses, a.testSurfaceHits + b.testSurfaceHits,
      a.changedFiles + b.changedFiles, a.latencyMs + b.latencyMs, a.latencySamples + b.latencySamples,
      a.mcpRequests + b.mcpRequests, a.mcpResourceReads + b.mcpResourceReads,
      a.compactOutputs + b.compactOutputs, a.compactReturnedTokens + b.compactReturnedTokens,
      a.compactOriginalTokens + b.compactOriginalTokens, a.compactTokensSaved + b.compactTokensSaved,
      a.compactOmittedItems + b.compactOmittedItems, a.compactTruncationApplied + b.compactTruncationApplied,
      a.responsesOverSoftCap + b.responsesOverSoftCap, a.responsesTruncated + b.responsesTruncated,
      a.deepCardsServed + b.deepCardsServed, a.contextPackTokens + b.contextPackTokens,
      a.resumeResponses + b.resumeResponses, a.resumeTokens + b.resumeTokens,
      a.routeClassifications + b.routeClassifications, a.fastPathSignals + b.fastPathSignals,
      a.editCandidates + b.editCandidates, a.editCandidateSignals + b.editCandidateSignals,
      a.llmNotRequiredSignals + b.llmNotRequiredSignals, a.anchoredEditAccepted + b.anchoredEditAccepted,
      a.anchoredEditRejected + b.anchoredEditRejected, a.crossLinkGeneration + b.crossLinkGeneration,
      a.crossLinkPromoted + b.crossLinkPromoted, a.commentaryRefresh + b.commentaryRefresh,
      a.commentaryRefreshErrors + b.commentaryRefreshErrors, a.llmCallsAvoided + b.llmCallsAvoided,
      a.hookFileReads + b.hookFileReads, a.hookRepeatedReadWarnings + b.hookRepeatedReadWarnings,
      a.hookRepeatedReadTokens + b.hookRepeatedReadTokens
    )
  }

  function MergeTallies(a: Tallies, b: Tallies): Tallies {
    Tallies(
      Merged(a.budgetTierUsage, b.budgetTierUsage), Merged(a.workflowCalls, b.workflowCalls),
      Merged(a.mcpToolCalls, b.mcpToolCalls), Merged(a.mcpToolErrors, b.mcpToolErrors),
      Merged(a.savedContextWrites, b.savedContextWrites), Merged(a.toolTokens, b.toolTokens)
    )
  }

  /** `merge_from`, on values: every counter is added except `largestResponse`, which keeps the larger. */
  function Merge(a: Metrics, b: Metrics): Metrics {
    Metrics(
      AddSums(a.sums, b.sums), MergeTallies(a.tallies, b.tallies),
      MergedNested(a.errorCodes, b.errorCodes), Max(a.largestResponse, b.largestResponse)
    )
  }

  ghost predicate SumsAtMost(a: Sums, b: Sums) {
    && a.cardsServed <= b.cardsServed && a.cardTokens <= b.cardTokens && a.rawFileTokens <= b.rawFileTokens
    && a.tokensSaved <= b.tokensSaved && a.truncationApplied <= b.truncationApplied
    && a.staleResponses <= b.staleResponses && a.testSurfaceHits <= b.testSurfaceHits
    && a.changedFiles <= b.changedFiles && a.latencyMs <= b.latencyMs && a.latencySamples <= b.latencySamples
    && a.mcpRequests <= b.mcpRequests && a.mcpResourceReads <= b.mcpResourceReads
    && a.compactOutputs <= b.compactOutputs && a.compactReturnedTokens <= b.compactReturnedTokens
    && a.compactOriginalTokens <= b.compactOriginalTokens && a.compactTokensSaved <= b.compactTokensSaved
    && a.compactOmittedItems <= b.compactOmittedItems
    && a.compactTruncationApplied <= b.compactTruncationApplied
    && a.responsesOverSoftCap <= b.responsesOverSoftCap && a.responsesTruncated <= b.responsesTruncated
    && a.deepCardsServed <= b.deepCardsServed && a.contextPackTokens <= b.contextPackTokens
    && a.resumeResponses <= b.resumeResponses && a.resumeTokens <= b.resumeTokens
    && a.routeClassifications <= b.routeClassifications && a.fastPathSignals <= b.fastPathSignals
    && a.editCandidates <= b.editCandidates && a.editCandidateSignals <= b.editCandidateSignals
    && a.llmNotRequiredSignals <= b.llmNotRequiredSignals && a.anchoredEditAccepted <= b.anchoredEditAccepted
    && a.anchoredEditRejected <= b.anchoredEditRejected && a.crossLinkGeneration <= b.crossLinkGeneration
    && a.crossLinkPromoted <= b.crossLinkPromoted && a.commentaryRefresh <= b.commentaryRefresh
    && a.commentaryRefreshErrors <= b.commentaryRefreshErrors && a.llmCallsAvoided <= b.llmCallsAvoided
    && a.hookFileReads <= b.hookFileReads && a.hookRepeatedReadWarnings <= b.hookRepeatedReadWarnings
    && a.hookRepeatedReadTokens <= b.hookRepeatedReadTokens
  }

  ghost predicate TalliesAtMost(a: Tallies, b: Tallies) {
    && Leq(a.budgetTierUsage, b.budgetTierUsage) && Leq(a.workflowCalls, b.workflowCalls)
    && Leq(a.mcpToolCalls, b.mcpToolCalls) && Leq(a.mcpToolErrors, b.mcpToolErrors)
    && Leq(a.savedContextWrites, b.savedContextWrites) && Leq(a.toolTokens, b.toolTokens)
  }

  /** Pointwise order: every counter and every stored key of `a` is covered by `b`. */
  ghost predicate AtMost(a: Metrics, b: Metrics) {
    && SumsAtMost(a.sums, b.sums)
    && TalliesAtMost(a.tallies, b.tallies)
    && LeqNested(a.errorCodes, b.errorCodes)
    && a.largestResponse <= b.largestResponse
  }

  /** The flush shortcut tests emptiness field by field; it recognises the default value and nothing else. */
  lemma EmptyIsDefault(m: Metrics)
    ensures m.IsEmpty() <==> m == Default()
  {
    if m.IsEmpty() {
      var t := m.tallies;
      assert t.budgetTierUsage == map[] && t.workflowCalls == map[] && t.mcpToolCalls == map[]
      && t.mcpToolErrors == map[] && t.savedContextWrites == map[] && t.toolTokens == map[];
      assert m.errorCodes == map[];
    }
  }

  lemma AddSumsLaws(a: Sums, b: Sums, c: Sums)
    ensures AddSums(a, b) == AddSums(b, a)
    ensures AddSums(AddSums(a, b), c) == AddSums(a, AddSums(b, c))
    ensures AddSums(a, NO_SUMS) == a
  {}

  lemma MergeTalliesUnit(a: Tallies)
    ensures MergeTallies(a, NO_TALLIES) == a
  {
    MergedUnit(a.budgetTierUsage);
    MergedUnit(a.workflowCalls);
    MergedUnit(a.mcpToolCalls);
    MergedUnit(a.mcpToolErrors);
    MergedUnit(a.savedContextWrites);
    MergedUnit(a.toolTokens);
  }

  lemma MergeTalliesCommutes(a: Tallies, b: Tallies)
    ensures MergeTallies(a, b) == MergeTallies(b, a)
  {
    MergedCommutes(a.budgetTierUsage, b.budgetTierUsage);
    MergedCommutes(a.workflowCalls, b.workflowCalls);
    MergedCommutes(a.mcpToolCalls, b.mcpToolCalls);
    MergedCommutes(a.mcpToolErrors, b.mcpToolErrors);
    MergedCommutes(a.savedContextWrites, b.savedContextWrites);
    MergedCommutes(a.toolTokens, b.toolTokens);
  }

  lemma MergeTalliesAssociates(a: Tallies, b: Tallies, c: Tallies)
    ensures MergeTallies(MergeTallies(a, b), c) == MergeTallies(a, MergeTallies(b, c))
  {
    MergedAssociates(a.budgetTierUsage, b.budgetTierUsage, c.budgetTierUsage);
    MergedAssociates(a.workflowCalls, b.workflowCalls, c.workflowCalls);
    MergedAssociates(a.mcpToolCalls, b.mcpToolCalls, c.mcpToolCalls);
    MergedAssociates(a.mcpToolErrors, b.mcpToolErrors, c.mcpToolErrors);
    MergedAssociates(a.savedContextWrites, b.savedContextWrites, c.savedContextWrites);
    MergedAssociates(a.toolTokens, b.toolTokens, c.toolTokens);
  }

  lemma MergeUnit(a: Metrics)
    ensures Merge(a, Default()) == a
  {
    AddSumsLaws(a.sums, NO_SUMS, NO_SUMS);
    MergeTalliesUnit(a.tallies);
    NestedUnit(a.errorCodes);
  }

  lemma MergeCommutes(a: Metrics, b: Metrics)
    ensures Merge(a, b) == Merge(b, a)
  {
    AddSumsLaws(a.sums, b.sums, NO_SUMS);
    MergeTalliesCommutes(a.tallies, b.tallies);
    NestedCommutes(a.errorCodes, b.errorCodes);
  }

  lemma MergeAssociates(a: Metrics, b: Metrics, c: Metrics)
    ensures Merge(Merge(a, b), c) == Merge(a, Merge(b, c))
  {
    AddSumsLaws(a.sums, b.sums, c.sums);
    MergeTalliesAssociates(a.tallies, b.tallies, c.tallies);
    NestedAssociates(a.errorCodes, b.errorCodes, c.errorCodes);
  }

  lemma MergeTalliesGrows(a: Tallies, b: Tallies)
    ensures TalliesAtMost(a, MergeTallies(a, b))
  {}

  /** Merging never loses a count. */
  lemma MergeGrows(a: Metrics, b: Metrics)
    ensures AtMost(a, Merge(a, b))
  {
    MergeTalliesGrows(a.tallies, b.tallies);
    NestedGrows(a.errorCodes, b.errorCodes);
  }
}
