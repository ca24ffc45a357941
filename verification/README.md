# Verification of the write-behind counters, drift scores, search planning, repair log and project registry

This project models the parts of the repository that carry state across processes, cycles and runs, and proves what
they keep. Check it with `dafny verify dfyconfig.toml`.

| module | what it models |
|---|---|
| `Tally`, `Metrics`, `Recording`, `CounterTotals`, `ContextMetricsRecord` | the context-metrics record: 39 sums, 6 keyed maps, a nested error map and a maximum; its merge, its 18 updates, and the class that updates the fields in place |
| `WriteBehind`, `Monoids` | the multi-process protocol over any commutative monoid: records, the flush steps, an I/O failure at each of them, and stops at any point |
| `Persistence` | the protocol for the real counters, and `record_delta`, `flush_slot`, `load`, `load_optional` and `save` as methods of one process |
| `AtomicWrite`, `Decimal` | the storage primitive as a step system over names, inodes and what is durable, with any number of concurrent calls |
| `Drift`, `DriftStore`, `ByteOrder` | fingerprint distance, endpoint and edge scores in exact arithmetic; the two revision-keyed tables and the cycle over them |
| `GlobPlan`, `GlobLaws`, `RootedSearch`, `FileScan`, `TextLines` | a glob matcher, the prefix-overfetch-filter plan, the three search lanes, and the direct scan of one file |
| `RepairLog` | the log text, both passes of a rotation, appends, and runs of both |
| `ProjectRows`, `Relocation`, `Registry`, `RegistryEffects`, `RegistryFile` | registry rows and selectors, the rewriting of install records, sixteen operations as a state machine, and the class that performs them |
| `Prometheus`, `GitStatus`, `NodeIds`, `Gitignore`, `Whitespace` | label escaping and labelled families, NUL-delimited status records, 128-bit IDs, the `.gitignore` line |

Code that changes state is modelled by methods whose `ensures` tie the new state to a specification function; what the
repository promises is then proved about that function. Where an operation depends on the environment (a lock, a read,
a write, the clock, the order of a hash map), the environment's answer is a parameter, so every theorem covers every
answer.

The relations between counters that `Coherent` names: requests are tool calls plus resource reads; cards are latency
samples and are counted in one tier each; deep cards are the tier "deep"; raw file tokens are at most saved plus card
tokens; per tool, errors are the sum over its error codes and at most its calls; some tool was sent at least the
largest response; signals without a needed call are at most avoided calls, and those at most route classifications;
edit candidates are at most route classifications; repeated-read warnings are at most hook reads; refresh errors are at
most refreshes; truncations are at most compact outputs.

## Where code and expectation differ

The model follows the code. Each of these is a lemma; where a property fails, its exact condition is proved for all inputs.

- Stored drift rows are read back by `MAX(revision)` and truncated by `revision <`, but the revision is a Git object ID,
  which is not ordered by time. Tables hold on to one row set each for readers and later cycles, whatever revisions come
  in: rows under a revision that sorts lower are ignored, under the same one added, under a higher one put in its place
  (`DriftStore.RunIsReplay`, `DriftStore.NewerRowsFreezeTheReader`). A cycle reads back its rows exactly when a revision
  that sorts higher holds just these, or there is none and the rows stored under its own revision are all written again
  (`DriftStore.ReadsBackIff`). The revision "unknown" of a repository without a commit (src/pipeline/git/mod.rs:76-83)
  sorts above all object IDs (`DriftStore.UnbornHeadFreezesTheReader`).
- A compile at an unchanged revision is the usual case. It replaces the fingerprints of all files still there; those of
  files deleted since then stay, and the next cycle compares with them (`DriftStore.PriorIsPreviousSnapshot`). Scores of
  edges that no longer drift stay too, so compiling an unchanged graph twice resets scores to zero only when the
  revision is new (`DriftStore.RunScores`, `DriftStore.SameRevisionReadsBackIff`).
- The four store calls of a drift cycle are separate transactions, and the caller goes on after an error
  (src/pipeline/structural/mod.rs:152). A cycle that fails after truncating the fingerprints loses them, and the next one
  finds no drift (`DriftStore.FailureKeepsPriorIff`, `DriftStore.LostPriorHidesDrift`).
- The comment on `endpoint_drift` speaks of full drift on the first cycle; the code scores a file without a prior
  fingerprint 0 (`Drift.EndpointBounds`).
- A process can lose sixteen updates, not fifteen: the sixteenth is in memory while its own flush is on the way
  (`WriteBehind.SixteenCanBeUnwritten`).
- `load` reads the file before the pending delta, so what the process writes in between is missing, and nothing else
  (`WriteBehind.LoadMissesOwnFlush`); it never counts anything twice.
- `atomic_write` reports success even when the directory could not be synced. A rename survives a power loss exactly when
  some later directory sync before it, its own or another call's, reached the disk, or every older version that may
  come back has been installed again (`AtomicWrite.SuccessIsDurableIffDirSynced`).
- A glob's plain prefix is wrong when it contains a backslash (`GlobPlan.MatchesStartWithPrefix`), and then nothing is
  found (`GlobPlan.PlanKeepsMeaning`); the overfetch is capped (`GlobPlan.OverfetchCoversLimit`); branch roots apply the
  limit before the glob (`RootedSearch.GlobBranchLane`). When the search as a whole still returns the first wanted rows is
  `RootedSearch.GlobSearchIsExactIff`.
- Byte offsets of a direct scan fall short by the number of earlier CR LF lines, so an offset is right exactly when no
  CR LF ends before its line (`FileScan.OffsetFallsShort`).
- Repair-log entries are written with the field `synced_at` (src/pipeline/repair/types/models.rs:138-155) while rotation
  looks for `timestamp`, so no such entry is ever summarised (`RepairLog.WithoutTimestampNothingLeaves`). A summarised
  surface name with a line feed would break the header (`RepairLog.ConservedIff`, `RepairLog.ConservedIffNamesOneLine`).
- Project IDs are stable but not unique: relinking keeps the ID of the old path, and registering that path again derives
  it once more (`Registry.RelinkThenRegisterCollides`, `Registry.IdsStayDistinctIff`).
- Adding and removing the ignore line does not restore every file (`Gitignore.RestoredIff`).

## Model

| member | source | states |
|---|---|---|
| `WriteBehind.Conservation` | `src/pipeline/context_metrics/persistence.rs:258-297` | over every interleaving of any number of processes recording, flushing, failing at any I/O step and stopping at any point, the file merged with all pending deltas and with what stopped processes lost equals one counter that received every record once |
| `WriteBehind.StepAbs` | `src/pipeline/context_metrics/persistence.rs:258-297` | the abstract value moves only at a record (by its effect) and at a stop (by the unwritten delta); every flush step, failed or not, leaves it alone, the write being the commit point |
| `WriteBehind.StepKeepsInv` | `src/pipeline/context_metrics/persistence.rs:258-297` | every step keeps the lock held by one flushing process at most, the slot equal to its unflushed records, and the file equal to what was written into it |
| `WriteBehind.ExactWithoutStops` | `src/pipeline/context_metrics/persistence.rs:258-297` | if no process stops, nothing is lost and nothing is counted twice |
| `WriteBehind.StopLoses` | `src/pipeline/context_metrics/persistence.rs:258-282` | a stop loses exactly the records since the last write: none between write and clear, at most 15 between calls and at most 16 inside the sixteenth call, if no flush failed since the slot was last emptied |
| `WriteBehind.AtMostSixteen` | `src/pipeline/context_metrics/persistence.rs:258-297` | over any run in which no flush of a process fails, it holds at most fifteen unwritten updates between calls and sixteen while its own flush is on the way |
| `WriteBehind.SixteenCanBeUnwritten` | `src/pipeline/context_metrics/persistence.rs:258-282` | the bound of 16 is met by sixteen records in a row without failure or timeout |
| `WriteBehind.LoadNeverOvercounts` | `src/pipeline/context_metrics/persistence.rs:40-46` | file read followed by pending read is part of the true total at return, whatever steps fall in between |
| `WriteBehind.PowerLossKeepsPart` | `src/pipeline/context_metrics/persistence.rs:258-297` | after a power loss the file holds at least what the last durable file held and no more than was recorded, and each later record is counted once on top |
| `WriteBehind.LoadSeesOwnRecords` | `src/pipeline/context_metrics/persistence.rs:40-46` | it includes every record of its own process, if that process does not write between the two reads |
| `WriteBehind.LoadMissesOwnFlush` | `src/pipeline/context_metrics/persistence.rs:40-46` | exactly what `load` misses of its own process, whatever falls between the two reads: it returns what the file held at the first read and what is pending at the second, and lacks precisely what the process wrote in between |
| `WriteBehind.OneFlushMissed` | `src/pipeline/context_metrics/persistence.rs:40-46` | that happens: with one write between the two reads the result is the old file and misses the whole delta |
| `WriteBehind.FlushCanAdvance` | `src/pipeline/context_metrics/persistence.rs:284-297` | while any process is flushing, some flush step that is not a failure can be taken, so the lock is never waited for in vain |
| `WriteBehind.RecordOne` | `src/pipeline/context_metrics/persistence.rs:260-283` | one record: the delta grows by the effect, and the process starts to flush at the sixteenth record or when due, unless there is nothing to write |
| `WriteBehind.RunKeepsAll` | `src/pipeline/context_metrics/persistence.rs:258-297` | a property of counters closed under merging holds of the file, every delta and every in-flight copy throughout a run |
| `Persistence.CountersLawful` | `src/pipeline/context_metrics/mod.rs:210-270` | the real counters with `merge_from` and the empty record form the commutative monoid the protocol needs |
| `Persistence.BelowIsAtMost` | `src/pipeline/context_metrics/mod.rs:210-270` | being part of another merge means being pointwise at most it |
| `Persistence.MetricsConserved` | `src/pipeline/context_metrics/persistence.rs:258-297` | conservation for the real counters: file, pending deltas and losses together are every recorded update applied once to the starting file |
| `Persistence.LoadIsCoherent` | `src/pipeline/context_metrics/persistence.rs:40-46` | the file of any run, and what `load` returns across any later part of it, keep the relations between counters |
| `Persistence.LoadIsBounded` | `src/pipeline/context_metrics/persistence.rs:40-46` | `load` is pointwise at most all updates recorded up to its second read |
| `Persistence.FlushRun` | `src/pipeline/context_metrics/persistence.rs:284-297` | one uninterrupted flush is a run of the protocol; it merges the slot into the file and empties it exactly when every step works, and otherwise changes neither |
| `Persistence.EmptyMergesAway` | `src/pipeline/context_metrics/persistence.rs:40-46` | skipping an empty delta, as the code does, is the same as merging it |
| `Persistence.MetricsStore.FlushSlot` | `src/pipeline/context_metrics/persistence.rs:284-297` | an empty slot only has its counter reset; a full one goes into the file and is emptied exactly when lock, read and write work, and otherwise stays as it is; every attempt restarts the clock |
| `Persistence.FlushIsProtocolRun` | `src/pipeline/context_metrics/persistence.rs:284-297` | that outcome is the one of the protocol's flush steps for the given failures |
| `Persistence.MetricsStore.RecordDelta` | `src/pipeline/context_metrics/persistence.rs:258-282` | a first call only opens the slot; otherwise the batch enters the slot once, a due slot is flushed, and file and slot together grow by exactly the batch |
| `Persistence.RecordGrows` | `src/pipeline/context_metrics/persistence.rs:258-282` | no flush attempt, failed or not, moves the sum of file and slot |
| `Persistence.RecordFlushesIff` | `src/pipeline/context_metrics/persistence.rs:260-297` | a call flushes at the sixteenth update or five seconds after the last attempt, and only then; what file, slot, counter and timer are in each case, in numbers |
| `Persistence.RecordIsProtocolRun` | `src/pipeline/context_metrics/persistence.rs:260-297` | one call is a run of the protocol: the record, due exactly when five seconds have passed, then the steps of one flush if it leaves the process waiting |
| `Persistence.MetricsStore.Load` | `src/pipeline/context_metrics/persistence.rs:40-46` | an unreadable file fails; otherwise file merged with the pending delta, an absent file counting as empty |
| `Persistence.MetricsStore.LoadOptional` | `src/pipeline/context_metrics/persistence.rs:49-61` | nothing only when there is neither a file nor a pending record |
| `Persistence.MetricsStore.Save` | `src/pipeline/context_metrics/persistence.rs:64-69` | replaces the file and drops the pending delta; on an error both stay |
| `Tally.MergeMap` | `src/pipeline/context_metrics/mod.rs:323-327` | the loop over the delta computes the keywise sum |
| `Tally.MergeNestedMap` | `src/pipeline/context_metrics/mod.rs:329-336` | the nested loops compute the keywise sum of sums |
| `Tally.NestedAssociates` | `src/pipeline/context_metrics/mod.rs:329-336` | merging nested maps is associative although absent rows are created on the way |
| `Tally.BumpNestedThroughMerge` | `src/pipeline/context_metrics/recording.rs:57-83` | counting one error code before or after a merge is the same |
| `Tally.TotalMerged` | `src/pipeline/context_metrics/mod.rs:323-327` | the sum over all keys of a merge is the sum of the sums |
| `Metrics.EmptyIsDefault` | `src/pipeline/context_metrics/mod.rs:272-320` | `is_empty` holds of the default counters and of no others |
| `Metrics.MergeUnit` | `src/pipeline/context_metrics/mod.rs:210-270` | empty counters are the identity of the merge |
| `Metrics.MergeCommutes` | `src/pipeline/context_metrics/mod.rs:210-270` | the merge of all 39 sums, 6 maps, the nested map and the maximum commutes |
| `Metrics.MergeAssociates` | `src/pipeline/context_metrics/mod.rs:210-270` | and associates |
| `Metrics.MergeGrows` | `src/pipeline/context_metrics/mod.rs:210-270` | no counter shrinks in a merge |
| `Recording.ApplyThroughMerge` | `src/pipeline/context_metrics/recording.rs:13-220` | every one of the 18 updates commutes with the merge, the largest-response maximum and the nested error map included |
| `Recording.BatchIsMerge` | `src/pipeline/context_metrics/recording.rs:13-220` | a batch of updates acts as merging with its effect on empty counters |
| `Recording.ApplyKeepsCoherent` | `src/pipeline/context_metrics/recording.rs:13-220` | every update keeps the relations between counters listed above |
| `Recording.MergeKeepsCoherent` | `src/pipeline/context_metrics/mod.rs:210-270` | so does every merge, the per-tool ones and the largest response included |
| `Recording.EveryHistoryIsCoherent` | `src/pipeline/context_metrics/recording.rs:13-220` | every sequence of updates and merges from nothing keeps them |
| `Recording.EveryHistoryIsOneRun` | `src/pipeline/context_metrics/recording.rs:13-220` | however updates were spread over deltas, the merged result is that of one counter receiving all of them |
| `CounterTotals.CountersAreTotals` | `src/pipeline/context_metrics/recording.rs:13-220` | each of the 39 sums is a total over the history: what it was plus what every update adds to it, listed counter by counter |
| `CounterTotals.TalliesAreTotals` | `src/pipeline/context_metrics/recording.rs:13-220` | the same for each name in the six keyed maps; a name is there exactly when some update counted under it |
| `CounterTotals.ErrorCodesAreTotals` | `src/pipeline/context_metrics/recording.rs:13-220` | the same for errors by tool and code |
| `CounterTotals.LargestIsMaximum` | `src/pipeline/context_metrics/recording.rs:13-220` | the largest response reaches a size exactly when some response did |
| `ContextMetricsRecord.ContextMetrics.MergeFrom` | `src/pipeline/context_metrics/mod.rs:210-270` | the in-place merge of the fields is the merge of the values |
| `ContextMetricsRecord.ContextMetrics.RecordCard` | `src/pipeline/context_metrics/recording.rs:13-36` | in-place update equals the specified one: card, latency, tier, saved and raw token counters, deep and truncated cards |
| `ContextMetricsRecord.ContextMetrics.RecordToolResult` | `src/pipeline/context_metrics/recording.rs:57-83` | request, tool call, error and error code, saved context write |
| `ContextMetricsRecord.ContextMetrics.RecordCompactOutput` | `src/pipeline/context_metrics/recording.rs:100-116` | the compact-output counters |
| `ContextMetricsRecord.ContextMetrics.RecordResponseBudget` | `src/pipeline/context_metrics/recording.rs:119-135` | response tokens per tool, over-cap and truncation counts, the largest response |
| `ContextMetricsRecord.ContextMetrics.RecordRouteClassification` | `src/pipeline/context_metrics/recording.rs:149-157` | a classification, and an avoided call unless the route needs one |
| `ContextMetricsRecord.ContextMetrics.RecordHookRouteEmission` | `src/pipeline/context_metrics/recording.rs:160-187` | hook emissions by signal |
| `ContextMetricsRecord.ContextMetrics.RecordHookFileRead` | `src/pipeline/context_metrics/recording.rs:190-196` | reads, repeated-read warnings and their tokens |
| `ContextMetricsRecord.ContextMetrics.RecordAll` | `src/pipeline/context_metrics/recording.rs:13-220` | any sequence of in-place updates equals the specified batch |
| `AtomicWrite.PowerLossSafe` | `src/util/atomic_write.rs:24-68` | under any interleaving of calls, through any number of power losses: at the next one the target holds its initial contents or the complete contents of one renamed call, never older than the last version made durable; and each of these can be what it holds |
| `AtomicWrite.LossShowsOutcome` | `src/util/atomic_write.rs:24-68` | the power-loss step leaves on the disk exactly these outcomes, whatever temporary files it leaves beside the target |
| `AtomicWrite.DurableForEver` | `src/util/atomic_write.rs:57-68` | versions once durable stay, in place and in order, through any later run with any number of power losses |
| `AtomicWrite.ReadersSeeLastRename` | `src/util/atomic_write.rs:24-68` | with power on, readers always see the complete contents of the last rename |
| `AtomicWrite.OnlyRenameChangesTarget` | `src/util/atomic_write.rs:24-68` | no other step changes what readers see, or widens what a power loss can leave |
| `AtomicWrite.ResultTellsWhetherWritten` | `src/util/atomic_write.rs:24-68` | a call that returned an error never changed the target; one that returned success renamed exactly once and installed exactly its contents |
| `AtomicWrite.SuccessIsDurableIffDirSynced` | `src/util/atomic_write.rs:57-68` | for any call at any point of any run: its rename survives the next power loss, whenever that comes, exactly when some directory sync in between reached the disk, its own or another call's, or every older version that may still come back has been installed again |
| `AtomicWrite.SyncedSurvivesAll` | `src/util/atomic_write.rs:57-68` | after such a sync it survives every power loss of every further run |
| `AtomicWrite.LoneSuccessIsDurableIffDirSynced` | `src/util/atomic_write.rs:57-68` | such runs exist: a lone call reports success whatever the directory sync does, and survives exactly when it worked or nothing changed |
| `AtomicWrite.SafeAfter` | `src/util/atomic_write.rs:57-68` | a directory sync makes every rename before it durable, and nothing else does |
| `AtomicWrite.DisasterAnyTime` | `src/util/atomic_write.rs:24-68` | at any point a process may die, and power be lost with any temporary files of the moment left and any bytes in place of an unsynced body |
| `AtomicWrite.CallCanAdvance` | `src/util/atomic_write.rs:24-68` | a call that has not returned can always take its next step |
| `AtomicWrite.StepKeepsInv` | `src/util/atomic_write.rs:24-68` | temporary files are private to their call until renamed, and a renamed file is synced |
| `AtomicWrite.TempNamesDiffer` | `src/util/atomic_write.rs:24-39` | temporary names of different targets, processes or calls differ, and none is its target |
| `AtomicWrite.Directory.AtomicWrite` | `src/util/atomic_write.rs:24-68` | on success the target has the contents and no temporary file is left; on an error the target is as before; a path without a file name fails |
| `Drift.DistanceBounds` | `src/structure/drift.rs:65-76` | the distance lies in [0,1], is 0 exactly for equal fingerprints, 1 exactly for disjoint ones of which one is not empty, and is symmetric |
| `Drift.DistanceTriangle` | `src/structure/drift.rs:65-76` | the triangle inequality, empty fingerprints included |
| `Drift.FractionTriangle` | `src/structure/drift.rs:65-76` | the inequality between fractions of set sizes behind it |
| `Drift.EndpointBounds` | `src/structure/drift.rs:178-200` | no drift exactly when the file is new or unchanged, full drift exactly when it is gone or shares nothing |
| `Drift.EndpointTriangle` | `src/structure/drift.rs:178-200` | the triangle inequality over any three snapshots, the file present or absent in each |
| `Drift.EdgeBounds` | `src/structure/drift.rs:129-173` | the averaged edge score lies in [0,1], and is 0 exactly when both endpoints are unmoved |
| `Drift.EdgeTriangle` | `src/structure/drift.rs:129-173` | the averaged score keeps the triangle inequality for a fixed graph |
| `Drift.EdgeSymmetry` | `src/structure/drift.rs:129-173` | it is symmetric between snapshots holding the same files |
| `Drift.DistanceIsDifference` | `src/structure/drift.rs:65-77` | the distance times the size of the union is the number of elements in exactly one of the two sets |
| `Drift.EndpointCounts` | `src/structure/drift.rs:178-200` | a file in both snapshots scores the part of its entries, old and new, that were added or removed |
| `Drift.MeanOfTwo` | `src/structure/drift.rs:129-176` | an edge between two files scores the mean of the two, and nothing if it is a definition inside one file |
| `Drift.LooseEnds` | `src/structure/drift.rs:129-176` | an end that belongs to no file does not count; without any file there is no score |
| `Drift.SymbolIsItsFile` | `src/structure/drift.rs:129-176` | a stored symbol stands for its file, at either end |
| `DriftStore.ReadAfter` | `src/store/sqlite/ops/drift.rs:34-93` | what the newest-revision reader sees after a write and truncation, in each of the three cases |
| `DriftStore.ReadsBackIff` | `src/store/sqlite/ops/drift.rs:107-174` | for any tables, revision and rows: they are read back unchanged exactly when a stored revision that sorts above holds just these rows, or none sorts above and all keys stored under the same revision are among them |
| `DriftStore.AnyRowsReadBackIff` | `src/store/sqlite/ops/drift.rs:107-174` | rows are read back whatever they are exactly when every stored revision sorts below the cycle's |
| `DriftStore.RunIsReplay` | `src/structure/drift.rs:207-252` | for any run of cycles in any order of revisions, from any tables: all that readers and later cycles see is one row set per table, kept, extended or replaced as the revision sorts below, equal to or above the one it came with |
| `DriftStore.ScoresReadBack` | `src/structure/drift.rs:207-252` | the stored sparse scores, read with default zero, are the computed scores of all edges |
| `DriftStore.SameRevisionReadsBackIff` | `src/structure/drift.rs:207-252` | scoring a stored revision again reads back right exactly when every edge with a stored score drifts again |
| `DriftStore.PriorIsPreviousSnapshot` | `src/structure/drift.rs:207-252` | while revisions do not sort backwards, and they may repeat: every cycle's prior map is exactly the previous cycle's current map if and only if no file disappears between two cycles at one revision |
| `DriftStore.RunScores` | `src/structure/drift.rs:207-252` | after such a run a score compares the last two snapshots, except that an edge that no longer drifts keeps its score under an unchanged revision; the exact condition for reading the computed score; a repeat on an unchanged graph leaves all scores at the same revision and clears them at a new one |
| `DriftStore.NewerRowsFreezeTheReader` | `src/store/sqlite/ops/drift.rs:107-174` | a stored revision sorting above all later ones is compared with, and read, for ever |
| `DriftStore.UnbornHeadFreezesTheReader` | `src/pipeline/git/mod.rs:76-83` | a repository without a commit stores under "unknown", which sorts above every object ID, so those rows are read through any later run of commits |
| `DriftStore.FailureKeepsPriorIff` | `src/structure/drift.rs:236-249` | a cycle that fails keeps the prior fingerprints exactly when it fails before truncating them, or some stored revision is not older, or there were none |
| `DriftStore.FailureScores` | `src/structure/drift.rs:236-249` | which scores a cycle leaves when it fails after each of its store calls |
| `DriftStore.LostPriorHidesDrift` | `src/structure/drift.rs:236-249` | after any other failure the next cycle scores every edge zero, whatever moved |
| `DriftStore.DriftTables.RunDriftScoring` | `src/structure/drift.rs:207-252` | the new tables are those of one cycle and the result is the number of stored scores; if one of the four store calls fails, the tables are those of the calls before it |
| `DriftStore.FingerprintForFile` | `src/structure/drift.rs:91-121` | the loop collects exactly the entries of the symbols the file declares; what these are is `FingerprintIff` |
| `DriftStore.FingerprintIff` | `src/structure/drift.rs:91-121` | a name with a hash is in a fingerprint exactly when a definition edge of the file leads to a stored symbol of that name whose signature has that hash, 0 without a signature |
| `DriftStore.SnapshotHolds` | `src/structure/drift.rs:215-220` | a snapshot has the fingerprint of every file of the graph and of no other |
| `DriftStore.NewSignatureDrifts` | `src/structure/drift.rs:91-121` | if the signature of the only declared symbol of its name changes and its hash does, the file is at a positive distance and every edge scored on it has a positive score |
| `DriftStore.NewSignatureIsScored` | `src/structure/drift.rs:207-252` | and after any run of cycles the next one stores a positive score for each of these edges |
| `DriftStore.CurrentSnapshot` | `src/structure/drift.rs:215-220` | the loop over files builds the fingerprint of every file of the graph |
| `DriftStore.ScoreEdges` | `src/structure/drift.rs:225-232` | the loop keeps exactly the positive scores |
| `GlobPlan.MatchesStartWithPrefix` | `src/substrate/index.rs:175-186` | every path a glob matches starts with the glob's plain prefix exactly when that prefix has no backslash |
| `GlobPlan.ExtractNonGlobPrefix` | `src/substrate/index.rs:175-186` | the loop returns the filter up to the last slash before its first glob character |
| `GlobPlan.PlanKeepsMeaning` | `src/substrate/index.rs:99-173` | for any glob: prefix query, overfetch, filter and cut return a prefix of the wanted rows, and all of them exactly when the limit was filled or no wanted row lies beyond the overfetch; with a backslash in the plain prefix they return nothing |
| `GlobPlan.PlainFilterKeepsMeaning` | `src/substrate/index.rs:99-173` | a filter without glob characters means the same in the index |
| `GlobPlan.OverfetchCoversLimit` | `src/substrate/index.rs:192-199` | the overfetch covers the limit exactly up to its cap |
| `GlobPlan.PlanInNumbers` | `src/substrate/index.rs:99-198` | with a backslash-free prefix the search finds all it wants when at most 200 times the limit, or 10000 if that is fewer, rows lie under the prefix; without a limit, when at most 10000 do |
| `GlobPlan.OnlyFetchedMatters` | `src/substrate/index.rs:99-198` | rows under the prefix beyond that number make no difference to the result |
| `GlobPlan.PrefixIsLongest` | `src/substrate/index.rs:175-186` | the plain prefix is the longest prefix of whole components without glob characters |
| `GlobPlan.KeepsIsWanted` | `src/substrate/index.rs:99-173` | a filter with one of `*?[{` is matched against the whole path, any other is a prefix |
| `RootedSearch.ExactlyOneLane` | `src/substrate/rooted_search.rs:100-180` | every discovered non-primary file is searched by exactly one of the branch-index lane and the scan lane |
| `RootedSearch.SearchBranchRoot` | `src/substrate/root_indexes.rs:61-111` | returns the branch rows cut to what is still wanted |
| `RootedSearch.ScanFiles` | `src/substrate/rooted_search.rs:144-180` | the loop over the files outside the branch indexes agrees with the full scan lane up to the limit |
| `RootedSearch.ScanNonPrimaryRoots` | `src/substrate/rooted_search.rs:100-180` | both lanes with their limits and early exits agree with the two full lanes up to the limit |
| `RootedSearch.SearchRooted` | `src/substrate/rooted_search.rs:75-98` | the result is the limit applied once to the concatenation of the three full lanes |
| `RootedSearch.PlainSearchIsExact` | `src/substrate/rooted_search.rs:75-180` | without glob characters that is exactly the first rows of all wanted rows, lane after lane; of the files that no index searches these are the rows of those with a wanted path and extension |
| `RootedSearch.GlobBranchLane` | `src/substrate/root_indexes.rs:61-111` | under any glob a branch returns a prefix of its wanted rows, and all of them exactly when none lies beyond the first `limit` rows under the prefix; with a backslash in the prefix it returns nothing |
| `RootedSearch.GlobSearchIsExactIff` | `src/substrate/rooted_search.rs:75-180` | under any glob the whole search returns the first `limit` rows of all wanted rows, lane after lane, if and only if each lane's index query reaches all its wanted rows, until the limit is filled |
| `RootedSearch.ScannedRowsIff` | `src/substrate/rooted_search.rs:142-240` | the direct scan finds exactly the rows of the files that no index searches, whose path the filter wants, with the wanted extension and without the excluded one |
| `RootedSearch.EveryRowIsWanted` | `src/substrate/rooted_search.rs:75-180` | every row that comes back lies within the path filter and is a row of the primary index, of a branch index, or of such a file |
| `RootedSearch.NoFileIsForgotten` | `src/substrate/rooted_search.rs:142-180` | every row of such a file is among those wanted, and comes back when there is no limit |
| `RootedSearch.DiscoverRoots` | `src/substrate/discover.rs:208-279` | the loop lists the primary root and then every related root whose ID is new |
| `RootedSearch.DiscoveryIsDistinct` | `src/substrate/discover.rs:208-279` | each ID is listed once and only the primary root is called primary |
| `RootedSearch.NoRootIsMissed` | `src/substrate/discover.rs:257-279` | every related root is listed, or one with its ID is |
| `GlobLaws.StarMatches` | `src/substrate/index.rs:150-173` | a `*` stands for any text |
| `GlobLaws.QuestionMatches` | `src/substrate/index.rs:150-173` | a `?` stands for any one character |
| `GlobLaws.LiteralMatches` | `src/substrate/index.rs:150-173` | plain text stands for itself |
| `GlobLaws.DoubleStarMatches` | `src/substrate/index.rs:150-173` | a leading `**` component stands for any number of whole components |
| `GlobLaws.ClassMatchesOne` | `src/substrate/index.rs:150-173` | a class stands for one of its characters |
| `GlobLaws.ClassMatchesOther` | `src/substrate/index.rs:150-173` | a negated class for any other |
| `GlobLaws.RangeMatches` | `src/substrate/index.rs:150-173` | a range for a character in it |
| `GlobLaws.BraceMatches` | `src/substrate/index.rs:150-173` | braces stand for one of their alternatives |
| `GlobLaws.NestedBraces` | `src/substrate/index.rs:150-173` | a comma inside inner braces does not separate the outer alternatives |
| `GlobLaws.BracketFirst` | `src/substrate/index.rs:150-173` | a `]` that comes first in a class is one of its characters |
| `GlobLaws.EscapeMatches` | `src/substrate/index.rs:150-173` | after a backslash any character stands for itself |
| `GlobLaws.EmptyMatches` | `src/substrate/index.rs:150-173` | the empty glob stands for the empty text |
| `FileScan.ScanFile` | `src/substrate/rooted_search.rs:182-223` | the loop appends the rows of the matching lines until the limit |
| `FileScan.RowsHold` | `src/substrate/rooted_search.rs:182-223` | each row's submatch range locates the query in its line (folded when case is ignored), and its byte offset locates it in the file, if no CR LF ends before its line |
| `FileScan.OffsetFallsShort` | `src/substrate/rooted_search.rs:182-223` | for any text and any row: the byte offset plus the number of earlier CR LF lines is the place where the query stands, so the offset is right exactly when no CR LF ends before the row's line |
| `FileScan.RowsAreMatchingLines` | `src/substrate/rooted_search.rs:182-223` | a line has a row exactly when the query occurs in it |
| `FileScan.LineMatchesIff` | `src/substrate/rooted_search.rs:182-223` | a line matches exactly when the query stands somewhere in it |
| `FileScan.ScanRowsIff` | `src/substrate/rooted_search.rs:182-223` | the rows of a file are exactly those telling of the first place in a line where the query as given stands, letter by letter, equal up to case if case is ignored |
| `FileScan.RowsInOrder` | `src/substrate/rooted_search.rs:182-223` | rows come in line order, one per line at most |
| `FileScan.CrlfShiftsOffsets` | `src/substrate/rooted_search.rs:182-223` | it happens: a query on the second line of a CR LF file is reported one byte early, where it does not stand |
| `RepairLog.NothingIsForgotten` | `src/pipeline/compact/ops.rs:69-180` | over every run of appends and rotations with any cutoffs and failures, from any log of whole lines, entries still in the log plus the leading counts of all header lines are the entries ever appended; only the lines of the log and the appended ones must name their surface, if any, on one line |
| `RepairLog.RotationAccounts` | `src/pipeline/compact/ops.rs:69-180` | for any whole-line text, a rotation changes that sum only by what the header carries beyond its first line |
| `RepairLog.ConservedIff` | `src/pipeline/compact/ops.rs:69-180` | for any surface names, a rotation keeps the sum exactly when each line its header has beyond the first is empty or a header line that counts nothing |
| `RepairLog.ConservedIffNamesOneLine` | `src/pipeline/compact/ops.rs:119-130` | for surface names free of `#`, a rotation keeps the sum exactly when no summarised name holds a line feed |
| `RepairLog.FirstLineCounts` | `src/pipeline/compact/ops.rs:119-130` | either header form starts with its count, whatever names follow |
| `RepairLog.SurvivorsAndCount` | `src/pipeline/compact/ops.rs:91-180` | the two passes classify every line alike: what the first counts is what the second drops |
| `RepairLog.SurvivorsAreLines` | `src/pipeline/compact/ops.rs:132-146` | the survivors are exactly the non-empty lines that are not too old, and every earlier header is among them |
| `RepairLog.SurvivorsConcat` | `src/pipeline/compact/ops.rs:132-146` | survivors keep their order |
| `RepairLog.LineLeavesIff` | `src/pipeline/compact/ops.rs:88-150` | a line leaves exactly when it is JSON with a timestamp that parses and lies before the cutoff; then it is counted once, under its surface if it has one, and otherwise it is copied |
| `RepairLog.EmptyLineGoes` | `src/pipeline/compact/ops.rs:88-150` | empty lines go uncounted |
| `RepairLog.CountsConcat` | `src/pipeline/compact/ops.rs:88-115` | counts and surface counts of a log are the sums over its lines |
| `RepairLog.ShortHeader` | `src/pipeline/compact/ops.rs:117-130` | the text of the header without surfaces and with one |
| `RepairLog.LongerHeader` | `src/pipeline/compact/ops.rs:117-130` | each further surface stands at the end with its own count |
| `RepairLog.RotatingTwice` | `src/pipeline/compact/ops.rs:69-180` | a second rotation with no later cutoff adds one empty header on top of the same lines |
| `RepairLog.WithoutTimestampNothingLeaves` | `src/pipeline/repair/log.rs:66-108` | a log whose entries have no `timestamp` field never shrinks; rotation only adds an empty header |
| `RepairLog.CountOld` | `src/pipeline/compact/ops.rs:91-117` | the first pass computes the count and the per-surface counts |
| `RepairLog.CopySurvivors` | `src/pipeline/compact/ops.rs:132-146` | the second pass appends exactly the survivors |
| `RepairLog.LogFile.Append` | `src/pipeline/repair/log.rs:66-108` | adds one line, or nothing on an I/O error |
| `RepairLog.LogFile.Rotate` | `src/pipeline/compact/ops.rs:69-153` | replaces the log by header and survivors, or leaves it on an I/O error; an absent log stays absent; the count is returned |
| `Registry.IdentityIsStable` | `src/registry/mod.rs:227-345` | over every run of operations, failures included: paths stay pairwise distinct, agents, hooks and agent hooks stay distinct by key, and a row that survives keeps its effective ID and first-seen time |
| `Registry.PlanSound` | `src/registry/install_records.rs:13-250` | each of the 16 operations, in every environment, edits one row keeping its identity, adds one row at a new path, or drops rows |
| `Registry.RelinkSound` | `src/registry/project_relink.rs:70-115` | a relink, also of a legacy row without an ID, keeps the effective ID although the path it was derived from changes |
| `Registry.StepCarries` | `src/registry/mod.rs:227-345` | one operation carries every row over with its identity and gives new rows new numbers |
| `Registry.NextKeeps` | `src/registry/mod.rs:227-345` | every operation keeps a well-formed registry well-formed, and each row afterwards has the identity of an earlier one or is new at its path under its own derived ID |
| `Registry.IdsStayDistinctIff` | `src/registry/project_meta.rs:82-104` | distinct IDs stay distinct exactly unless a recording operation proceeds on a path that has no row and whose derived ID another row already holds |
| `Registry.PushesIff` | `src/registry/mod.rs:227-345` | a row is added exactly by a recording operation on a path without a row, when the files can be read and written, an ignore line was really added, and the identity file is missing or agrees |
| `Registry.RelinkThenRegisterCollides` | `src/registry/project_relink.rs:93-101` | register an initialised project, relink it to an initialised directory, register the old path again: two rows share an ID, which finds the relinked one |
| `Registry.NoRelinkNoCollision` | `src/registry/project_meta.rs:82-104` | without relinks every row keeps the ID of its own path, so IDs are distinct if the hash tells the registered paths apart |
| `Registry.RelinkAndBack` | `src/registry/project_relink.rs:70-115` | relinking to a new place and back restores the row, its ID made explicit, exactly when none of its records was under the new place already without being under the old one; identity files at either place are missing or the project's own |
| `Registry.AgentRoundTrip` | `src/registry/install_records.rs:150-164` | uninstalling an agent undoes recording it: the row is left as if only an older record of that tool had been dropped |
| `Registry.UninstallDropsIff` | `src/registry/install_records.rs:196-250` | uninstall progress drops the row exactly when the data is deleted and every agent, hook, agent hook and ignore line the row knows of is named as removed; no other row goes |
| `Registry.RenamedIsFound` | `src/registry/project_meta.rs:206-224` | a renamed project is shown under the trimmed name and found by it, if nobody else is shown under it or has it as an ID |
| `Registry.MarkersStay` | `src/registry/project_relink.rs:47-66` | no operation overwrites an identity file |
| `Registry.MarkerAgrees` | `src/registry/project_relink.rs:47-66` | after a successful registration of an initialised directory its identity file agrees with its row |
| `Registry.FailureChangesNothing` | `src/registry/mod.rs:227-345` | an operation that fails, or cannot save, leaves every row alone |
| `RegistryEffects.PruneKeepsExisting` | `src/registry/project_meta.rs:12-30` | pruning keeps a row exactly when its path exists; the rows left are untouched and in order, and nothing changes when every path exists |
| `RegistryEffects.RegistersRow` | `src/registry/mod.rs:227-281` | registering stamps the row as opened now, installing remembers that the ignore line was ever added; both start from the first row with the path or a new empty one, and a foreign identity file stops both |
| `RegistryEffects.RecordsAgent` | `src/registry/mod.rs:285-309` | the agent is put under its tool, all other agents and fields stay |
| `RegistryEffects.RecordsHooks` | `src/registry/install_records.rs:13-57` | for each name the last hook given, and the old hooks under other names |
| `RegistryEffects.RecordsAgentHooks` | `src/registry/install_records.rs:59-105` | the same for agent hooks by tool |
| `RegistryEffects.SetsSyntextFlag` | `src/registry/install_records.rs:107-132` | the flag is set exactly when the line was added |
| `RegistryEffects.RecordsExportLine` | `src/registry/mod.rs:314-327` | a known row gets the flag and the line |
| `RegistryEffects.RemovesFirst` | `src/registry/mod.rs:330-345` | the first row with the path goes |
| `RegistryEffects.DropsHooks` | `src/registry/install_records.rs:134-148` | exactly the named hooks go |
| `RegistryEffects.DropsAgent` | `src/registry/install_records.rs:150-165` | exactly the agents of the tool go and the ID is written out |
| `RegistryEffects.ClearsWhatIsGone` | `src/registry/install_records.rs:196-251` | a partial uninstall takes away exactly what it names |
| `RegistryEffects.UninstallDropsPath` | `src/registry/install_records.rs:167-194` | all rows with the path go, the others stay in order |
| `RegistryEffects.UnknownIsPassedOver` | `src/registry/mod.rs:314-345` | operations on installed parts pass over an unknown path and report success |
| `RegistryEffects.SelectorOrder` | `src/registry/project_meta.rs:141-178` | a selector is first taken for an ID, then for a path, then for a name |
| `RegistryEffects.ShownUnder` | `src/registry/project_meta.rs:40-66` | the name a row is shown under is its own unless blank, else that of its directory, else "project" |
| `RegistryEffects.OpensSelected` | `src/registry/project_meta.rs:189-204` | the selected row is stamped as opened now and its ID written out |
| `RegistryEffects.RenamesSelected` | `src/registry/project_meta.rs:206-224` | the selected row gets the trimmed name, a blank name fails |
| `RegistryEffects.UnresolvedFails` | `src/registry/project_meta.rs:141-224` | a selector that finds no single row makes the operation fail without a change |
| `RegistryEffects.RelinksSelected` | `src/registry/project_relink.rs:66-112` | the selected row moves with its ID written out, exactly when the target is set up, unregistered and not another project's |
| `RegistryEffects.NoTargetFails` | `src/registry/project_relink.rs:66-84` | a target that does not exist makes a relink fail |
| `RegistryEffects.NoHomeNoChange` | `src/registry/mod.rs:227-345` | without a home directory nothing changes; installs and uninstalls report success, what a user calls for an error |
| `RegistryEffects.UnreadableFails` | `src/registry/mod.rs:227-345` | a registry file that cannot be read makes every operation that would use it fail |
| `ProjectRows.NameFindsItsBearer` | `src/registry/project_meta.rs:141-178` | a selector that is neither ID nor path finds a row exactly when that row is the only one shown under it, and nothing exactly when nobody is |
| `ProjectRows.SharedPathMisleads` | `src/registry/project_meta.rs:141-178` | if two rows did share a path, the name of the second would find the first |
| `ProjectRows.PutLaws` | `src/registry/mod.rs:305-308` | replace-or-append by key leaves the new record under its key, keeps the others and keeps keys distinct |
| `Relocation.ThereAndBack` | `src/registry/project_relink.rs:202-228` | rewriting old to new and back restores every record exactly when no record strays, and the second count is the first plus the strays |
| `Relocation.MovedBelow` | `src/registry/project_relink.rs:202-228` | a move to a directory below never strays |
| `Relocation.RewriteInstallRecordPaths` | `src/registry/project_relink.rs:202-228` | the loops move every record under the old path and count the values they change |
| `Relocation.HitsAreRecordedPaths` | `src/registry/project_relink.rs:202-228` | the number reported is that of the recorded paths under the old one |
| `RegistryFile.ProjectRegistry.RecordProject` | `src/registry/mod.rs:227-249` | registers the path or opens its row, checks or writes the identity file first, and saves; a foreign identity file or a failed save leaves the rows as they were |
| `RegistryFile.ProjectRegistry.RecordInstall` | `src/registry/mod.rs:257-279` | adds or completes the row, ORs the ignore-line flag, keeps everything else; errors as for registration |
| `RegistryFile.ProjectRegistry.RecordAgent` | `src/registry/mod.rs:285-310` | puts the agent record under its tool name in the row, which is added if missing |
| `RegistryFile.ProjectRegistry.RecordExportGitignore` | `src/registry/mod.rs:314-327` | sets the export flag and line of a known row, and passes over an unknown path |
| `RegistryFile.ProjectRegistry.RemoveProject` | `src/registry/mod.rs:330-345` | drops the first row with the path and no other |
| `RegistryFile.ProjectRegistry.RecordHooks` | `src/registry/install_records.rs:13-56` | the loop puts each hook under its name in the row |
| `RegistryFile.ProjectRegistry.RecordAgentHooks` | `src/registry/install_records.rs:59-102` | the loop puts each agent hook under its tool name in the row |
| `RegistryFile.ProjectRegistry.RecordSyntextGitignore` | `src/registry/install_records.rs:107-131` | sets the flag of the row only if the line was added |
| `RegistryFile.ProjectRegistry.RecordHooksUninstall` | `src/registry/install_records.rs:134-147` | drops exactly the named hooks of a known row |
| `RegistryFile.ProjectRegistry.RecordAgentUninstall` | `src/registry/install_records.rs:150-164` | drops the tool's record of a known row and makes its ID explicit |
| `RegistryFile.ProjectRegistry.RecordUninstall` | `src/registry/install_records.rs:167-175` | drops every row with the path, keeping the order of the others |
| `RegistryFile.ProjectRegistry.RecordUninstallProgress` | `src/registry/install_records.rs:196-250` | clears exactly what the progress names; the row goes only when the data is deleted and nothing installed is left |
| `RegistryFile.ProjectRegistry.Relink` | `src/registry/project_relink.rs:70-115` | moves the found row to an unused initialised directory, with its ID, its records rewritten, a matching identity file, and the number of rewritten values; any failed check leaves the rows as they were |
| `RegistryFile.ProjectRegistry.PruneMissing` | `src/registry/project_meta.rs:12-30` | keeps exactly the rows whose path exists, in order, and saves only if one went |
| `RegistryFile.ProjectRegistry.MarkOpened` | `src/registry/project_meta.rs:189-203` | stamps the found row and makes its ID explicit |
| `RegistryFile.ProjectRegistry.Rename` | `src/registry/project_meta.rs:206-224` | gives the found row the trimmed name; a blank name fails |
| `Prometheus.EscapesCharByChar` | `src/pipeline/context_metrics/prometheus.rs:351-356` | the three chained replacements are one character-by-character escape |
| `Prometheus.UnquoteEscaped` | `src/pipeline/context_metrics/prometheus.rs:351-356` | unescaping inverts escaping for every string and stops at the closing quote |
| `Prometheus.FamilyRoundTrip` | `src/pipeline/context_metrics/prometheus.rs:305-349` | a labelled family, of any label names, reads back as exactly the samples it was written from |
| `Prometheus.LabeledCounterRoundTrip` | `src/pipeline/context_metrics/prometheus.rs:305-324` | what is written for a map reads back as that map |
| `Prometheus.ToolErrorCodeRoundTrip` | `src/pipeline/context_metrics/prometheus.rs:326-349` | what is written for a map of maps reads back as that map of maps without its empty rows |
| `Prometheus.WriteLabeledCounter` | `src/pipeline/context_metrics/prometheus.rs:305-324` | the loop writes the family text of the map |
| `Prometheus.WriteToolErrorCodeCounter` | `src/pipeline/context_metrics/prometheus.rs:326-349` | the nested loops write the two-label family text of the map of maps |
| `GitStatus.ReadsNewPaths` | `src/surface/changed.rs:15-36` | for any well-formed stream the only list the reader can return is the strictly sorted one of the new paths, each once, never an old path that is not also a new one |
| `GitStatus.CollectsNewPaths` | `src/surface/changed.rs:20-32` | the loop skips an old path whatever it looks like |
| `GitStatus.MoveTakesNext` | `src/surface/changed.rs:20-32` | the record after an entry is skipped as its old path exactly when one of the two status codes is R or C |
| `GitStatus.Collect` | `src/surface/changed.rs:20-32` | the loop over the records computes the collected paths |
| `GitStatus.GitChangedFiles` | `src/surface/changed.rs:6-36` | for any output the result is strictly sorted and holds exactly the collected paths; nothing when git fails |
| `GitStatus.SortedIsCanonical` | `src/surface/changed.rs:33-35` | the result is determined by the set of new paths |
| `NodeIds.RoundTrip` | `src/core/ids.rs:116-142` | parsing inverts display for every 128-bit ID of every kind |
| `NodeIds.DisplayIsNormal` | `src/core/ids.rs:116-142` | display after parse is idempotent for every accepted form: short, upper-case, plus-signed, `symbol_` |
| `NodeIds.SameDisplayIff` | `src/core/ids.rs:116-142` | texts are displayed alike exactly when they read as the same ID |
| `NodeIds.ParsersExclude` | `src/core/ids.rs:126-142` | at most one prefix is accepted, so the order of trials is irrelevant |
| `NodeIds.DigitsAre` | `src/core/ids.rs:162-172` | the digits are the ten decimal ones and the letters a to f in either case, each with the value of its place |
| `NodeIds.FromStrRadix16` | `src/core/ids.rs:162-172` | the checked digit loop accepts exactly the non-empty digit strings, after an optional plus, of value below 2^128 |
| `NodeIds.LowerSame` | `src/core/ids.rs:162-172` | the case of hexadecimal digits does not matter |
| `NodeIds.FullWidthIsCanonical` | `src/core/ids.rs:43-47` | a text with 32 digits displays back as itself up to the case of its digits |
| `Gitignore.RestoredIff` | `src/bootstrap/init/gitignore.rs:27-78` | adding then removing the line restores the content exactly when it is empty, or ends in a newline, is not a lone newline and has no CR LF |
| `Gitignore.GainsNewline` | `src/bootstrap/init/gitignore.rs:27-78` | content without a final newline gains just that newline |
| `Gitignore.RemovesWhatWasAdded` | `src/bootstrap/init/gitignore.rs:53-78` | removal takes the appended line and leaves the other lines, in every case |
| `Gitignore.SecondAddIsNoOp` | `src/bootstrap/init/gitignore.rs:27-46` | a second addition finds the line |
| `Gitignore.CreatedFileIsEmptied` | `src/bootstrap/init/gitignore.rs:27-78` | a file created for the line is left empty |
| `Gitignore.Sift` | `src/bootstrap/init/gitignore.rs:61-68` | the loop drops the first matching line and nothing else |
| `Gitignore.IgnoreFile.EnsureRootEntry` | `src/bootstrap/init/gitignore.rs:27-46` | writes only when the line is missing, and tells so |
| `Gitignore.IgnoreFile.Remove` | `src/bootstrap/init/gitignore.rs:53-78` | changes the file only when the line is there, and tells so |

## Left out

- Overflow of 64-bit counters, lossy UTF-8 and floating-point rounding: counters are naturals, text is valid, scores are exact.
- Wall clock: the 5 s interval is a number of seconds in `Persistence`, and a free choice per record in `WriteBehind`.
- `save` running beside recorders: it takes the file lock before the mutex and a flush takes them the other way round, so it is modelled for one process at rest; without it no deadlock is possible.
- Several metrics directories in one pending map: the protocol is that of one directory.
- A power loss between protocol steps: the protocol takes the file write as one step. `AtomicWrite` says what a power loss leaves of it, and `WriteBehind.PowerLossKeepsPart` what that means for the counters.
- Persistence.MetricsStore.Load: describes the call when no other process writes between its two reads; the other runs are in `WriteBehind`.
- Foreign code: the index returns the first rows of a fixed order under a path prefix, globs have an own matcher for `* ? [] {} **` and backslash escapes, an invalid glob is a flag, JSON, TOML, SQLite, hashing and timestamps are parameters or tables.
- `build_index` retries, index building, and the manifest of branch indexes: whether a branch has an index is part of the repository value.
- RepairLog.NothingIsForgotten: assumes that no line of the log and no appended line names a surface with a line feed. Entries as written have no `surface` field at all (src/pipeline/repair/types/models.rs:138-155); for other logs `RepairLog.RotationAccounts` gives the difference.
- RepairLog.LogFile.Append: a failing write leaves nothing. In the code a failing `writeln!` or `sync_data` can leave a torn or a whole line (src/pipeline/repair/log.rs:93-103); a torn line would be joined to the next one.
- The per-action counts of a rotation, which the code computes and never writes; the repair-log lock and its degraded marker; the crash safety of the rotation's rename.
- Registry operations that run concurrently: load, change and save hold no lock there, so they are a sequence here. `record_binary`, its removal, and the constant `synrepo_dir` field.
- RegistryFile.ProjectRegistry.Relink: does not model `repair_owned_integrations`, which edits other tools' files after the save.
- Rewritten install records are component sequences: a record equal to the old path gets a trailing separator in the code's string form.
- Canonicalisation of paths, Unicode blanks in names, and the file-system scan for relocation candidates.
- Unlabelled Prometheus counters and gauges, which have no escaping; tools without error codes do not appear in the two-label family and so do not read back.
- Edge IDs, which have one reader and the same form as node IDs; error texts.
- User interface, setup and repair plans, overlay stores, routing, ranking, configuration merging and file classification: one-step decisions or plumbing.
