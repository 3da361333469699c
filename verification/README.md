# A verified model of the travel agent's stateful core

The agent plans trips in phases, remembers users between trips and keeps its prompts within budget. This project
models the parts of its backend whose correctness depends on state, order or arithmetic, and proves what those parts
promise, for all inputs, all runs and all interleavings:

- **Recall.** Weighted reciprocal-rank fusion over evidence objects, the greedy caps, the rule-based reranker, and the
  lexical tokenizer and its score (`Fusion`, `FusionSpec`, `FusionEvidence`, `Evidence`, `Caps`,
  `Reranker`, `Tokenizer`, `TokenizerLaws`).
- **Embeddings.** The LRU cache in front of an embedder, the persistent index, and the semantic lane with and without it
  (`EmbeddingCache`, `Sidecar`, `SemanticLane`, `LaneLaws`).
- **Background memory work.** The coalescing job scheduler and the locked per-user store, as state machines over the
  steps between two suspension points and of the worker threads a cancelled writer leaves behind, and the windows of
  messages handed to the jobs (`JobScheduler`, `MemoryStore`, `MemorySafety`, `MemoryRuns`, `MemoryContents`,
  `UserWindow`).
- **The travel plan.** Loading and saving, the phase router, backtracking, the writers, the itinerary checks, and whole
  runs of all of them (`StateModels`, `StateCodec`, `PlanCodec`, `CodecLaws`, `TravelPlan`, `PhaseRouter`,
  `Backtracking`, `PlanWriters`, `ItineraryChecks`, `PlanRun`).
- **Prompts and traces.** Compaction of tool results and messages, and the merge that rebuilds a session's iterations
  (`Compaction`, `PromptMessages`, `CompactionLaws`, `TraceBuilder`).

`Basics`, `Sequences`, `Ordering`, `PyText`, `PyValues` and `RecallModels` hold shared notions: Python's stable sort,
slices with negative bounds, `str.strip`, JSON-like values and truthiness. `dafny verify dfyconfig.toml` checks
everything.

Code that changes state step by step is modelled by classes and methods with loops; each is proved equal to a function
of its inputs and of the old state, and the results below are lemmas about those functions. Exceptions are an `Err`,
`ZeroDivision` or `CountMismatch` result, or a boolean saying that the operation was refused.

## What turned out not to hold as one would state it

- **Saving and loading a plan.** A constraint or preference whose stored `source` is falsy but not the empty text (for
  example `null`) comes back with the empty text. The round trip is exact, up to `version`, if and only if no such source
  is there (`PlanCodec.StateRoundTrip`, witness `PlanCodec.NullSourceIsLost`).
- **Backtracking to phase 3.** Clearing the days of a complete plan whose date range covers no day leaves it complete,
  and the next router check puts it back in phase 4. `Backtracking.InferenceAfterClear` and `BacktrackIsNotBounced` give
  the exact condition, `PlanRun.EmptyTripIsBounced` and `EmptyTripExists` the witness.
- **The run invariant of the plan.** It is broken by exactly one kind of operation, a backtrack to a phase below 1
  (`PlanRun.StepKeepsInvariant`).
- **Fusion.** With a negative `rrf_k` the division by zero is reached exactly when a lane of positive weight has at
  least `-rrf_k` distinct ids (`Fusion.FuseLaneResults`).
- **Storing vectors.** A vector survives the index exactly when its components are float32 values
  (`Sidecar.StorageRoundTrip`); a rerun hits a record exactly when its embedding has the query's dimension
  (`SemanticLane.RerunHits`).
- **Two compaction passes.** Moderate then aggressive differs from aggressive in an omitted count exactly when the
  moderate pass dropped entries (`Compaction.CompactTwice`).
- **Orphan tool calls.** The trace has an orphan bucket only when there is no LLM call at all: the first call's window
  has no lower bound and the last one's no upper bound (`TraceBuilder.TraceKeepsAllCalls`).
- **A selection that does not resolve.** The step of phase 2 stays at `skeleton` for it, while phase inference lets the
  plan pass to phase 3 (`PhaseRouter.ReadyMeansLocked`, `DanglingSelectionPasses`).
- **Time conflicts.** Only neighbours are compared. Nothing is reported exactly when every two activities of a day with a
  readable stretch between them have room for the travel (`ItineraryChecks.CleanIffEveryGapFits`). An activity in between
  with an unreadable time, or one that ends before it starts, hides an overlap of the activities around it
  (`UnreadableTimeHidesOverlap`, `ReversedTimeHidesOverlap`); with non-negative travel nothing else does
  (`OverlapIsHiddenInBetween`).
- **The per-user lock.** Cancelling a writer frees its lock while its worker thread goes on, as when
  `backend/api/orchestration/memory/extraction.py:260` times out. If another writer gets the lock before that thread
  writes, its update is lost although it returned normally (`MemoryRuns.CancelledWriteLosesUpdate`). A profile or
  working-memory file holds every effect on it if and only if no upsert wrote back a read on which another effect had
  fallen (`MemoryRuns.NoLostUpdates`); so it is whenever nobody gets the lock while an abandoned thread works on the
  same file (`WaitedRunsLoseNothing`), in particular without such cancellations (`UncancelledRunsWait`). Appended
  episodes are never lost, but under the same circumstances an id may be appended twice (`EpisodesNeverLost`).
- **Saving a whole profile.** A save writes a profile its caller loaded under an earlier lock, and erases every profile
  update that took effect in between (`MemoryRuns.SaveErasesEarlierUpdates`).
- **The order of the lanes.** It changes neither the keys of the fused output nor, for lanes of distinct names, what the
  evidence says of scores, lanes and matched terms (`FusionEvidence.EvidenceIgnoresLaneOrder`); candidate, match type
  and the order of lists and reasons come from the first lanes and are not part of that. Two lanes of one name may be
  swapped exactly when they rank the id alike, since the later one's rank stays (`SwappedNamesakes`).

Where the code and its own words disagree the model follows the code: `clear_downstream` is documented as clearing what
was produced *after* the given phase, and clears that phase's own products too; `_hydrate_phase3_brief` already works in
phase 2, as its comment admits.

## Model

| member | source | states |
|---|---|---|
| Evidence.AppendUniqueIsUnion | backend/memory/recall_stage3_fusion.py:133-136 | merging a list keeps what was there in front, ends with the union, and adds nothing twice |
| Evidence.RetrievalEvidence.CopyOf | backend/memory/recall_stage3_fusion.py:61-77 | a copy has all fields of the original and a fused score of zero |
| Evidence.JoinReasons | backend/memory/recall_stage3_fusion.py:96-104 | the reason is unchanged iff the new one is empty or already among its stripped parts; otherwise the reasons in it are its own followed by the new ones |
| Evidence.JoinedReasons | backend/memory/recall_stage3_fusion.py:96-102 | what is joined by the separator splits and strips back into the reasons of both parts, in order |
| Evidence.RetrievalEvidence.MergeFrom | backend/memory/recall_stage3_fusion.py:80-104 | the whole evidence object after a merge: unions, maxima, match type, reasons, nothing else |
| FusionEvidence.MergeSays | backend/memory/recall_stage3_fusion.py:80-104 | a merge keeps identity, lanes and fused score, takes the hit's match type only where there is none, and adds a reason only if it is new |
| Evidence.RetrievalEvidence.RecordHit | backend/memory/recall_stage3_fusion.py:42-47 | the whole evidence object after a lane's hit |
| Caps.GreedyFeasible | backend/memory/recall_stage3_fusion.py:107-130 | what the scan picks respects the total cap and both per-source caps |
| Caps.FeasibleMeans | backend/memory/recall_stage3_fusion.py:115-128 | within the caps means: no longer than the total, and of profile and of slice candidates no more than their caps, negative caps being zero |
| Caps.GreedyFillsRoom | backend/memory/recall_stage3_fusion.py:115-128 | from every prefix the scan takes as much as the caps leave room for |
| Caps.GreedyDominates | backend/memory/recall_stage3_fusion.py:107-130 | against any selection within the caps the scan picks at least as many, and its k-th pick ranks at least as high |
| Caps.GreedyKeepsSourcePrefix | backend/memory/recall_stage3_fusion.py:115-128 | of each source a prefix of its ranking is kept |
| FusionSpec.StateIsKeyed | backend/memory/recall_stage3_fusion.py:34-42 | each id has one entry, under its own id, in insertion order |
| FusionSpec.RankAtFirstSight | backend/memory/recall_stage3_fusion.py:24-31 | the counter at an id's first sight is its rank among the lane's distinct ids |
| FusionSpec.LastWeightCounts | backend/memory/recall_stage3_fusion.py:15-20 | the last weight given for a lane name counts |
| FusionSpec.NoWeight | backend/memory/recall_stage3_fusion.py:15-20 | a lane name without a weight weighs nothing |
| FusionSpec.FusedScoreIsRrfSum | backend/memory/recall_stage3_fusion.py:18-47 | an id has an entry iff a lane of positive weight holds it, and its fused score is the sum of the quotients weight / (rrf_k + rank) over those lanes |
| FusionSpec.KeyLeIsTotalOrder | backend/memory/recall_stage3_fusion.py:49-57 | the four-part sort key is a total order without ties between different keys |
| FusionSpec.RankedIsDescending | backend/memory/recall_stage3_fusion.py:49-57 | the ranking is by descending score, and scores are non-negative for a non-negative constant |
| FusionSpec.OutputIsInOrder | backend/memory/recall_stage3_fusion.py:49-57 | the output descends by score; at equal scores symbolic finds come first, then sources and ids decide alphabetically |
| FusionSpec.OutputKeysAre | backend/memory/recall_stage3_fusion.py:49-57 | every output candidate is an entry of the dictionary, and its score is the sum of the quotients |
| FusionSpec.OutputFitsCaps | backend/memory/recall_stage3_fusion.py:107-130 | the output holds no more candidates in all, and of each source, than the caps say |
| Ordering.StrLeIsLexicographic | backend/memory/recall_stage3_fusion.py:52-56 | strings are compared by their first difference, a prefix before what continues it |
| FusionSpec.FusionIgnoresLaneOrder | backend/memory/recall_stage3_fusion.py:11-58 | permuting the lanes changes neither ids nor scores nor their order in the output |
| FusionSpec.EntriesAreFolds | backend/memory/recall_stage3_fusion.py:15-47 | an id's entry in the dictionary comes from its first hit in each lane of positive weight, whatever else the lanes hold |
| FusionEvidence.EvidenceRecordsLanes | backend/memory/recall_stage3_fusion.py:42-47 | with distinct lane names the evidence of an id records exactly the lanes that hold it, each with its rank and its share of the score |
| FusionSpec.ShareTimes | backend/memory/recall_stage3_fusion.py:32 | a contribution times rrf_k plus the rank is the lane's weight |
| FusionEvidence.RecordedShare | backend/memory/recall_stage3_fusion.py:32-46 | the contribution recorded for a lane is its weight divided by rrf_k plus the recorded rank |
| FusionEvidence.EntryCollects | backend/memory/recall_stage3_fusion.py:80-88 | a matched term or a score bound holds of the fused evidence iff it holds of the id's first hit in some lane |
| FusionEvidence.EvidenceIgnoresLaneOrder | backend/memory/recall_stage3_fusion.py:15-47 | permuting lanes of distinct names keeps fused score, lanes, ranks, shares, best scores and matched terms of every id |
| FusionEvidence.SwappedNamesakes | backend/memory/recall_stage3_fusion.py:45-46 | swapping two lanes of one name keeps an id's recorded ranks iff both lanes rank it alike |
| FusionSpec.FusionOutputIsOptimal | backend/memory/recall_stage3_fusion.py:49-130 | among all selections of the ranking within the caps the output has the best k-th score for every k, and the largest total |
| Fusion.AbsorbHit | backend/memory/recall_stage3_fusion.py:32-47 | one hit's effect on the dictionary and on the one evidence object it touches, whose contribution is the weight by the denominator; input objects are not changed |
| Fusion.AbsorbLaneResult | backend/memory/recall_stage3_fusion.py:19-47 | the inner loop over a lane, and exactly when it divides by zero |
| Fusion.AbsorbLaneResults | backend/memory/recall_stage3_fusion.py:15-47 | the outer loop leaves the dictionary the closed form is about |
| Fusion.RankValues | backend/memory/recall_stage3_fusion.py:49-57 | sorting the dictionary's values gives the entries of the sorted keys |
| Fusion.ApplyCaps | backend/memory/recall_stage3_fusion.py:107-130 | the loop with its counters keeps exactly the greedy picks |
| Fusion.FuseLaneResults | backend/memory/recall_stage3_fusion.py:11-58 | the output is the capped ranking with its merged evidence in fresh objects, or a division by zero exactly under its condition |
| Reranker.DedupeSourceScored | backend/memory/recall_reranker.py:236-249 | the loop with the seen-set keeps one entry per group, none of lower score than any of its group, in descending order |
| Reranker.RerankCandidates | backend/memory/recall_reranker.py:51-90 | ids selected and their number, the reason and the score detail of every candidate of the source, and the intent label, for either entry point's policy |
| Reranker.EachHasItsReason | backend/memory/recall_reranker.py:64-81 | with distinct ids exactly the candidates of the source have a detail and a reason, and the reason is the conflict or their own score |
| Reranker.SurvivorsAreChampions | backend/memory/recall_reranker.py:236-249 | with distinct ids the survivors are exactly the best of each duplicate group |
| Reranker.SelectionIsChampions | backend/memory/recall_reranker.py:64-83 | at most n, one per group, each its group's best, in order; everything else is beaten by a group-mate or by all n |
| Reranker.SelectionByScore | backend/memory/recall_reranker.py:64-83 | by scores and ids: what is selected scores no less than its group, the selection descends, and what is left out has a group-mate or top_n selected of at least its score |
| Reranker.SelectionIgnoresOrder | backend/memory/recall_reranker.py:64-83 | with distinct ids the arrival order of candidates is irrelevant |
| Tokenizer.FlushAscii | backend/memory/recall_stage3_lanes.py:574-583 | flushing adds exactly the terms of the buffered ASCII run |
| Tokenizer.FlushCjk | backend/memory/recall_stage3_lanes.py:585-593 | flushing adds exactly the terms of the buffered CJK run |
| Tokenizer.TokenizeForLexical | backend/memory/recall_stage3_lanes.py:569-607 | the two-buffer scan yields exactly the terms of the maximal ASCII and CJK runs |
| TokenizerLaws.LatinTerms | backend/memory/recall_stage3_lanes.py:574-583 | the terms of a run of letters and digits: itself in small letters from two characters on, its pairs of neighbours from four on |
| TokenizerLaws.IdeographTerms | backend/memory/recall_stage3_lanes.py:585-593 | the terms of a run of ideographs: itself from two on, each ideograph, each pair of neighbours |
| TokenizerLaws.CaseIsIgnored | backend/memory/recall_stage3_lanes.py:574-579 | texts that differ in case only have the same terms |
| Tokenizer.SeparatorSplits | backend/memory/recall_stage3_lanes.py:595-607 | around a separator a text has the union of both sides' terms |
| Tokenizer.LexicalScore | backend/memory/recall_stage3_lanes.py:543-566 | the score is computed from the meaningful terms of the text |
| Tokenizer.ScoreIsDice | backend/memory/recall_stage3_lanes.py:552-566 | the score is zero or the Dice value, zero iff that is below 0.05, in [0.05, 1] otherwise, and one iff the term sets agree |
| TokenizerLaws.ScoreInNumbers | backend/memory/recall_stage3_lanes.py:543-566 | by terms of two characters or more: twice the common ones by all of both, or zero when that is below 0.05 or either has none |
| EmbeddingCache.CachedEmbeddingProvider.Create | backend/memory/embedding_provider.py:20-25 | a bound below one is refused, any other gives an empty cache |
| EmbeddingCache.CachedEmbeddingProvider.ScanHits | backend/memory/embedding_provider.py:28-37 | the first loop's hits, its misses without repeats, and the new key order |
| EmbeddingCache.CachedEmbeddingProvider.StoreOne | backend/memory/embedding_provider.py:45-48 | insert at the end, evict from the front, keep the bound |
| EmbeddingCache.CachedEmbeddingProvider.StoreMisses | backend/memory/embedding_provider.py:43-48 | the second loop stores all computed vectors with eviction after each |
| EmbeddingCache.CachedEmbeddingProvider.Embed | backend/memory/embedding_provider.py:27-50 | answer and cache after a batch, also when the provider raises or answers with the wrong number |
| EmbeddingCache.TouchedIsRecency | backend/memory/embedding_provider.py:31-34 | hits end up behind the untouched keys, by last occurrence |
| EmbeddingCache.EmbeddedKeys | backend/memory/embedding_provider.py:27-50 | the cache keeps its bound, and its keys are the last max_items of: untouched, hits by recency, misses by first occurrence |
| EmbeddingCache.CacheIsInvisible | backend/memory/embedding_provider.py:27-50 | over a provider that embeds text by text the answer is the provider's own, whatever is cached or evicted |
| Sidecar.StorageRoundTrip | backend/memory/embedding_sidecar.py:76-92 | a stored row decodes iff its dimension is the vector's length, and gives the row back iff the components are float32 values |
| Sidecar.SidecarStore.FetchMany | backend/memory/embedding_sidecar.py:134-200 | the decodable rows under the asked keys, nothing when the database cannot be read |
| Sidecar.SidecarStore.UpsertMany | backend/memory/embedding_sidecar.py:202-246 | the rows committed before an error are upserted in order, keeping creation times; other users' tables stay |
| Sidecar.UpsertsKeepCreation | backend/memory/embedding_sidecar.py:202-246 | upserts keep the creation time of a row that was there, and add rows only under the keys written |
| Sidecar.LastRowWins | backend/memory/embedding_sidecar.py:202-246 | under a key lies the last row written to it, its components rounded |
| Sidecar.SidecarStore.DeleteForItem | backend/memory/embedding_sidecar.py:248-265 | exactly the one row of the user is gone |
| SemanticLane.RankRecords | backend/memory/recall_stage3_lanes.py:364-385 | the records at or above the minimum score, sorted by score, source and id |
| SemanticLane.Classify | backend/memory/recall_stage3_lanes.py:248-268 | every record is classified as hit, stale or missing, with the stored vector for hits |
| SemanticLane.GatherVectors | backend/memory/recall_stage3_lanes.py:310-346 | each record gets its stored or its newly computed vector |
| SemanticLane.WriteAndRank | backend/memory/recall_stage3_lanes.py:312-362 | rows written, ranking and counters at the end of a run |
| SemanticLane.RunWithIndex | backend/memory/recall_stage3_lanes.py:191-362 | result, table and telemetry counters after a run with the index, for every outcome of embedder and database; other users' tables stay |
| SemanticLane.PlanPartitions | backend/memory/recall_stage3_lanes.py:251-268 | misses, stale rows and hits together are as many as the records |
| SemanticLane.VectorsAreEmbeddings | backend/memory/recall_stage3_lanes.py:341-346 | over a table whose valid rows hold their texts' embeddings every record's vector is its text's embedding, however hits, stale, undecodable and foreign rows mix |
| SemanticLane.SidecarAgrees | backend/memory/recall_stage3_lanes.py:160-362 | over a table whose valid rows hold their texts' embeddings the lane returns the same candidates with and without the index and no error, and the counters add up |
| SemanticLane.RunStaysSound | backend/memory/recall_stage3_lanes.py:312-339 | a run leaves the table sound, even when only some of its rows get committed |
| SemanticLane.RerunHits | backend/memory/recall_stage3_lanes.py:246-268 | with distinct keys an immediate rerun finds a record valid iff its embedding has the query's dimension |
| LaneLaws.StaleIsEmbedded | backend/memory/recall_stage3_lanes.py:248-268 | a record is embedded anew iff it has no row of its text's hash, its builder, the configured provider and model and the query's dimension |
| LaneLaws.RowsAreCurrent | backend/memory/recall_stage3_lanes.py:312-339 | after a fully committed run every record has such a row, whatever lay there before |
| LaneLaws.RowBucket | backend/memory/recall_stage3_lanes.py:312-332 | a profile row is filed under what its id has before the first colon, any other under nothing |
| LaneLaws.RunCounts | backend/memory/recall_stage3_lanes.py:246-362 | hits, stale rows and misses are all records; what was embedded is written or counted as errors, never both; an unreadable index has only misses |
| LaneLaws.RunFails | backend/memory/recall_stage3_lanes.py:200-300 | a run fails iff the query or what has to be embedded is not answered by as many vectors, and then returns nothing and leaves the table alone |
| LaneLaws.LaneReturnsBest | backend/memory/recall_stage3_lanes.py:364-385 | the candidates are the records by the cosine of the embeddings, at least the minimum score, descending; one is left out only for top_k of at least its score |
| JobScheduler.MemoryJobScheduler.Submit | backend/memory/async_jobs.py:92-98 | a submission starts a task or replaces the pending snapshot |
| JobScheduler.MemoryJobScheduler.Start | backend/memory/async_jobs.py:103-104 | a new task is created and put on record |
| JobScheduler.MemoryJobScheduler.RunBegins | backend/memory/async_jobs.py:106-108 | a created task enters the runner, and nothing else changes |
| JobScheduler.MemoryJobScheduler.RunFinishes | backend/memory/async_jobs.py:109-116 | the finally block takes the pending snapshot and starts it, or sets idle |
| JobScheduler.RunKeepsInv | backend/memory/async_jobs.py:84-116 | the scheduler's invariant over every possible sequence of steps |
| JobScheduler.SchedulerIsSafe | backend/memory/async_jobs.py:84-116 | at most one unfinished task; idle iff nothing runs or waits; tasks run submissions in increasing order, the newest when idle |
| JobScheduler.PendingIsStartedOrSuperseded | backend/memory/async_jobs.py:92-116 | a pending snapshot leaves its slot only by being started or by a newer one |
| JobScheduler.NoDeadlock | backend/memory/async_jobs.py:106-116 | until idle, some step other than a submission is possible |
| JobScheduler.SchedulerDrains | backend/memory/async_jobs.py:100-116 | without more submissions at most two completions follow, and when no step is left the scheduler is idle with the last submission run last |
| UserWindow.ClipUserMessages | backend/memory/async_jobs.py:18-45 | the longest suffix of the recent messages within the limit, with the rules for a single oversized message |
| UserWindow.NonEmptyKeeps | backend/memory/async_jobs.py:23-25 | exactly the empty messages are dropped, and the others keep their order |
| UserWindow.LastAre | backend/memory/async_jobs.py:23-26 | the last n messages are a suffix of n, all of them for zero, all but the first -n below zero |
| UserWindow.LongestFitsTightly | backend/memory/async_jobs.py:26-45 | the window is a tail of the messages that fits, or the one always kept, and one message more would not fit |
| UserWindow.BuildGateUserWindow | backend/memory/async_jobs.py:48-59 | the gate's window always keeps the latest message |
| UserWindow.BuildExtractionUserWindow | backend/memory/async_jobs.py:62-77 | of the messages between the clamped counters the longest fitting suffix, or the tail of an oversized latest message, never more than the limit |
| MemoryStore.FileMemoryV3Store.LockFor | backend/memory/v3_store.py:25-30 | one lock per user, created on first use |
| MemoryStore.UpsertInList | backend/memory/v3_store.py:125-132 | the loop replaces the first item of the id or appends |
| MemoryStore.UpsertedIs | backend/memory/v3_store.py:124-132 | an upsert changes one slot or adds one at the end, and keeps ids unique |
| MemoryStore.SameFile | backend/memory/v3_store.py:32-52 | two operations are for one file iff they are for one user's profile, one user's episodes, or the working memory of one session and trip, falsy trips being one |
| MemoryStore.SupportedAre | backend/memory/v3_store.py:113-120 | only a profile item for another than the four buckets is refused |
| MemoryStore.EffectLeaves | backend/memory/v3_store.py:109-199 | an item takes the place of the first of its id, or the last place, in the bucket it names, and no other item or bucket changes; an episode is appended once; a save replaces all |
| MemoryStore.WriteFile | backend/memory/v3_store.py:109-199 | the worker thread's write leaves the file so, bucket by bucket |
| MemoryStore.FileMemoryV3Store.Request | backend/memory/v3_store.py:113-122 | an unsupported bucket is refused before any lock, otherwise the task waits for its user's lock |
| MemoryStore.FileMemoryV3Store.Acquire | backend/memory/v3_store.py:122-123 | a waiting task takes its user's free lock |
| MemoryStore.FileMemoryV3Store.Load | backend/memory/v3_store.py:103-107 | the worker thread reads the file, empty when missing, also for a writer that was cancelled |
| MemoryStore.FileMemoryV3Store.Write | backend/memory/v3_store.py:72-79 | the worker thread replaces the one file, also for a writer that was cancelled |
| MemoryStore.FileMemoryV3Store.Leave | backend/memory/v3_store.py:122-133 | leaving the block frees the lock: at its end, by an exception, or cancelled while the worker thread goes on |
| MemorySafety.StepKeepsInv | backend/memory/v3_store.py:113-133 | locks, exclusion, acquisition order, the accounting of effects, and what every file is made of are kept by every step |
| MemoryRuns.NoLostUpdates | backend/memory/v3_store.py:113-177 | after any interleaving a profile or working-memory file is the writers of its lineage one by one, which are all effects on it iff no upsert wrote back an outdated read; one writer per user holds the lock |
| MemoryRuns.NothingDropped | backend/memory/v3_store.py:113-177 | a writer that returned without raising took effect, and its effect is in its file's lineage if no outdated read was written back |
| MemoryRuns.WaitedRunsLoseNothing | backend/memory/v3_store.py:109-199 | if nobody gets the lock while an abandoned thread works on the same file, every file is its effects one by one in lock order |
| MemoryContents.ReturnedUpdateIsThere | backend/memory/v3_store.py:113-177 | then an update whose call returned without raising has its item in the bucket it named of its user's file, unless another operation replaces it |
| MemoryContents.UpdatesSurvive | backend/memory/v3_store.py:113-177 | in any run the same holds of every update of a file's lineage with nothing behind it that replaces it |
| MemoryContents.OtherBucketsKept | backend/memory/v3_store.py:113-133 | a bucket no update names keeps what it held |
| MemoryContents.FailsAnywhere | backend/memory/v3_store.py:122-133 | where a writer may fail, and where it may be cancelled with its thread at work |
| MemoryContents.NoDeadlock | backend/memory/v3_store.py:25-30 | as long as a writer is neither finished nor refused some step that is no failure is possible, whoever was cancelled |
| MemoryRuns.UncancelledRunsWait | backend/memory/v3_store.py:122-133 | that is so when no writer is cancelled with its thread at work |
| MemoryRuns.CancelledWriteLosesUpdate | backend/api/orchestration/memory/extraction.py:259-272 | a concrete run in which a cancelled write replaces the update of a writer that returned normally |
| MemoryRuns.EpisodesNeverLost | backend/memory/v3_store.py:186-199 | an episodes file only grows and holds every appended id; ids stay unique iff no append was decided on an outdated read |
| MemoryRuns.SaveErasesEarlierUpdates | backend/memory/v3_store.py:109-111 | of what took effect on a profile before a save nothing is left |
| MemoryRuns.IdsStayUnique | backend/memory/v3_store.py:124-132 | ids stay unique in every bucket, whoever is cancelled |
| MemoryRuns.OtherFilesUntouched | backend/memory/v3_store.py:35-52 | files no operation is for, such as other users', keep their content |
| Compaction.TruncateTwice | backend/agent/compaction.py:374-379 | truncating twice is truncating once to the smaller limit, through the stripping and the ellipsis |
| Compaction.TruncatedFits | backend/agent/compaction.py:374-379 | a cut text is at most one character over the limit, a prefix with only spaces dropped before the limit, and an ellipsis; when it equals the original |
| Compaction.CompactWebSearchData | backend/agent/compaction.py:233-263 | the fresh copy with truncated answer, rewritten head of the results, and omitted count |
| Compaction.ListConserved | backend/agent/compaction.py:246-262 | the shown entries are the head of the list in order, shown and omitted add up, and no other entry changes |
| Compaction.WebSearchFits | backend/agent/compaction.py:233-263 | whatever comes in, answer, snippets and number of results keep to the mode's limits, and nothing else changes |
| CompactionLaws.WebSearchShows | backend/agent/compaction.py:233-263 | the answer is cut at 600 or 400 characters, the first eight or five results are shown, the rest is counted, and nothing else changes |
| CompactionLaws.WebResultKeeps | backend/agent/compaction.py:246-258 | a shown result has its own title, url and score, and its content up to 300 or 200 characters |
| CompactionLaws.OperationIs | backend/agent/compaction.py:273-279 | the kind of xiaohongshu data is what the data says, or else what the tool's name says |
| CompactionLaws.XiaohongshuLists | backend/agent/compaction.py:281-325 | the first twelve or eight found notes or comments are shown, the rest is counted, and nothing else changes |
| CompactionLaws.XiaohongshuNote | backend/agent/compaction.py:294-327 | of a note read only the note changes, and nothing for any other operation |
| CompactionLaws.SearchItemKeeps | backend/agent/compaction.py:330-339 | a found note keeps id, title, likes and type, and its url without query and fragment |
| CompactionLaws.NoteKeeps | backend/agent/compaction.py:294-310 | a note keeps its id, title, counts, tags, type and url |
| CompactionLaws.NoteIsCut | backend/agent/compaction.py:295-301 | a note's description is kept up to 400 or 300 characters |
| CompactionLaws.CommentKeeps | backend/agent/compaction.py:342-349 | a comment keeps nickname and likes, and its text up to 260 or 200 characters |
| CompactionLaws.ResultsCompacted | backend/agent/compaction.py:194-230 | only the data of a successful result changes, and only for web search and the xiaohongshu tools |
| Compaction.ListTwice | backend/agent/compaction.py:259-263 | a tighter pass over a looser one equals the tighter pass but for the count, and equals it iff the looser one dropped nothing or the limits agree |
| Compaction.WebSearchTwice | backend/agent/compaction.py:233-263 | the same for web-search data |
| Compaction.XiaohongshuTwice | backend/agent/compaction.py:266-347 | the same for all three kinds of xiaohongshu data |
| Compaction.CompactTwice | backend/agent/compaction.py:194-230 | compacting a tool result is idempotent in one mode, and moderate then aggressive is aggressive but for the counts |
| PromptMessages.ScanTools | backend/agent/compaction.py:101-114 | every tool message is found with the name of the call it answers, and the largest is measured |
| CompactionLaws.NameIsLastCall | backend/agent/compaction.py:101-110 | a tool message is compacted under the name of the last call of its id before it |
| CompactionLaws.ToolMessagesCompacted | backend/agent/compaction.py:164-191 | exactly the tool messages with a result are compacted, each as its tool's |
| PromptMessages.ChooseMode | backend/agent/compaction.py:116-138 | no mode iff the prompt is below the soft ratio and no tool message reaches its threshold; aggressive iff there is a mode and the aggressive ratio or the higher threshold is reached |
| CompactionLaws.OversizedMeans | backend/agent/compaction.py:116-122 | the first threshold is the larger of the minimum and the ratio's share of the budget, rounded down |
| CompactionLaws.AggressiveMeans | backend/agent/compaction.py:132-138 | the second is the largest of twice the minimum, 1.6 times that share and three tenths of the budget, rounded down |
| CompactionLaws.UsageMeans | backend/agent/compaction.py:98-99 | the usage ratio times the budget is the estimate, and it is zero without a budget |
| PromptMessages.RewriteTools | backend/agent/compaction.py:140-149 | the second loop compacts every tool message and counts those that changed |
| PromptMessages.CompactMessagesForPrompt | backend/agent/compaction.py:82-161 | the outcome: messages, estimates, mode and count, where changed, mode and count agree |
| PromptMessages.CountIffChanged | backend/agent/compaction.py:143-149 | the count is zero iff the messages are the same |
| PromptMessages.CompactionKeepsProtocol | backend/agent/compaction.py:164-191 | length, roles, order, calls, ids and all other messages stay, and every result still answers the same call |
| PromptMessages.CompactMessagesTwice | backend/agent/compaction.py:82-161 | the two-pass laws lifted to whole conversations |
| TraceBuilder.TakeTools | backend/api/trace.py:189-211 | the inner loop takes the calls before the next LLM call |
| TraceBuilder.TakeRecord | backend/api/trace.py:220-232 | the head record is taken iff it lies in the iteration's window |
| TraceBuilder.BuildIteration | backend/api/trace.py:181-253 | one turn of the loop: the iteration with its calls, state changes, compression event, records and significance, and where the three indices stand |
| TraceBuilder.TakeRemaining | backend/api/trace.py:255-276 | the calls left over, shown without previews |
| TraceBuilder.BuildTrace | backend/api/trace.py:174-290 | every iteration and the orphan bucket, by position, with compression events and significance |
| TraceBuilder.IterationSays | backend/api/trace.py:181-253 | iterations are numbered from one and show their LLM call, their calls as recorded and all their state changes |
| TraceBuilder.OrphanSays | backend/api/trace.py:255-290 | the orphans' bucket has the next number, their state changes, and the calls without previews but otherwise as recorded |
| TraceBuilder.TraceKeepsAllCalls | backend/api/trace.py:181-290 | the iterations' calls and the orphans together are the recorded list; orphans exist iff no LLM call was recorded |
| TraceBuilder.MergeFindsOwner | backend/api/trace.py:184-211 | with sorted timestamps a call is where a search for the last LLM call not later than it (or the first) puts it |
| TraceBuilder.MergeWithoutOrder | backend/api/trace.py:191-211 | without any order a call still lands in an iteration that ends after it |
| TraceBuilder.RecordsShownInOrder | backend/api/trace.py:220-232 | memory and recall records are shown in order, each once, none skipped |
| TraceBuilder.ShownInItsWindow | backend/api/trace.py:220-232 | a record is shown with an iteration iff it is the next one and lies after the previous LLM call and at most five seconds after this one |
| StateModels.StepIsStage | backend/state/models.py:576-615 | each step applies exactly under its own condition, and the inference fails exactly on skeletons that cannot be searched or a brief that is no dictionary where it is asked |
| StateCodec.EvidenceRead | backend/state/models.py:67-86 | whatever is read, the codes are valid and the optional parts are truthy or absent |
| StateCodec.EvidenceTrip | backend/state/models.py:55-86 | evidence survives a save and load |
| StateCodec.VisitInfoTrip | backend/state/models.py:102-125 | visit info, with its evidence, is read into its valid form and survives |
| StateCodec.ExcludedTrip | backend/state/models.py:138-159 | excluded candidates are read into their valid form and survive |
| StateCodec.LocationTrip | backend/state/models.py:168-189 | locations survive |
| StateCodec.ActivityRead | backend/state/models.py:291-312 | whatever is read is an activity in settled form |
| StateCodec.ActivityTrip | backend/state/models.py:273-312 | activities survive, with the optional visit info |
| StateCodec.DayPlanTrip | backend/state/models.py:339-360 | days survive, with all their activities |
| StateCodec.ConstraintTrip | backend/state/models.py:380-390 | a constraint survives with its source settled |
| StateCodec.PreferenceTrip | backend/state/models.py:417-429 | a preference survives with its source settled |
| CodecLaws.EvidenceReads | backend/state/models.py:67-86 | evidence is read from its own keys: codes in small letters or the usual one, texts, and optional parts |
| CodecLaws.BareEvidence | backend/state/models.py:67-73 | evidence that is no dictionary is an unverified experience from the web |
| CodecLaws.VisitInfoReads | backend/state/models.py:110-125 | role, reason, recheck and evidence from their own keys |
| CodecLaws.ExcludedReads | backend/state/models.py:147-159 | name, reason, category and optional parts from their own keys |
| CodecLaws.LocationReads | backend/state/models.py:171-189 | coordinates, and the name or else the address |
| CodecLaws.PartsRead | backend/state/models.py:209-251 | which entries dates, travelers, budget and accommodation need, and the defaults of the others |
| CodecLaws.ActivityReads | backend/state/models.py:291-312 | names, times, category and place of an activity |
| CodecLaws.ActivityReadsMore | backend/state/models.py:291-312 | cost, transport, notes and visit info of an activity |
| CodecLaws.DayPlanReads | backend/state/models.py:347-360 | a day with all its activities, its tips or else its notes; it fails iff an activity is no dictionary |
| CodecLaws.WishesRead | backend/state/models.py:386-429 | constraints and preferences from their own keys, and what they need |
| CodecLaws.BacktrackReads | backend/state/models.py:504-512 | a backtrack event needs its four entries |
| PlanCodec.LoadedPlans | backend/state/models.py:696-767 | a loaded plan has a supported phase, a step, a current version and settled parts |
| CodecLaws.PlanReads | backend/state/models.py:696-767 | a plan loads only with a session id and a phase from 1 to 4; identity, destination, times and version from their own keys |
| CodecLaws.PhasesLoad | backend/state/models.py:696-712 | phases 1 to 4 load and no others, and nothing without a session id |
| CodecLaws.PlanReadsResearch | backend/state/models.py:696-767 | brief, pool, shortlist, skeletons and selection from their own keys, and the step, inferred when missing |
| CodecLaws.PlanReadsChoices | backend/state/models.py:696-767 | options, transport, risks, alternatives and deliverables from their own keys |
| CodecLaws.PlanReadsTrip | backend/state/models.py:696-767 | dates and travelers are read when their entry is truthy, and absent otherwise |
| CodecLaws.PlanReadsMoney | backend/state/models.py:696-767 | so are budget and accommodation |
| CodecLaws.PlanReadsLists | backend/state/models.py:696-767 | lists of parts are read part by part |
| PlanCodec.SettledIsIdentity | backend/state/models.py:380-384 | settling a plan changes nothing but the version iff every source is truthy or the empty text |
| PlanCodec.StateRoundTrip | backend/state/models.py:660-767 | saving and loading any loaded plan gives its settled form, which is the plan up to version iff its sources are stable, and a second trip changes nothing |
| PlanCodec.NullSourceIsLost | backend/state/models.py:380-390 | a concrete constraint that does not survive |
| TravelPlan.DownstreamIsRow | backend/state/models.py:516-553 | the rows of the table nest, so clearing from a phase clears exactly that phase's row |
| TravelPlan.TravelPlanState.ClearRow | backend/state/models.py:657-658 | setting a row's attributes one by one, in any order, gives all of them their defaults and leaves the rest |
| TravelPlan.TravelPlanState.ClearDownstream | backend/state/models.py:653-658 | the loop over the table clears every row not before the given phase |
| TravelPlan.ClearedTwice | backend/state/models.py:653-658 | clearing from two phases in either order is clearing from the earlier one |
| PhaseRouter.HydrateBrief | backend/phase/router.py:23-51 | the brief after hydration: defaults, overridden by the brief, overridden by the dates |
| PhaseRouter.HydrationKeepsBrief | backend/phase/router.py:29-48 | an entry of the brief changes only if it is dates or total_days, and then to the plan's own |
| PhaseRouter.HydratesFromPhaseTwo | backend/phase/router.py:23-28 | nothing is hydrated before phase 2 or without a destination, and never anything but the brief |
| PhaseRouter.HydrationFills | backend/phase/router.py:29-48 | entry by entry: the dates and their number, else what the brief said, else what the plan itself can say |
| PhaseRouter.HydratedTwice | backend/phase/router.py:23-51 | hydration is idempotent |
| PhaseRouter.SyncPhaseState | backend/phase/router.py:53-64 | brief and step after synchronisation, nothing else |
| PhaseRouter.SyncedTwice | backend/phase/router.py:53-64 | synchronisation is idempotent |
| PhaseRouter.CheckSkeletonDays | backend/phase/router.py:66-81 | the loop decides whether the first skeleton of the selected name agrees with the dates |
| PhaseRouter.InferredPhase | backend/phase/router.py:83-94 | the inferred phase is the last whose entry condition holds |
| PhaseRouter.PhaseByFields | backend/phase/router.py:83-94 | the four answers by the fields: destination; dates, selected skeleton of as many days, and accommodation; as many day plans as the trip has days |
| PhaseRouter.PartsAreNeeded | backend/phase/router.py:83-94 | taking one of the parts away lowers the phase to exactly what the others carry |
| PhaseRouter.ClashIsMismatch | backend/phase/router.py:66-81 | the days clash iff the first skeleton with the selected id or name has a list of days of another length than the trip |
| PhaseRouter.InferPhase | backend/phase/router.py:83-94 | the branches compute the inferred phase, by the fields, and leave the plan synchronised |
| PhaseRouter.SyncKeepsInference | backend/phase/router.py:83-94 | inference does not depend on what synchronisation writes |
| PhaseRouter.ReadyMeansLocked | backend/state/models.py:603-615 | a phase-2 plan ready for phase 3 is in step lock, or in step skeleton iff its selection resolves to no skeleton |
| PhaseRouter.DanglingSelectionPasses | backend/phase/router.py:66-81 | a selection that resolves to no skeleton never holds a plan back |
| PhaseRouter.CheckAndApplyTransition | backend/phase/router.py:118-154 | plan and answer of a check, under any hooks |
| PhaseRouter.CheckReachesInferredPhase | backend/phase/router.py:124-154 | a check moves to the inferred phase iff that differs and the hooks allow it |
| PhaseRouter.CheckTwice | backend/phase/router.py:118-154 | a second check under the same hooks changes nothing |
| Backtracking.Execute | backend/phase/backtrack.py:8-28 | refused iff the target is not earlier; otherwise event recorded, fields cleared, phase set |
| Backtracking.BacktrackLeaves | backend/state/models.py:516-553 | what is left of a plan field by field: days and deliverables go with phase 3, choices with phase 2, destination, dates, brief and research with phase 1 |
| Backtracking.ClearedKeeps | backend/state/models.py:653-658 | clearing keeps identity, party, budget, constraints, preferences and histories, and the declared types |
| Backtracking.InferenceAfterClear | backend/phase/router.py:83-94 | clearing from p makes the inferred phase min(max(p, 1), before) iff it is not phase 3 of a complete trip of no days |
| Backtracking.BacktrackIsNotBounced | backend/phase/backtrack.py:16-28 | the next check leaves a backtracked plan alone iff the target is a real phase the plan had reached and the trip has a day |
| Backtracking.SettledBacktrackHolds | backend/phase/backtrack.py:16-28 | from a settled plan a backtrack to phase 1 or later survives the next check under any hooks |
| PlanWriters.FieldWritesKeep | backend/state/plan_writers.py:66-161 | no single-field write touches phase, days or backtracks, or breaks the declared types; exactly the three selections leave a decision event |
| PlanWriters.FieldWriteSets | backend/state/plan_writers.py:66-161 | each write sets its own field to its own value, and putting that field back gives the old plan; a decision names its category and value |
| PlanWriters.BriefWriteMerges | backend/state/plan_writers.py:153-161 | writing fields overrides exactly those entries of the brief, a recognisable pace under its canonical name |
| PlanWriters.OtherWritesKeepInference | backend/phase/router.py:83-94 | only writes of destination, dates, skeletons, the selections of skeleton and accommodation can move a plan to another phase |
| PlanWriters.SortDailyPlans | backend/state/plan_writers.py:169-170 | the days are a sorted permutation in which equal numbers keep their order; nothing else changes |
| PlanWriters.AppendOneDayPlan | backend/state/plan_writers.py:173-177 | the plan after appending, or unchanged when the day cannot be read |
| PlanWriters.ReplaceAllDailyPlans | backend/state/plan_writers.py:180-190 | the plan after replacing all days with its decision event, or unchanged |
| PlanWriters.ReplacesAll | backend/state/plan_writers.py:180-183 | the new days are the ones read, sorted |
| PlanWriters.ReplacementNoted | backend/state/plan_writers.py:184-190 | the decision on record lists their numbers, and nothing else changes |
| PlanWriters.ReplaceOneDayPlan | backend/state/plan_writers.py:193-201 | the plan after replacing the days of a number, or unchanged on a missing or unreadable day |
| PlanWriters.AppendDayInPlace | backend/state/plan_writers.py:173-177 | an appended day joins the others in its sorted place; equal numbers keep their order |
| PlanWriters.ReplaceDayInPlace | backend/state/plan_writers.py:193-201 | replacing in a sorted itinerary keeps every day number and every other day in its place |
| PlanWriters.ReplacesNumber | backend/state/plan_writers.py:193-201 | a day takes the place of exactly the days whose number equals the given one, integer, float or boolean |
| ItineraryChecks.ValidateDayCount | backend/harness/validator.py:411-428 | no error iff the day count and coverage demands hold, and each of the two errors exactly under its own condition |
| ItineraryChecks.SortedCoverIsIdentity | backend/harness/validator.py:419-428 | n sorted days among which 1 to n occur are exactly those, in order |
| ItineraryChecks.CleanIffCovered | backend/harness/validator.py:411-428 | for a sorted itinerary that is long enough, no error iff day i + 1 is in place i and the count is the trip's |
| ItineraryChecks.ValidateDay | backend/harness/validator.py:179-205 | the reports about one day's neighbours |
| ItineraryChecks.ValidateTimeConflicts | backend/harness/validator.py:176-207 | the reports about all days in order, or the failure of an addition |
| ItineraryChecks.TravelIs | backend/harness/validator.py:193-196 | a stated duration that is not falsy is the travel, otherwise the assumed commute is; what is no number cannot be added |
| ItineraryChecks.ConflictSays | backend/harness/validator.py:185-205 | a conflict is reported iff the travel exceeds the gap, with the names, times, travel and gap of the two |
| ItineraryChecks.NeighboursFit | backend/harness/validator.py:183-205 | nothing is reported of two neighbours iff the travel fits between them, if their times can be read |
| ItineraryChecks.CleanIffEveryGapFits | backend/harness/validator.py:176-207 | nothing is reported iff between every two activities of a day with a readable stretch between them there is room for all the travel |
| ItineraryChecks.OverlapIsHiddenInBetween | backend/harness/validator.py:176-207 | an unreported overlap has an activity in between with an unreadable time or one that ends before it starts |
| ItineraryChecks.UnreadableTimeHidesOverlap | backend/harness/validator.py:185-192 | an unreadable activity in between hides an overlap |
| ItineraryChecks.ReversedTimeHidesOverlap | backend/harness/validator.py:185-205 | an activity that ends before it starts hides one too, with every time readable |
| PlanRun.Perform | backend/state/plan_writers.py:66-341 | each operation on the state object is its step |
| PlanRun.StepKeepsInvariant | backend/state/plan_writers.py:169-331 | an operation keeps phase in 1..4, days sorted, backtracks going back and types iff it is not a backtrack below phase 1; history only grows |
| PlanRun.PerformAll | backend/state/plan_writers.py:66-341 | a whole run of operations on a state object is the run of its steps and keeps the invariant |
| PlanRun.PhaseFourCoverage | backend/phase/router.py:92-94 | after any run, phase 4 and a clean day check mean the itinerary is exactly the days of the trip, and conversely |
| PlanRun.RunsSettle | backend/phase/router.py:118-164 | after any run a second check changes nothing, and a backtrack right after a check survives the next |
| PlanRun.NewPlanIsSettled | backend/state/models.py:618-651 | a new plan satisfies the invariant and is in its inferred phase |
| PlanRun.EmptyTripIsBounced | backend/phase/router.py:83-94 | a complete trip of no days is put back in phase 4 after a backtrack to phase 3 |
| PlanRun.EmptyTripExists | backend/state/models.py:197-204 | dates the wrong way round give such a plan |

## Left out

- LLM providers, HTTP routes, streaming, the front end, telemetry and configuration parsing: input and output only.
- The agent loop and its steering: they depend on modules that are not part of this model.
- Scores are exact reals: rounding of binary floating point is not modelled, nor are infinities and NaN.
- Cosine similarity, text hashing, rounding to float32, the url grammar, token estimators, reranking scores, duplicate
  groups and conflict tests are parameters; lemmas that need a law of theirs (no hash collisions, idempotent stripping)
  require it.
- Python's `str`, `int`, `float`, `dict` and iteration on arbitrary values, the number of days of a date range, pace
  names and times of day are parameters; `StateCodec.Lawful` lists what is assumed of the conversions on saved values.
  A date that does not parse is therefore not an error in the model.
- Equality of JSON values is structural: Python's `1 == 1.0 == True` is modelled only where a day number is compared.
- Dictionaries are maps; insertion order is kept only where the code's result depends on it (fusion, the LRU cache).
- SQLite, files and JSON text are maps and values; an atomic replace is one step. Parsing a stored profile is assumed to
  give back what was written.
- TravelPlan.TravelPlanState: its attributes are the components of one record in the object, so sharing of a mutable list
  between the plan and its caller is not captured.
- SemanticLane.RankRecords: works on values, although the code updates the candidate and evidence objects in place, so
  aliasing between records is not captured.
- Reranker.RerankCandidates: omits the fixed texts of the result (final reason, fallback, metrics placeholder).
- TraceBuilder.BuildTrace: omits costs and durations, which are computed per call; significance and compression events
  come from look-ups that are parameters.
- JobScheduler: cancellation of a task before its first step is not modelled, nor a runner that never ends.
- MemoryStore: audit events, episode slices and plain loads are not operations of the model; an episode's one thread is
  split into a read and an append, which allows more interleavings than the code.
- PhaseRouter.CheckAndApplyTransition: hooks answer from the plan and the two phases and do not change the plan.
- PhaseRouter.SyncPhaseState: requires the trip brief to be a dictionary, and the phase members the skeletons to be falsy
  or a list; on other loaded values the code raises part of the way through.
- PlanWriters.FieldWritten: takes dates, travelers, budget, preferences and constraints as the phrase parsers and
  stringifiers leave them; those parsers are not part of this model.
- The other checks of the validator (budget, transport days and buffers, pace) and the incremental checks: independent
  comparisons that would only add easy members.
- The symbolic, lexical and entity lanes' candidate building, recall gates and natural-language vocabularies: no ordering
  or state beyond what fusion and reranking model.
