# Verification of the adaptive LLM gateway

A Dafny model of the parts of the gateway whose correctness is global, with proofs over every
input, every run or every interleaving. `dafny verify dfyconfig.toml` checks all of it.

- **Dataset publication.** `Corpus`, `Curation`: near-duplicate search through an inverted index,
  proved equal to an all-pairs scan. `Components`, `Splitting`, `SplitGuarantees`: the union-find
  with path halving and the assignment of whole components to splits. `Publication`: the publish
  loop against deletions that commit between its rounds.
- **Transactional outbox.** `Outbox`: the table, its queries and the deduplicating sink.
  `Dispatch`: one dispatcher's loop, and any number of dispatchers interleaved with enqueues,
  sink failures, lost acknowledgements, crashes and redelivery. `DispatchOrder`: the order of
  emissions within an interaction.
- **Model registry and training jobs.** `Lifecycle`, `Registry`: promotion, rollback and the
  deployment pointers. `TrainingJobs`: workers, and their failure handlers, acting on stale copies
  of a job, against cancellation.
- **Tenant storage and serving.** `References`, `Eviction`, `TenantStore`, `TenantDatabase`,
  `Privacy`: retention, deletion, reference clearing and replay eviction. `Serving`: request
  reservations and the shielded save. `KeyRotation`: batched re-encryption under interference.
- **Routing.** `Breakers`: the three-state circuit breaker. `FallbackChain`: the bounded chain of
  attempts on breakers shared with other callers.
- **Numeric and structural transformations.** `Selections`, `Pruning`, `PruneExport`: the compact
  network computes the masked original. `Statistics`: the bootstrap interval. `Calibration`: the
  expected calibration error.

Operations that update state are methods of classes or loops, each proved against a function of
the old state; the theorems are lemmas about those functions and about runs of them. A
transaction or a row claim is one atomic step that commits or leaves the state unchanged.

## What the proofs found

- `redeliver` can put a row back after a later row of its interaction was emitted; what follows
  keeps the order of emissions exactly when nothing later of the interaction was emitted or is
  about to be (`DispatchOrder.RedeliveryKeepsOrderIff`, `DispatchOrder.RedeliveryBreaksOrder`). The
  table and its row locks show that until the interaction is redelivered for the first time or a
  dispatcher crashes between an emission of it and the record (`DispatchOrder.VisibleGuardIsExact`);
  after either they can hide an emission (`DispatchOrder.RedeliveryHidesEmission`,
  `DispatchOrder.CrashHidesEmission`), and no guard that reads them is exact
  (`DispatchOrder.NoGuardIsExact`). Redelivering only the last readable row of an interaction is
  always safe (`DispatchOrder.LastListedSuffices`).
- Promoting the current version of a deployment directly to `deprecated` or `revoked`, and nothing
  else, strands the deployment: every later promotion to production conflicts and every rollback
  is refused (`Registry.StrandsIff`, `Registry.StrandedForever`, `Registry.RiseStrands`).
- Nothing in the transaction of `_save_job_outcome` protects a succeeded job: it stays exactly when
  no worker is on the job. The per-job file lock does not ensure that, because the failure handler
  of `work_once` reads and saves outside it; the worker claim does
  (`TrainingJobs.SuccessIsFinalIff`, `TrainingJobs.HandlerHidesSuccess`,
  `TrainingJobs.SuccessIsFinalUnderClaim`).
- A save cancelled a second time releases its reservation while its thread still writes, so a
  retry can execute the same key until that thread ends
  (`Serving.OverlapFreeIffCovered`, `Serving.TwoCancellationsOverlap`).
- `prune` slices the MLP weights but not the MLP gate and up biases, so an export with removed
  channels fits its config exactly when no retained layer has such a bias
  (`PruneExport.ExportLoadsIff`, `PruneExport.BiasedExportDoesNotLoad`).

## Model

| member | source | states |
|---|---|---|
| `Curation.Shingles` | `src/adaptive_llm/datasets/curation.py:16-19` | A shingle set is never empty: with no words it holds the empty tuple. This is what makes the inverted index exact. |
| `Curation.ShinglesAreRuns` | `src/adaptive_llm/datasets/curation.py:16-19` | The shingles of a text are exactly its runs of five consecutive words; a shorter text is its own one. |
| `Curation.SimilarSymmetric` | `src/adaptive_llm/datasets/curation.py:22-26` | Similarity does not depend on which text comes first. |
| `Curation.SimilarIsJaccard` | `src/adaptive_llm/datasets/curation.py:22-26` | Two texts are similar exactly when what they share exceeds the threshold’s part of all they have. |
| `Curation.IdenticalAreSimilar` | `src/adaptive_llm/datasets/curation.py:22-26` | Identical texts are similar exactly below a threshold of one. |
| `Curation.DisjointNeverSimilar` | `src/adaptive_llm/datasets/curation.py:22-26` | Texts without a common shingle are never similar at a threshold of zero or more. |
| `Curation.Overlapping` | `src/adaptive_llm/datasets/curation.py:53-55` | The scanned positions are exactly those of accepted examples that share a shingle with the current one. |
| `Curation.Post` | `src/adaptive_llm/datasets/curation.py:64-65` | Posting adds the new position under each of its shingles and changes no other posting. |
| `Curation.IndexFindsNear` | `src/adaptive_llm/datasets/curation.py:49-58` | Looking only at the positions the index lists finds a near-duplicate exactly when comparing with every accepted example would. |
| `Curation.Curate` | `src/adaptive_llm/datasets/curation.py:42-68` | The index-based loop accepts the examples and counts the exclusions of an all-pairs scan, in order, for every threshold of zero or more. |
| `Curation.ScanIsClean` | `src/adaptive_llm/datasets/curation.py:50-68` | Accepted examples are pairwise non-similar, have distinct hashes and hit no benchmark. |
| `Curation.LawfulVerdictsDecide` | `src/adaptive_llm/datasets/curation.py:50-68` | Any verdicts that call an example a duplicate of an earlier accepted one, else a near-duplicate of one, else contaminated by its benchmark text, are those the scan accepts and counts by. |
| `Curation.LawfulVerdictsExist` | `src/adaptive_llm/datasets/curation.py:50-68` | Every input has such verdicts. |
| `Curation.AcceptedAreApart` | `src/adaptive_llm/datasets/curation.py:42-68` | Any two examples a curation returns have different hashes and are not similar in either order. |
| `Curation.EveryInputCountedOnce` | `src/adaptive_llm/datasets/curation.py:50-68` | Every input is either accepted or counted under exactly one of the three reasons, and no other counter moves. |
| `Curation.ExclusionsAreJustified` | `src/adaptive_llm/datasets/curation.py:56-61` | Each excluded input duplicates, or is similar to, an accepted example, or is similar to a benchmark. |
| `Curation.CuratingTwiceChangesNothing` | `src/adaptive_llm/datasets/curation.py:42-68` | Curating an output again returns it unchanged and counts nothing. |
| `Curation.ScanIgnoresStartingCounts` | `src/adaptive_llm/datasets/curation.py:42-68` | The counter passed in affects neither what is accepted nor what is added to it. |
| `Corpus.SortByStart` | `src/adaptive_llm/datasets/curation.py:50` | The order by start instant and id: sorted, and a rearrangement of its input. |
| `Components.Root` | `src/adaptive_llm/datasets/curation.py:78-82` | Root search with path halving terminates without ranks or an index order, returns the root of the index and leaves every index under the root it had. |
| `Components.HalvingKeepsRoots` | `src/adaptive_llm/datasets/curation.py:79-81` | Pointing a node at its grandparent changes no root. |
| `Components.RootIsUnique` | `src/adaptive_llm/datasets/curation.py:78-82` | The forest alone determines the root of every index. |
| `Components.LinkMergesTrees` | `src/adaptive_llm/datasets/curation.py:91` | Linking one root below another, in either direction, merges exactly their two trees. |
| `Components.LinkKey` | `src/adaptive_llm/datasets/curation.py:89-92` | Handling one key joins the example to the last example with that key and keeps all earlier joins. |
| `Components.LinkShared` | `src/adaptive_llm/datasets/curation.py:84-92` | After the union loop two examples have the same root exactly when a chain of shared families or subjects connects them. |
| `Components.SharesIff` | `src/adaptive_llm/datasets/curation.py:84-92` | Two examples share a key exactly when they have a family or the subject in common. |
| `Splitting.GroupByRoot` | `src/adaptive_llm/datasets/curation.py:93-96` | The grouping loop returns the root classes in order of first appearance. |
| `Splitting.RootsGiveComponents` | `src/adaptive_llm/datasets/curation.py:84-96` | Whatever roots the union-find picked, the groups are the connected components. |
| `Splitting.MaxStartIsLatest` | `src/adaptive_llm/datasets/curation.py:105` | The instant that decides a component is the start of one of its members and no member starts later. |
| `Splitting.DealAll` | `src/adaptive_llm/datasets/curation.py:99-117` | The assignment loop deals whole components by the time rule or the fraction dealt so far. |
| `Splitting.SplitExamples` | `src/adaptive_llm/datasets/curation.py:71-120` | The whole function returns the sorted splits of the shuffled connected components, for any shuffle. |
| `SplitGuarantees.SplitKeepsEverything` | `src/adaptive_llm/datasets/curation.py:71-120` | The three splits together are a permutation of the input, for any shuffle and rule. |
| `SplitGuarantees.ComponentsApart` | `src/adaptive_llm/datasets/curation.py:93-96` | Different components share no family and no subject. |
| `SplitGuarantees.DealtWhole` | `src/adaptive_llm/datasets/curation.py:101-117` | A split holds an example exactly when a component containing it was dealt to that split. |
| `SplitGuarantees.SplitSeparates` | `src/adaptive_llm/datasets/curation.py:71-120` | Examples that share a family or a subject are always in the same split. |
| `SplitGuarantees.TimeSplitFollowsLatest` | `src/adaptive_llm/datasets/curation.py:103-112` | Under a time split an example is in a split exactly when the latest start in its whole component is due there. |
| `SplitGuarantees.TimeSplitByStarts` | `src/adaptive_llm/datasets/curation.py:104-112` | Under a time split an example trains exactly when every start in its component is before the training end, validates exactly when every one is before the validation end but not every one before the training end, and tests otherwise. |
| `SplitGuarantees.TrainNeverSeesTheFuture` | `src/adaptive_llm/datasets/curation.py:104-112` | Nothing that shares a key with a training example starts at or after the training cutoff. |
| `SplitGuarantees.FractionFillsInOrder` | `src/adaptive_llm/datasets/curation.py:113-117` | Without a time split components fill train, then validation, then test. |
| `SplitGuarantees.FractionSplitCuts` | `src/adaptive_llm/datasets/curation.py:113-117` | Without a time split the components dealt while fewer than 80% of the examples are train, those dealt from there while fewer than 90% are validate, and the rest test. |
| `SplitGuarantees.FractionSharesReached` | `src/adaptive_llm/datasets/curation.py:113-117` | Without a time split at least 80% of the examples train and at least 90% are outside the test split. |
| `SplitGuarantees.FractionSharesAreTight` | `src/adaptive_llm/datasets/curation.py:113-117` | Train without its last component is under 80% of the examples, and train with validation without their last component is under 90%. |
| `Publication.ConstructAll` | `src/adaptive_llm/datasets/builder.py:172-184` | Construction keeps the candidates of the right environment that build, in order, and counts every other under its reason. |
| `Publication.CandidatesAreAccounted` | `src/adaptive_llm/datasets/builder.py:172-184` | Every candidate of another environment is counted as forbidden, every one that fails under its code, and each of the others gives one row. |
| `Publication.BuiltInOrder` | `src/adaptive_llm/datasets/builder.py:172-184` | The rows are what the candidates of the right environment build, in the order of the candidates. |
| `Publication.Stage` | `src/adaptive_llm/datasets/builder.py:295-307` | One staging curates with a copy of the counter, splits, and fails when too few examples train. |
| `Publication.Deleted` | `src/adaptive_llm/datasets/builder.py:148-160` | The keys of the candidates that now have an interaction or subject tombstone. |
| `Publication.SurvivingRowsAreBuilt` | `src/adaptive_llm/datasets/builder.py:268-273` | Dropping built rows of deleted candidates equals building from the surviving candidates. |
| `Publication.EachKeyRemovesOne` | `src/adaptive_llm/datasets/builder.py:267-272` | Each deleted key removes exactly one candidate. |
| `Publication.RetriesRemoveTheCovered` | `src/adaptive_llm/datasets/builder.py:213-273` | Retrying while deletions accumulate leaves exactly the candidates the last round’s tombstones do not cover. |
| `Publication.WithoutIsTheUntouched` | `src/adaptive_llm/datasets/builder.py:148-160` | What is left are exactly the candidates that no tombstone names, by interaction or by subject. |
| `Publication.Build` | `src/adaptive_llm/datasets/builder.py:213-273` | The publish loop terminates after at most as many retries as candidates, whatever is deleted meanwhile; its result is what the remaining candidates stage, and on success those are what the tombstones of the publishing transaction leave. |
| `Publication.PublishedRowsAreLive` | `src/adaptive_llm/datasets/builder.py:248-262` | No published row is tombstoned, by interaction or by subject, in the publishing transaction. |
| `Publication.DeletedLeaveNoTrace` | `src/adaptive_llm/datasets/builder.py:265-297` | A build that retried publishes the splits and the curation counts of an undisturbed build that never saw the deleted candidates. |
| `Outbox.OutboxStore.Enqueue` | `src/adaptive_llm/storage/outbox.py:27-58` | The loop with its running pending count appends and drops what recounting the pending rows before every event would. |
| `Outbox.EnqueueDecides` | `src/adaptive_llm/storage/outbox.py:37-57` | An event whose id is in the table changes nothing; one of the three optional kinds is dropped and counted when the limit of pending rows is reached; any other is stored last, pending, untried, due when it occurred and keyed by its interaction. |
| `Outbox.ReadableIffOwnEvent` | `src/adaptive_llm/events/outbox.py:129-137` | A row is readable exactly when storing its envelope would give it again, as far as its delivery does not change it. |
| `Outbox.EnqueueOnlyAppends` | `src/adaptive_llm/storage/outbox.py:33-57` | Enqueueing leaves earlier rows alone and appends only pending rows of the given events. |
| `Outbox.EnqueueKeepsIdsUnique` | `src/adaptive_llm/storage/outbox.py:34-37` | An event id is never in the table twice. |
| `Outbox.MandatoryNeverDropped` | `src/adaptive_llm/storage/outbox.py:38-40` | A mandatory event is in the table afterwards, however full it is. |
| `Outbox.DropsOnlyWhenFull` | `src/adaptive_llm/storage/outbox.py:38-40` | Something is dropped only when the table holds at least the limit of pending rows. |
| `Outbox.NextDueIsFirstEligible` | `src/adaptive_llm/storage/outbox.py:64-73` | The selected row is due, pending and unblocked, and no other such row precedes it by next attempt and sequence; none is selected only if there is none. |
| `Outbox.NextDueIsTheFirst` | `src/adaptive_llm/storage/outbox.py:64-73` | The selected row is due and waiting with no earlier waiting row of its tenant and interaction, and of such rows the first by next attempt and sequence; none is selected only if every due row has such a row before it. |
| `Outbox.PendingIsEventuallyDue` | `src/adaptive_llm/storage/outbox.py:64-73` | While a row is pending, something is selected at every instant after all pending rows are due: blocking never deadlocks. |
| `Outbox.NullInteractionNeverWaits` | `src/adaptive_llm/storage/outbox.py:67-71` | A due row without an interaction id is never held back by another row. |
| `Outbox.FinishTouchesOneRow` | `src/adaptive_llm/storage/outbox.py:88-101` | Finishing updates exactly the claimed row, and nothing if it is no longer pending. |
| `Outbox.RedeliverTouchesOneRow` | `src/adaptive_llm/storage/outbox.py:123-133` | Redelivering a dead row changes that row alone, and a row that is not dead not at all. |
| `Outbox.OutboxStore.Redeliver` | `src/adaptive_llm/storage/outbox.py:123-133` | Redelivery reports whether it put a dead row back to pending with no attempts, and changes nothing else. |
| `Outbox.SettlingUsesAnAttempt` | `src/adaptive_llm/events/outbox.py:128-171` | Recording any outcome strictly lowers the remaining attempts of the table. |
| `Outbox.InMemoryEventSink.Emit` | `src/adaptive_llm/events/__init__.py:25-32` | The sink ignores a known event id, refuses a new one when full, and otherwise stores it; it never holds an id twice. |
| `Dispatch.StepKeepsSound` | `src/adaptive_llm/events/outbox.py:93-174` | Whatever dispatchers, failures, lost acknowledgements, crashes and redeliveries interleave, holds stay on distinct pending rows and every row recorded as delivered is in the sink. |
| `Dispatch.StepKeepsRows` | `src/adaptive_llm/storage/outbox.py:88-101` | No step removes or renames a row, and a delivered row never changes again. |
| `Dispatch.DeliveredExactlyOnce` | `src/adaptive_llm/events/__init__.py:9-32` | Every delivered row’s event is in the deduplicating sink exactly once. |
| `Dispatch.DeadMeansExhausted` | `src/adaptive_llm/events/outbox.py:128-171` | A row is dead only once it has used all its attempts or an attempt found its envelope unreadable, and a pending row has attempts left. |
| `Dispatch.TurnSettles` | `src/adaptive_llm/events/outbox.py:124-171` | A turn that meets no fault delivers a readable row whose event the sink holds already or has room for; otherwise the row is retried, or dead when out of attempts; an unreadable row is dead. |
| `Dispatch.EmitAndFinishSettle` | `src/adaptive_llm/events/outbox.py:124-171` | Any dispatcher that emits and then records delivers its row exactly then, at the price of one attempt. |
| `Dispatch.OutcomeIsExplained` | `src/adaptive_llm/events/outbox.py:140-169` | In every run, what a dispatcher is about to record is what its last emission came to: acknowledged exactly when it met no fault and the sink held the event or had room for it. |
| `Dispatch.AttemptsAreFailures` | `src/adaptive_llm/events/outbox.py:124-171` | In every run, a row that waits or died readable has as many attempts as emissions of it failed since it was last redelivered. |
| `Dispatch.DeadMeansFailed` | `src/adaptive_llm/events/outbox.py:150-156` | A readable row is dead only after max_attempts emissions of it that were refused, lost their acknowledgement, or found a full sink without the event. |
| `Dispatch.DispatchDrains` | `src/adaptive_llm/events/outbox.py:121-174` | Without new or redelivered rows the claims finished so far and the rows still pending together never exceed the attempts that remained. |
| `Dispatch.CallsDrain` | `src/adaptive_llm/events/outbox.py:121-174` | Calls of dispatch_once made whenever all pending rows are due, with limits adding up to the remaining attempts, leave no row pending, whatever the sink does. |
| `Dispatch.TurnIsClaimEmitFinish` | `src/adaptive_llm/events/outbox.py:124-171` | One turn of the dispatch loop is a claim, an emission and a finish of the interleaved system. |
| `Dispatch.Dispatcher.DispatchOnce` | `src/adaptive_llm/events/outbox.py:121-174` | The loop makes as many turns as it reports and stops early only when no row is due. |
| `DispatchOrder.OneClaimPerInteraction` | `src/adaptive_llm/storage/postgres_stores.py:39-68` | While no row of an interaction is redelivered at most one row of it is claimed at a time. |
| `DispatchOrder.EmissionsNeverGoBack` | `src/adaptive_llm/events/outbox.py:121-174` | In every run in which rows of an interaction are redelivered only while nothing later of it was emitted or is about to be, its emissions never go back to a lower sequence, whatever happens to others. |
| `DispatchOrder.RunIsInOrder` | `src/adaptive_llm/events/outbox.py:93-174` | What a run keeps in which an interaction is not redelivered, from the start or any such state: sound tables and holds, its emissions in order, its claims with no earlier row waiting, and every tried row in the log of emissions. |
| `DispatchOrder.RedeliveryKeepsOrderIff` | `src/adaptive_llm/storage/outbox.py:123-133` | Redelivering a dead row leaves the emissions of its interaction in order in every continuation that does not redeliver it again exactly when no later row of it was emitted or is about to be; unreadable rows never are. |
| `DispatchOrder.SafeRedeliveryKeepsInOrder` | `src/adaptive_llm/storage/outbox.py:123-133` | After a safe redelivery, with readable rows claimed, every interaction that was in order still is, so the same condition decides the next redelivery. |
| `DispatchOrder.VisibleGuardIsExact` | `src/adaptive_llm/storage/outbox.py:123-133` | While the interaction has not been redelivered and no dispatcher holding a row of it has crashed, the table and its row locks decide that exactly: a redelivery is safe unless a later row of the interaction was tried or is claimed. |
| `DispatchOrder.LaterSeenIsUnsafe` | `src/adaptive_llm/storage/outbox.py:123-133` | A later row of the interaction that was tried or is claimed makes the redelivery unsafe. |
| `DispatchOrder.LastListedSuffices` | `src/adaptive_llm/storage/outbox.py:123-133` | In every run, crashes included, redelivering only rows with no later readable row of their interaction in the table keeps its emissions in order. |
| `DispatchOrder.CrashHidesEmission` | `src/adaptive_llm/events/outbox.py:132-171` | A crash after an emission leaves the table and the locks as a crash before it does, yet after the former the redelivery is unsafe and after the latter it can be safe. |
| `DispatchOrder.NoGuardIsExact` | `src/adaptive_llm/storage/outbox.py:123-133` | Every guard that reads the table and its locks is wrong about the safety of a redelivery in some reachable state. |
| `DispatchOrder.RedeliveryHidesEmission` | `src/adaptive_llm/storage/outbox.py:123-133` | A concrete run without any crash in which a redelivery that is safe hides the emission of its row, so that another one then looks safe and is not. |
| `DispatchOrder.RedeliveryBreaksOrder` | `src/adaptive_llm/storage/outbox.py:123-133` | A concrete run in which a redelivered row is emitted after a later row of its interaction. |
| `Lifecycle.BeyondMeansApproved` | `src/adaptive_llm/registry/state.py:6-22` | In a contiguous history of allowed edges whoever was approved or beyond has an approval on record. |
| `Lifecycle.RevocationIsLast` | `src/adaptive_llm/registry/state.py:6-22` | Nothing follows a revocation in a history. |
| `Lifecycle.AllowedIsTheLadder` | `src/adaptive_llm/registry/state.py:6-22` | The allowed edges are one rung up the ladder from candidate to deprecated, and to revoked from everywhere else. |
| `Lifecycle.ApprovalIffOnRecord` | `src/adaptive_llm/registry/sqlite.py:296-305` | An approval is found exactly when the history has one. |
| `Registry.ModelRegistry.Promote` | `src/adaptive_llm/registry/sqlite.py:445-486` | Promotion, with its repeat, conflict and error cases, as one transaction: an error leaves both tables as they were and the registry stays sound. |
| `Registry.ModelRegistry.Rollback` | `src/adaptive_llm/registry/sqlite.py:488-526` | Rollback as one transaction, with its error cases; the registry stays sound. |
| `Registry.ModelRegistry.Register` | `src/adaptive_llm/registry/sqlite.py:244-266` | A completed training registers a new candidate, or nothing when the version exists. |
| `Registry.EveryRunIsSound` | `src/adaptive_llm/registry/sqlite.py:392-526` | In every reachable registry each history is a chain of allowed edges ending in the stored state, and pointers and production states agree. |
| `Registry.OneProductionPerDeployment` | `src/adaptive_llm/registry/sqlite.py:459-486` | Each deployment has at most one production model, and it is the pointer’s current version. |
| `Registry.ApprovalIsOnRecord` | `src/adaptive_llm/registry/sqlite.py:296-305` | Every model that ever was approved or beyond has a recorded approval. |
| `Registry.HistoriesOnlyGrow` | `src/adaptive_llm/registry/sqlite.py:421-443` | A step leaves a model as it is or appends one linked transition to its history. |
| `Registry.RevokedIsTerminal` | `src/adaptive_llm/registry/state.py:6-22` | A revoked model never changes in any run. |
| `Registry.PromotionsAreGated` | `src/adaptive_llm/registry/sqlite.py:401-418` | A promotion that moves its model had an operator allowed to see its tenants, an actor, a reason, and the gate of its target state. |
| `Registry.PromotionSucceedsIff` | `src/adaptive_llm/registry/sqlite.py:445-486` | A promotion succeeds exactly when it repeats the last transition, or its edge, note, evaluation, progression and artifact are in order for an operator who may see the model, and for production the current version is in production with the same tenants. |
| `Registry.PromotionRecords` | `src/adaptive_llm/registry/sqlite.py:421-486` | A promotion that is no repeat moves and records its model and, on the way to production, deprecates the current version and remembers it; nothing else changes. |
| `Registry.RollbackSucceedsIff` | `src/adaptive_llm/registry/sqlite.py:488-526` | A rollback succeeds exactly when its operator may see both versions and signs, the current one is in production, and the previous one is deprecated, was approved, and has an intact artifact. |
| `Registry.RollbackRecords` | `src/adaptive_llm/registry/sqlite.py:488-526` | It swaps the two versions and records both moves, the restored one under the evaluation of its last approval; nothing else changes. |
| `Registry.HiddenLooksMissing` | `src/adaptive_llm/registry/sqlite.py:52-64` | A model of tenants the operator may not see is refused as one that does not exist. |
| `Registry.TwoRollbacksRestore` | `src/adaptive_llm/registry/sqlite.py:488-526` | Two successful rollbacks restore every pointer and every model state. |
| `Registry.RollbackCanBeUndone` | `src/adaptive_llm/registry/sqlite.py:488-526` | After a rollback the next one is never refused for a missing version, a wrong state or a missing approval. |
| `Registry.StrandsIff` | `src/adaptive_llm/registry/sqlite.py:445-486` | A call makes a serving deployment stranded exactly when it is a successful promotion of its current version to deprecated or revoked. |
| `Registry.StrandedIffRetired` | `src/adaptive_llm/registry/sqlite.py:445-526` | In any run, a deployment is stranded exactly when some earlier call was such a promotion of its then current version. |
| `Registry.StrandedIffNothingServes` | `src/adaptive_llm/registry/sqlite.py:459-486` | A deployment is stranded exactly when no model of it is in production. |
| `Registry.StrandedForever` | `src/adaptive_llm/registry/sqlite.py:459-508` | Once stranded, in every later state the deployment has no production model, promotions of its models to production fail, with a conflict if nothing else refuses, and rollbacks fail, as unavailable if nothing else refuses. |
| `Registry.RiseStrands` | `src/adaptive_llm/registry/sqlite.py:445-486` | A concrete run from the empty registry in which one model climbs to production and its deprecation strands the deployment. |
| `TrainingJobs.JobStore.SaveJob` | `src/adaptive_llm/registry/sqlite.py:91-129` | A save leaves a cancelled job alone, keeps a requested cancellation, and records an ending once. |
| `TrainingJobs.JobStore.Enqueue` | `src/adaptive_llm/registry/sqlite.py:131-160` | Enqueueing creates a job, returns an existing one, puts a failed one back to queued, or reports a mismatch. |
| `TrainingJobs.JobStore.CancelJob` | `src/adaptive_llm/registry/sqlite.py:192-206` | Cancelling cancels a queued job, requests cancellation of a running one, and leaves an ended one alone. |
| `TrainingJobs.JobStore.Complete` | `src/adaptive_llm/registry/sqlite.py:244-288` | Completion publishes the model and the job together, or neither when a cancellation was requested or the version exists. |
| `TrainingJobs.EndingsAreRecorded` | `src/adaptive_llm/training/service.py:251-256` | A worker that sees the request records the cancellation, one that has to stop puts its job back in the queue with its checkpoints, one whose version exists or that breaks down records the failure. |
| `TrainingJobs.StartsAreRecorded` | `src/adaptive_llm/training/service.py:126-145` | A run starts over without the failure of an earlier one, and a queued or running job that fails before it runs is recorded as not eligible. |
| `TrainingJobs.CheckpointsAccumulate` | `src/adaptive_llm/training/service.py:241-249` | A checkpoint is added to those of the job, once, and nothing else of the job changes. |
| `TrainingJobs.StepKeepsSound` | `src/adaptive_llm/training/service.py:204-416` | No interleaving of workers, submissions and cancellations withdraws a request, changes a cancelled job, or lets a job with a request succeed. |
| `TrainingJobs.CancellationHolds` | `src/adaptive_llm/registry/sqlite.py:91-206` | Once a cancellation is requested the job never succeeds, no model is published for it any more, and once cancelled it never changes. |
| `TrainingJobs.OneCancellationEvent` | `src/adaptive_llm/registry/sqlite.py:106-129` | A cancelled job has exactly one cancellation event, every other job none. |
| `TrainingJobs.SaveOverwritesSuccess` | `src/adaptive_llm/registry/sqlite.py:91-107` | Whatever a worker on a succeeded job writes next overwrites the success: nothing in the transaction protects it. |
| `TrainingJobs.SuccessIsFinalIff` | `src/adaptive_llm/training/service.py:113-146` | A success stays in every continuation, however interleaved, exactly when no worker is on the job. |
| `TrainingJobs.StaleWorkerHidesSuccess` | `src/adaptive_llm/registry/sqlite.py:91-107` | A concrete run with neither claim nor lock in which a stale worker turns a published, succeeded job back to running. |
| `TrainingJobs.HandlerHidesSuccess` | `src/adaptive_llm/training/service.py:126-145` | A concrete run under the per-job file lock in which the failure handler of a second worker, which does not take the lock, turns a published, succeeded job into a failed one. |
| `TrainingJobs.SuccessIsFinalUnderClaim` | `src/adaptive_llm/registry/sqlite.py:162-174` | When whoever turns to a job, to run it or to record its failure, is the only worker on it, as under the worker claim, every success is final. |
| `References.ClearedIsRefFree` | `src/adaptive_llm/storage/sqlite.py:220-226` | Clearing leaves no non-null reference at any depth. |
| `References.ClearFixesRefFree` | `src/adaptive_llm/storage/sqlite.py:220-226` | Clearing changes a value exactly when it holds a non-null reference. |
| `References.ClearTwice` | `src/adaptive_llm/storage/sqlite.py:220-226` | Clearing again changes nothing. |
| `References.EndsInRef` | `src/adaptive_llm/storage/sqlite.py:220-226` | A reference field is one whose name ends in `_ref`. |
| `References.ClearingSparesTheRest` | `src/adaptive_llm/storage/sqlite.py:220-226` | Any path that crosses no reference field reaches the same kind of value after clearing, with the same text, length or field names, or nothing as before. |
| `Eviction.KeepsTheGreatest` | `src/adaptive_llm/storage/sqlite.py:299-308` | The entries kept are as many as fit and outrank every evicted one by reservation instant, application and request. |
| `Eviction.EvictedAreOlder` | `src/adaptive_llm/storage/sqlite.py:299-308` | Nothing evicted was reserved after anything kept; between equal instants the greater application stays, and then the greater request. |
| `Eviction.KeptIsTheOnlyChoice` | `src/adaptive_llm/storage/sqlite.py:299-308` | No other choice of as many entries outranks the rest. |
| `Privacy.PutReplayKeepsTheGreatest` | `src/adaptive_llm/storage/sqlite.py:282-313` | After put_replay the tenant keeps exactly its `capacity` greatest entries among the new one and its others. |
| `Privacy.PutReplayEvictsTheOldest` | `src/adaptive_llm/storage/sqlite.py:299-308` | An entry that put_replay evicts was reserved no later than any it keeps; between equal instants the lesser application goes, and then the lesser request. |
| `Privacy.PutReplayStaysWithinCapacity` | `src/adaptive_llm/storage/sqlite.py:282-313` | After put_replay the tenant has at most `capacity` entries. |
| `Privacy.EvictionDropsTheirPayloads` | `src/adaptive_llm/storage/sqlite.py:309-313` | Evicted entries lose their payload, and no other payload is touched. |
| `Privacy.PutReplayKeepsOthers` | `src/adaptive_llm/storage/sqlite.py:282-313` | Inserting and evicting leaves interactions, records and every other tenant’s entries as they were. |
| `Privacy.RetiringForgets` | `src/adaptive_llm/storage/sqlite.py:216-246` | After clearing, the interaction owns no payload, no replay entry and no reference, whatever it held. |
| `Privacy.RetiringSparesOthers` | `src/adaptive_llm/storage/sqlite.py:216-246` | Clearing leaves every other interaction, and all it owns, as it was. |
| `Privacy.StepKeepsSound` | `src/adaptive_llm/storage/persistence.py:200-448` | Every operation keeps: inactive interactions own nothing, records have the state of their interaction, tombstones match deleted interactions, tombstoned subjects have no other, entries refer to payloads of their own interaction, deletions are announced. |
| `Privacy.ForgottenForever` | `src/adaptive_llm/storage/persistence.py:375-448` | From the moment an interaction is expired or deleted it owns nothing, is never active again and its data never changes, in any run, and every save, shadow save or feedback for it is refused or does nothing. |
| `Privacy.SubjectGoneForever` | `src/adaptive_llm/storage/persistence.py:407-448` | After a subject deletion, at any later time of any run, every interaction of the subject is deleted and forgotten and a new one of the subject is refused. |
| `Privacy.DeletingAgainChangesNothing` | `src/adaptive_llm/storage/persistence.py:375-405` | In every sound database, deleting a tombstoned interaction again, with whatever new request id, changes no stored record and adds no event. |
| `Privacy.DeletionIsForever` | `src/adaptive_llm/storage/persistence.py:375-405` | A deletion that succeeded changes nothing at all when repeated at any later time of any run. |
| `Privacy.DeletingSubjectAgainChangesNothing` | `src/adaptive_llm/storage/persistence.py:407-448` | In every sound database, deleting a tombstoned subject again changes nothing at all. |
| `Privacy.SubjectDeletionIsForever` | `src/adaptive_llm/storage/persistence.py:407-448` | A subject deletion changes nothing when repeated at any later time of any run. |
| `Privacy.SaveStoresTheGraph` | `src/adaptive_llm/storage/persistence.py:278-294` | A saved graph is stored: its row, its records and its blobs, and its replay entry with the response blob exactly if the entry is among the greatest that fit. |
| `Privacy.SaveSucceedsIff` | `src/adaptive_llm/storage/persistence.py:278-294` | A graph is saved exactly when neither its interaction nor its subject was deleted, none of its rows is there, and the replay capacity, if needed, is positive. |
| `Privacy.FeedbackSucceedsIff` | `src/adaptive_llm/gateway/feedback.py:62-83` | Feedback is stored exactly on an active interaction that is neither due nor tombstoned, of a subject that was not deleted, when its row is new; then it and its blob are stored and nothing else changes. |
| `Privacy.ShadowSucceedsIff` | `src/adaptive_llm/storage/persistence.py:328-362` | A shadow run is stored exactly on an active interaction without a tombstone, when its row is new; without an active interaction nothing is written. |
| `Privacy.DeletionIsPosted` | `src/adaptive_llm/storage/persistence.py:375-398` | Deleting an interaction that is there succeeds under the standing or the proposed request, and the outbox gains the mandatory event of that request unless it has it. |
| `Privacy.SubjectDeletionIsPosted` | `src/adaptive_llm/storage/persistence.py:407-440` | A subject deletion buries and announces each interaction of the subject that was not deleted yet, under its standing or a proposed request, and then the subject. |
| `Privacy.TenantsAreIsolated` | `src/adaptive_llm/storage/sqlite.py:126-365` | No operation on one tenant touches a row of another. |
| `TenantDatabase.Store.ClearRefs` | `src/adaptive_llm/storage/sqlite.py:216-246` | The row-by-row walk clears exactly the interaction’s rows and removes its replay entries. |
| `TenantDatabase.Store.SweepExpired` | `src/adaptive_llm/storage/retention.py:10-24` | The sweep turns expired exactly the tenant’s active interactions whose expiry is reached, clears them and their records, drops their payloads and entries and the other due entries with their responses, changes nothing else, and counts the interactions that changed state. |
| `TenantDatabase.Store.DeleteReplay` | `src/adaptive_llm/storage/sqlite.py:339-356` | Deleting a replay entry removes its payload with it, and nothing when there is no entry. |
| `TenantDatabase.Store.SaveGraph` | `src/adaptive_llm/storage/persistence.py:278-294` | Saving is one transaction with the stated guards in order: an error leaves every table as it was. |
| `TenantDatabase.Store.DeleteInteraction` | `src/adaptive_llm/storage/persistence.py:375-405` | Deletion buries the interaction under the standing or new request, clears it and announces it. |
| `TenantDatabase.Store.DeleteSubjectRows` | `src/adaptive_llm/storage/persistence.py:407-448` | The two loops of a subject deletion announce, bury and clear all of the subject’s interactions in one transaction. |
| `Serving.Reservations.Take` | `src/adaptive_llm/gateway/service.py:105-113` | A reservation is refused as a conflict, as in progress or for capacity, and otherwise taken. |
| `Serving.ArrivalDecides` | `src/adaptive_llm/gateway/service.py:105-113` | An arrival is refused as a conflict beside a live request of its key that differs, as in progress beside one that does not, for capacity when as many requests are live, and else admitted. |
| `Serving.AnswersAreJustified` | `src/adaptive_llm/gateway/service.py:90-144` | In every run each answer rests on what is there when it is given: a replayed response is that of an unexpired entry of the same key and fingerprint, a refusal that of a live request or a stored entry. |
| `Serving.EndedRequestsAreAnswered` | `src/adaptive_llm/gateway/service.py:90-136` | A request that ends is answered, as failed when it was abandoned or cancelled, or returns its own saved response. |
| `Serving.InFlightWithinCapacity` | `src/adaptive_llm/gateway/service.py:105-136` | Live requests hold exactly the reserved keys, one to a key, and never more than the capacity. |
| `Serving.StepKeepsCoveredIff` | `src/adaptive_llm/gateway/service.py:398-418` | Every running save keeps its reservation exactly until a save is cancelled a second time. |
| `Serving.ExecutionsNeverOverlap` | `src/adaptive_llm/gateway/service.py:90-136` | Two executions of one key never overlap in any run in which no save is cancelled twice. |
| `Serving.OverlapFreeIff` | `src/adaptive_llm/gateway/service.py:398-418` | From any state in which every running save still has its request, a step leaves overlaps impossible in every continuation without a further second cancellation exactly unless it is itself the second cancellation of a save. |
| `Serving.OverlapFreeIffCovered` | `src/adaptive_llm/gateway/service.py:90-136` | In every reachable state, whatever was cancelled before, overlaps are impossible in every such continuation exactly when every running save still has its request. |
| `Serving.TwoCancellationsOverlap` | `src/adaptive_llm/gateway/service.py:412-418` | A concrete run in which a save cancelled twice still runs while a retry executes the same key. |
| `Serving.CommittedEntryAnswers` | `src/adaptive_llm/gateway/service.py:138-144` | After a save commits, until its entry expires or is removed, nobody executes the key and every lookup of it answers from the store: another fingerprint gets a conflict, the same one finds the entry and then reads the stored response. |
| `KeyRotation.LowestIsBatch` | `src/adaptive_llm/storage/operations.py:33-38` | A batch is ordered, and what it leaves out lies above its last row. |
| `KeyRotation.Transaction` | `src/adaptive_llm/storage/operations.py:30-59` | One transaction rewrites exactly the rows of its batch, at most the batch size of them, and adds or removes no row. |
| `KeyRotation.RewritingKeepsFaithful` | `src/adaptive_llm/storage/operations.py:41-58` | Rewriting preserves plaintext, expiry and binding, and touches no payload twice. |
| `KeyRotation.SparedRowSurvives` | `src/adaptive_llm/storage/operations.py:29-60` | A row that the other connections spare is in every later table with its plaintext, binding and expiry. |
| `KeyRotation.InsertedRowSurvives` | `src/adaptive_llm/storage/operations.py:29-60` | So is a row they insert during the rotation and then spare. |
| `KeyRotation.Rotate` | `src/adaptive_llm/storage/operations.py:19-60` | Interleaved with current-key inserts and deletions, rotation terminates after a history of rounds that each rewrite the next batch of the table found and lose no row; it returns the exact number of rows rewritten, keeps every spared row and its content, leaves under an old key only what had expired, and rewrote every old row that was neither removed nor expired; a batch size below one is an error. |
| `KeyRotation.RotationAchieves` | `src/adaptive_llm/storage/operations.py:25-60` | Whatever is left under an old key had expired, every old row that was neither removed nor expired was rewritten, and each transaction rewrites only unexpired rows under an old key and leaves every other row alone. |
| `Breakers.OneProbePerHalfOpen` | `src/adaptive_llm/routing/breakers.py:50-61` | In any sequence of calls at most one acquire succeeds per half-open period, and probing implies half-open. |
| `Breakers.OpenHoldsForTheCooldown` | `src/adaptive_llm/routing/breakers.py:50-68` | While open, until the cooldown has passed, no call changes the window and no acquire succeeds. |
| `Breakers.DequeIsTheWindow` | `src/adaptive_llm/routing/breakers.py:90-93` | At nondecreasing instants the deque is the last 1000 records of the period filtered by the window of its newest. |
| `Breakers.OpeningNeedsFreshSamples` | `src/adaptive_llm/routing/breakers.py:90-102` | A closed window opens only on a record, with at least the minimum number of samples of its own period, none older than the window. |
| `Breakers.ClosedOpensIff` | `src/adaptive_llm/routing/breakers.py:90-102` | In any run a record on a closed window opens it exactly when the last 1000 samples of its period within the window reach the minimum number and a rate, or their 95th percentile latency exceeds its bound. |
| `Breakers.CooldownAdmitsOneProbe` | `src/adaptive_llm/routing/breakers.py:50-68` | After the cooldown one acquire is granted, as a probe, and no other until the probe is recorded. |
| `Breakers.ProbeDecides` | `src/adaptive_llm/routing/breakers.py:70-89` | A bad probe opens the window for another cooldown, in which nothing is granted; a good one closes it with no sample kept. |
| `Breakers.Push` | `src/adaptive_llm/routing/breakers.py:91-93` | The popping loop keeps what the window keeps. |
| `Breakers.CircuitBreakers.IsAvailable` | `src/adaptive_llm/routing/breakers.py:41-48` | Availability advances the deployment’s window alone and reports whether an acquire would be granted. |
| `Breakers.CircuitBreakers.TryAcquire` | `src/adaptive_llm/routing/breakers.py:50-61` | An acquire changes the deployment’s window alone and is refused without one. |
| `Breakers.CircuitBreakers.RecordOutcome` | `src/adaptive_llm/routing/breakers.py:70-102` | A record changes the deployment’s window alone, as its state says. |
| `Breakers.AtMostSixtyFour` | `src/adaptive_llm/routing/breakers.py:33-39` | At most 64 deployments have a window, and none loses it. |
| `FallbackChain.Estimate` | `src/adaptive_llm/routing/__init__.py:28-33` | The estimate is the exact cost rounded up to whole micros. |
| `FallbackChain.EstimateIsMonotone` | `src/adaptive_llm/routing/__init__.py:28-33` | Fewer tokens never cost more. |
| `FallbackChain.RunChain` | `src/adaptive_llm/routing/chain.py:121-217` | The loop, on the breakers object and with other callers acting on it meanwhile, considers the candidates in plan order until it serves, gives up or is cancelled. |
| `FallbackChain.EveryChainIsSound` | `src/adaptive_llm/routing/chain.py:134-217` | Attempts are of distinct deployments in plan order and numbered, at most max_attempts, another attempt follows only a configured hard-fallback reason, and the chain gives up only out of attempts or for a reason that is not one. |
| `FallbackChain.AcquiresAreRecorded` | `src/adaptive_llm/routing/chain.py:153-194` | Whatever others do to the breakers meanwhile, each acquire the windows grant to the chain is followed by exactly one record, that of its attempt, and the chain records nothing else. |
| `FallbackChain.ChainLeavesNoProbe` | `src/adaptive_llm/routing/chain.py:153-194` | However the chain ends, cancellation included, no window is left probing for it: one that is probing was so before or is probed by somebody else. |
| `FallbackChain.AttemptsWereAdmitted` | `src/adaptive_llm/routing/chain.py:89-118` | Nothing is attempted against policy, context, price or specialist limits, or near the deadline. |
| `FallbackChain.SkippedIff` | `src/adaptive_llm/routing/chain.py:89-150` | A candidate is skipped before the breaker is asked exactly when it may not be attempted, what was spent included, or the deadline is near, and the deadline hides no other reason. |
| `FallbackChain.TurnSkips` | `src/adaptive_llm/routing/chain.py:139-160` | A skip for the deadline estimated here makes the status 504, and no skip ends the chain but one for the deadline that the policy does not forgive; out of attempts the chain gives up. |
| `FallbackChain.TurnAttempts` | `src/adaptive_llm/routing/chain.py:161-216` | An attempt is of a fit candidate away from the deadline; its failure gives the status and the reason, and the chain goes on exactly when the policy forgives the reason. |
| `FallbackChain.FailureIsClassified` | `src/adaptive_llm/routing/chain.py:172-213` | What the provider did decides the code, the status, the reason for going on and what the breaker is told. |
| `FallbackChain.ServedAnswersAreValid` | `src/adaptive_llm/routing/chain.py:134-217` | A chain serves exactly when the provider it tried last finished a valid answer in time, is cancelled exactly when that one was, and none tried before did either. |
| `FallbackChain.CostIsOfTheTokens` | `src/adaptive_llm/routing/chain.py:258-268` | An attempt costs what the tokens of its answer cost, rounded up, and nothing without an answer. |
| `FallbackChain.CostIsBounded` | `src/adaptive_llm/routing/chain.py:102-108` | The total cost stays within max_cost_micros when reported usage stays within the admitted tokens. |
| `Statistics.PercentileIsMonotone` | `src/adaptive_llm/evaluation/stats.py:19-26` | The percentile grows with the probability. |
| `Statistics.PercentileInterpolates` | `src/adaptive_llm/evaluation/stats.py:19-26` | In any ordered rearrangement of n values the percentile is the value at rank (n - 1) times the probability, on the straight line between the two neighbours of the rank. |
| `Statistics.PercentileOfNegated` | `src/adaptive_llm/evaluation/stats.py:19-26` | The p-th percentile of negated values is the negated (1-p)-th percentile. |
| `Statistics.PercentileIsWithin` | `src/adaptive_llm/evaluation/stats.py:19-26` | A percentile lies between any bounds on the values. |
| `Statistics.IntervalIsWithinTheDeltas` | `src/adaptive_llm/evaluation/stats.py:29-54` | For every resampling outcome the bounds are ordered and lie between the least and greatest delta. |
| `Statistics.BootstrapIsPaired` | `src/adaptive_llm/evaluation/stats.py:29-54` | The mean and every resampled mean are differences of the two sides’ means under the same draw, and the interval leaves (1 - confidence) / 2 of the resampled means out on either side. |
| `Statistics.MeanJoins` | `src/adaptive_llm/evaluation/stats.py:46-50` | The mean of one value is the value, and the means of two samples join weighted by their sizes. |
| `Statistics.SwappingMirrorsTheInterval` | `src/adaptive_llm/evaluation/stats.py:29-54` | Swapping candidate and baseline under the same draws negates the mean and negates and exchanges the bounds. |
| `Calibration.ComputeEce` | `src/adaptive_llm/routing/model.py:57-73` | The loop over ten bins returns the sum of the weighted gaps, or an error for empty or unpaired samples. |
| `Calibration.BinsPartition` | `src/adaptive_llm/routing/model.py:61-66` | Every sample with a probability in [0, 1] is in exactly one of the ten bins. |
| `Calibration.EceIsTheGaps` | `src/adaptive_llm/routing/model.py:57-73` | The error is the sum over the ten tenths of the unit interval of how far their probabilities exceed their labels in all, without signs, per sample. |
| `Calibration.EceIsBounded` | `src/adaptive_llm/routing/model.py:57-73` | The error is at least the gap between the overall means and at most one. |
| `Calibration.ConfidenceIsInUnit` | `src/adaptive_llm/routing/model.py:177-187` | The trained confidence is always in [0, 1]. |
| `Calibration.ConfidenceGrows` | `src/adaptive_llm/routing/model.py:183` | More observations never lower the confidence and a greater error never raises it; it is one exactly for no error on four or more observations. |
| `Selections.BlockOfPicked` | `src/adaptive_llm/research/tensors.py:201-202` | Slicing by the spread of head indices puts the rows of the j-th retained head at compact head j. |
| `Selections.CompactSumIsMasked` | `src/adaptive_llm/research/tensors.py:182-190` | Summing over what is retained is summing over everything with the removed terms zeroed. |
| `PruneExport.KeepCounts` | `src/adaptive_llm/research/tensors.py:182-190` | How many indices are kept depends only on the count, so every layer keeps as many heads and channels. |
| `PruneExport.GoneIsLeastSensitive` | `src/adaptive_llm/research/tensors.py:182-190` | Every removed index stands before every retained one in the ranking, and as many are removed as the fraction allows with one left: none of a structure that is not listed. |
| `Pruning.CompactHead` | `src/adaptive_llm/research/tensors.py:200-220` | Compact head j has the query block of retained head j and the key and value blocks of its group, also when grouped heads are expanded. |
| `Pruning.CompactAttentionAt` | `src/adaptive_llm/research/tensors.py:208-220` | The compact output projection sums what the original sums with removed heads zeroed. |
| `Pruning.CompactComputesMasked` | `src/adaptive_llm/research/tensors.py:199-225` | A loadable compact layer computes, on every input, the original layer with removed heads and channels zeroed. |
| `Pruning.CompactFitsIff` | `src/adaptive_llm/research/tensors.py:221-234` | A compact layer has the sizes of the written config exactly when it has no MLP gate or up bias or lost no channel: those biases are not sliced. |
| `PruneExport.Prune` | `src/adaptive_llm/research/tensors.py:169-244` | Retained layers are renumbered in order under one config, with the removed indices reported; of every listed structure the least sensitive units are removed, as many as the fraction allows; an unknown rule and an empty removal are errors. |
| `PruneExport.ExportComputesTheMaskedOriginal` | `src/adaptive_llm/research/tensors.py:169-244` | For any rankings, when no retained layer combines an MLP bias with removed channels, the export computes the original network with removed heads and channels zeroed and removed layers skipped. |
| `PruneExport.ExportLoadsIff` | `src/adaptive_llm/research/tensors.py:221-234` | The export fits its single config exactly when no retained layer combines an MLP bias with removed channels. |
| `PruneExport.BiasedExportDoesNotLoad` | `src/adaptive_llm/research/tensors.py:169-244` | A base that the geometry check admits, with a gate bias, for which prune succeeds and the export does not fit its config. |

## Left out

- Interaction ids, application ids, request ids and payload references that are only compared are
  integers; instants are integers or reals, and clocks are inputs.
- Floating-point rounding: rates, thresholds, fractions and statistics are exact reals or ratios.
- The seeded shuffle is any rearrangement, the resampling any choice of indices, the nonce any
  function of the reference.
- Word splitting, Unicode normalisation and redaction: shingles start from a function that splits
  a text into words.
- Constructing an example, evaluation reports, benchmark and deployment gates, artifact and
  manifest signatures are oracles; the order in which they are asked is modelled.
- The router-training and distillation branches of `build`, the staging directory, manifests,
  encryption of shards and the `destination.exists` check.
- Record and blob contents of a saved graph are given; `_save` building them from a request is not
  part of this model.
- The `training_submitters` table and the order in which the worker claim offers jobs; that the
  claim lets one worker at a time turn to a job is assumed where it is named, and otherwise any
  worker may turn to any job at any time.
- `record_evaluation`, `dead_letters`, `stats`, metrics, tracing and events other than those of
  job endings and deletions.
- HTTP wiring, command lines, settings, the SQL engines, backup, restore and migrations.
- A provider, the deadline and what other callers do to the breakers are inputs of the fallback
  chain; validation is a result with the two facts the chain reads.
- One attention head is a function of its query, key and value blocks and the hidden state, one
  channel of its gate and up rows; residuals, norms and everything unsliced are two further
  functions.
- Breakers.CircuitBreakers.Find: windows are values in a map, so aliasing of `Window` objects is
  not captured, and the gauge a call publishes is left out.
- Registry.ModelRegistry.Register: evaluation reports and the deployment events of a transition
  are not recorded.
- KeyRotation.Rotate: one tenant's payload table; references other connections insert are never
  reused from the start of the rotation, as references are fresh identifiers.
- Serving.CommittedEntryAnswers: the payload of an entry is stored, expires and goes with it; that
  it is there while the entry is, is part of Privacy.StepKeepsSound.
