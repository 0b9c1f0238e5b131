# Ribosome's state core, verified

A Dafny model of the crash-tolerant store at the centre of Ribosome's Rust core
(`crates/ribosome-core`), with proofs of what holds in every reachable state and
over whole runs. Every store method is one short write transaction over a few
tables, so each component is a value of tables, a set of atomic steps on it, and a
class whose methods carry the steps out: `tx`, or a local copy, is a transaction's
working state, assigning the field commits it, and an early return or a crash
leaves the field as it was.

Five machines are modelled.

1. **Source lineage and withdrawal.** `Lineage` is the provenance graph and the
   capture worklist; `Sources` the authorization worklist; `SourceSteps` the atomic
   steps (insert, revise, retire, delete, export, batched cleanup); `Cleanup` proves
   that finished jobs have cleaned everything below their root and that advances
   finish; `Withdrawal` follows each observation's derivation in a ghost history and
   proves that withdrawing any part of it denies the observation; `SourceStore` is
   the store class.
2. **Effects and validity.** `Validity` is the dependency graph, the validity clock
   and invalidation; `Effects` the journal's steps, with volatile frames that a
   crash discards; `Journal` proves at most one adapter call, honest receipts, the
   write fence and exact invalidation counts; `Restoration` proves that only fresh
   checks restore validity; `EffectStore` is the store class.
3. **The budget ledger.** `Ledger` has the allocation forest, permits, runs, work
   and parking; `Forest` proves the forest well formed; `Spending` the spending
   bound, the allowance rule and one permit per call; `PlainBound` exactly when
   spending stays within the ceiling; `Silence` that a stopped run stays silent, also
   together with the effect journal.
4. **Leases and parking.** `Scheduling`, on the ledger's tables: no deadlock, at most
   three claims, no superseded completion. `LedgerStore` is the store class for both.
5. **Context.** `ContextLog` is the segment log, the tail scan and the chain of
   compaction summaries; `Windows` the UTF-8 byte windows of RFC 3629, sections 3
   and 4.

`Outcomes` and `Totals` are shared helpers. Identifiers, versions and clock readings
are natural numbers; the current time is a parameter of the steps that read it.

Some points where the code decides and the model follows it:

- The plain bound "spent is at most the ceiling" does not hold: settled usage may exceed
  its reservation (accounting.rs:186-187), and `OverrunHappens` is a run in which it
  does. `PlainExactly` gives the exact condition: the bound holds for an allocation all
  through a run if and only if each report that settled one of its permits was
  affordable, that is, the charges with the reservation replaced by the amount used
  were within the ceiling. `UsageMayOverrun` says for which permits a report that is not
  affordable can arrive. `SpendingBound` is the bound with the overrun term.
- `context_tail` can return a tail that starts at tool evidence (context.rs:69), because
  0 is returned without looking at the first item. `EvidenceStart` says exactly when:
  the first item is tool evidence, and either the whole log fits or every later item is
  tool evidence too. `EvidenceFirst` is such a log.
- A recovery that finds an announced write and a desired content lists that path
  twice (effects.rs:157-182); each entry of the list is invalidated once, which is
  how `RunCounts` counts.
- exports.rs:79-86 inserts edges without resetting cleanup items, unlike every other
  capture. `ExportKeeps` shows why this is sound.
- Two prepared operations that crash before dispatch can both end up unknown, so the
  fence bounds operations that announced live writes, as `RunFenced` says, and not
  all operations whose kind could write.

## Model

| member | source | states |
|---|---|---|
| `Lineage.CaptureAncestry` | crates/ribosome-core/src/sources.rs:37-88 | The capture worklist succeeds exactly when at most 1000 (record, access) pairs are reachable by expanding records that are not tombstoned, and then returns the declarative meet over all arrivals: the reached nodes, access if some path requires access on every edge, a version only where all arrivals agree; it ends on cyclic ancestry |
| `Lineage.MeetIgnoresOrder` | crates/ribosome-core/src/sources.rs:46-55 | Two worklists with the same references in any order, with any repetition, capture the same sources |
| `Lineage.ArrivalInduction` | crates/ribosome-core/src/sources.rs:46-88 | A property of the roots that every edge step keeps holds of every arrival: the reachability the capture and the authorization share is the least one |
| `Sources.RequireSources` | crates/ribosome-core/src/sources.rs:230-336 | Within the 1000-visit bound, authorization succeeds if and only if every (node, access) state reachable from the requested sources, access conjoined along edges, is individually acceptable; beyond the bound it refuses; it ends on shared and cyclic ancestry |
| `SourceStore.StoreCaptured` | crates/ribosome-core/src/sources.rs:89-98 | Recapturing replaces exactly the subject's edges by the captured sources, and resets cursor, payload mark and completion of every cleanup item on a captured source, reopening the jobs that own them |
| `SourceStore.CaptureMutableAncestry` | crates/ribosome-core/src/sources.rs:37-99 | Capture and replacement in one step: refused beyond the bound with nothing changed, otherwise the subject's edges are the meet over its references |
| `SourceStore.Store.Insert` | crates/ribosome-core/src/sources.rs:135-143 | A new observation or record is stored with its captured ancestry, or refused with the tables unchanged |
| `SourceStore.Store.Revise` | crates/ribosome-core/src/records.rs:20-199 | A record revision re-edges the record to its new references' ancestry, exactly at the expected version, for a readable record, with every reference checked below the new label, as an opaque evaluation or by the host; a refusal changes nothing |
| `SourceStore.Store.Retire` | crates/ribosome-core/src/sources.rs:144-152 | Retiring succeeds when it applies and the ancestry is captured or fits; it tombstones the record and opens its cleanup job; deleting after retiring raises the job's level and makes every item redo its payload; a refusal changes nothing |
| `SourceStore.ReadChildren` | crates/ribosome-core/src/source_cleanup.rs:67-69 | One page of derivatives: the rows after the cursor in row order, at most the remaining work, with the new cursor at the last of them |
| `SourceStore.CleanOnce` | crates/ribosome-core/src/source_cleanup.rs:34-79 | One cleanup transaction: handle one unfinished item within the remaining work, or close the job when none is left; a broken payload rolls it back |
| `SourceStore.Store.AdvanceCleanup` | crates/ribosome-core/src/source_cleanup.rs:31-82 | An advance is a batch of such transactions spending at most 100 node and edge operations in total; it ends with the job complete or the operations spent, and an item that fails keeps what was committed before it |
| `SourceStore.Store.CleanupJob` | crates/ribosome-core/src/source_cleanup.rs:15-29 | One advance of a selected job: a failed item marks the job failed; otherwise the job is complete or strictly less work is left than before |
| `Cleanup.CleanupComplete` | crates/ribosome-core/src/source_cleanup.rs:31-82 | Over every run of insertions, revisions, retirements, deletions, exports, failed items and interrupted batches: a job whose status is complete has cleaned, at the job's delete level, every in-scope node derived from its root through in-scope nodes |
| `Cleanup.CompleteMeansClean` | crates/ribosome-core/src/source_cleanup.rs:76-78 | The same for one state: completeness of a job's items carries the whole in-scope derivation down from the root |
| `Cleanup.RunKeeps` | crates/ribosome-core/src/sources.rs:93-97 | Every step of every run keeps the cleanup invariant: cursors never skip an edge, finished items have their payload gone and their children queued, late edges reset what they reach |
| `Cleanup.RecaptureKeeps` | crates/ribosome-core/src/sources.rs:93-97 | Edges inserted while jobs are in flight keep the invariant because the captured sources' items start again |
| `Cleanup.WithdrawnKeeps` | crates/ribosome-core/src/sources.rs:144-152 | A retirement, or a deletion upgrading one, keeps the invariant at the job's new level |
| `Cleanup.ExportKeeps` | crates/ribosome-core/src/exports.rs:20-168 | Export edges are inserted without resetting cleanup items and still keep the invariant, because an authorized source is never below a tombstone |
| `Cleanup.AuthorizedNotDoomed` | crates/ribosome-core/src/sources.rs:230-336 | Nothing an authorization reaches descends from a tombstone |
| `Cleanup.AdvancesFinish` | crates/ribosome-core/src/source_cleanup.rs:31-82 | With no new edges, a sequence of advances each of which leaves work is no longer than the nodes and edges left to process: finitely many advances finish |
| `Cleanup.AdvanceProgress` | crates/ribosome-core/src/source_cleanup.rs:32-34 | Along one batch the work left never grows, and shrinks unless the job is complete |
| `Withdrawal.WithdrawalReaches` | crates/ribosome-core/src/sources.rs:230-336 | If any node of an observation's derivation history, fixed when it was captured, is tombstoned in a later state, no authorization of a list containing that observation succeeds, however the records in between were revised |
| `Withdrawal.ObservationFixed` | crates/ribosome-core/src/sources.rs:56-88 | An event's or snapshot's derivation history never changes after its capture |
| `Withdrawal.HistoryFaithful` | crates/ribosome-core/src/sources.rs:56-98 | In every reachable state each node of a history is still pinned: a path of edges or a tombstone leads from the observation to it |
| `Withdrawal.HistoryCoversReferences` | crates/ribosome-core/src/sources.rs:15-33 | A capture's history contains each direct reference and that reference's own history at that time |
| `Validity.AddDependency` | crates/ribosome-core/src/evidence.rs:291-304 | A dependency is stored exactly when, its own row aside, the scope holds fewer than 1000 edges and the bytes fit 256 KiB; the edge bound is kept |
| `Validity.DependKeepsBounded` | crates/ribosome-core/src/evidence.rs:295-302 | Re-declaring or adding a dependency keeps every scope at no more than 1000 edges |
| `Validity.DependentsOf` | crates/ribosome-core/src/evidence.rs:326-331 | The recursive query returns precisely the paths reachable in one or more dependency steps and ends on cycles |
| `Validity.AffectedLeast` | crates/ribosome-core/src/evidence.rs:326 | The affected paths are the least set that holds the direct dependents of the path and is closed under dependency |
| `Validity.AffectedSmall` | crates/ribosome-core/src/evidence.rs:326 | A scope never has more affected paths than dependency edges |
| `Validity.NeverTruncated` | crates/ribosome-core/src/evidence.rs:296-326 | Under the edge bound the query's limit of 1000 rows never drops an affected path |
| `Validity.InvalidateDependents` | crates/ribosome-core/src/evidence.rs:317-339 | One tick of the scope's clock; the returned paths, and only those, are stamped and opened at the new generation, and under the edge bound they are all affected paths |
| `Validity.InvalidateArtifactAndDependents` | crates/ribosome-core/src/evidence.rs:353-371 | The same in one step for a path and everything that depends on it |
| `EffectStore.Store.Intend` | crates/ribosome-core/src/effects.rs:210-304 | A new operation gets a durable prepared row before anything else; a known one is not redone, and a reused id with another grant or action is refused |
| `EffectStore.Store.StartDispatch` | crates/ribosome-core/src/effect_finalization.rs:66-115 | The phase moves to dispatching exactly when the run is active and ready, the row is prepared and, for live writes, no other row may still write the workspace; the clock is read in the same step |
| `EffectStore.FindHolder` | crates/ribosome-core/src/effect_finalization.rs:94-106 | The fence query finds another row that is dispatching, observed or unknown and unsettled and that announced writes or is an application or a live edit or execution, if and only if one exists |
| `EffectStore.Store.CaptureEffect` | crates/ribosome-core/src/effect_finalization.rs:117-126 | An outcome is captured once, from a prepared or dispatching row only |
| `EffectStore.Store.Execute` | crates/ribosome-core/src/effects.rs:210-342 | Executing a known operation never calls its adapter; a new one calls it exactly once if the guards admit it and otherwise not at all, an application only behind acceptance checks that were all established and passed as planned; the receipt returned is finalized and honest about that |
| `EffectStore.ExecuteNew` | crates/ribosome-core/src/effects.rs:240-510 | For anything but an application, from intent to captured outcome: one adapter call behind the dispatch guards, or a receipt that says it was not dispatched |
| `EffectStore.Store.RunTrials` | crates/ribosome-core/src/effects.rs:603-657 | The acceptance checks of an application run as operations of their own and leave its prepared row alone; they succeed only if every planned check established its one passed validation |
| `EffectStore.Store.ApplyNew` | crates/ribosome-core/src/effects.rs:537-740 | A new application is captured, and its adapter was called only in an open run, with an intervention and with all its checks passed |
| `EffectStore.Store.Reconcile` | crates/ribosome-core/src/effects.rs:147-197 | Recovery of an operation without a captured outcome records an unknown, reconciled receipt that restores nothing |
| `EffectStore.Store.LookupForRecovery` | crates/ribosome-core/src/effects.rs:120-145 | A finalized receipt is returned unchanged, a captured one is finalized, an uncaptured one is reconciled; no adapter is called and the receipt is honest |
| `EffectStore.TransferableValidation` | crates/ribosome-core/src/effect_validation.rs:64-158 | The targets a captured outcome may restore, all at the oldest generation among its checks |
| `EffectStore.AssessProperties` | crates/ribosome-core/src/property_validation.rs:122-185 | The obligations stored validations still establish for one artifact version; refused past 1000 obligations |
| `EffectStore.PropertiesCoverArtifact` | crates/ribosome-core/src/property_validation.rs:46-79 | An artifact is covered if and only if it has live obligations and each is readable, a candidate, and has a stored validation for the current versions no older than the latest invalidation |
| `EffectStore.RecordTarget` | crates/ribosome-core/src/effect_finalization.rs:210-240 | The stored validations of one target after its checks' properties are recorded: a newer stored generation is kept |
| `EffectStore.Store.FinalizeEffect` | crates/ribosome-core/src/effect_finalization.rs:128-303 | Finalization succeeds once per captured outcome, in one step, with exactly the specified receipt, invalidations, stored validations and restored artifacts; repeating it returns the same receipt; anything else is refused unchanged |
| `EffectStore.Store.SettleEffect` | crates/ribosome-core/src/effect_settlement.rs:67-177 | Settlement on a current request is accepted exactly for a finalized, unknown, unsettled operation whose run is not running, and invalidates each of its writes with their dependents; repeating the same settlement changes nothing |
| `Journal.AtMostOneCall` | crates/ribosome-core/src/effects.rs:210-342 | Over any run with crashes, retries, lookups and reconciliations, no operation calls its adapter twice |
| `Journal.ReceiptsTellTruth` | crates/ribosome-core/src/effects.rs:304-342 | A finalized receipt never changes, and at every later point: not dispatched means never called, established means called once with evidence from real calls, and unknown claims neither |
| `Journal.RunForward` | crates/ribosome-core/src/effect_finalization.rs:107-126 | Operations never disappear or change identity, phases only move forward, captured outcomes and settlements are permanent |
| `Journal.RunKeeps` | crates/ribosome-core/src/effects.rs:120-342 | Every run keeps the journal's invariant, including that each captured check comes from an operation of the same grant that was called after reading the clock at the check's generation |
| `Journal.RunCounts` | crates/ribosome-core/src/effect_finalization.rs:128-195 | Each scope's clock equals the writes of its finalized operations plus those of its settled ones: each captured write is invalidated exactly once however often finalization is retried |
| `Journal.RunFenced` | crates/ribosome-core/src/effect_finalization.rs:94-114 | At most one operation with announced live writes is unsettled in every reachable state |
| `Journal.RunInvalidatesAll` | crates/ribosome-core/src/evidence.rs:296-326 | In every reachable state a scope has at most 1000 dependency edges and at most 1000 affected paths, so no invalidation is ever cut short |
| `Journal.SettlementDistrusts` | crates/ribosome-core/src/effect_settlement.rs:134-156 | Settling leaves each written path and all its dependents invalid at a generation newer than any operation of the scope dispatched before |
| `Restoration.OldestIsLeast` | crates/ribosome-core/src/effect_validation.rs:143-157 | No check of an outcome is older than the generation its targets are restored at |
| `Restoration.RunFacts` | crates/ribosome-core/src/effect_finalization.rs:210-230 | Every stored validation is backed by a finalized success whose checks all passed no earlier than its generation, one of them naming the property |
| `Restoration.OnlyFreshChecksRestore` | crates/ribosome-core/src/effect_finalization.rs:198-249 | An artifact leaves the invalidated set only by finalizing a success whose every check passed, came from a real call and read the clock no earlier than the artifact's latest invalidation, with at least one live obligation and a current stored validation for each |
| `Restoration.OwnDependentsStayInvalid` | crates/ribosome-core/src/effect_finalization.rs:191-206 | A finalization never restores what its own captured writes invalidate |
| `Restoration.RunRestores` | crates/ribosome-core/src/effect_finalization.rs:198-249 | An artifact invalid at one point of a run and valid later was restored in between by checks none of which predates that invalidation |
| `Restoration.SettledNeedsNewChecks` | crates/ribosome-core/src/effect_settlement.rs:134-156 | After a settlement, each suspected write and each of its dependents becomes valid again only through checks that had not been dispatched when it was settled |
| `Forest.RunForest` | crates/ribosome-core/src/allocations.rs:71-131 | In every reachable state every allocation's chain ends within 64 levels, every ceiling is within its parent's, and every allocation shares its parent's grant unless it is a grafted root |
| `Forest.ChainOnce` | crates/ribosome-core/src/allocations.rs:205-232 | No allocation is its own ancestor |
| `Forest.Dominated` | crates/ribosome-core/src/allocations.rs:108-116 | Every ceiling is componentwise within each of its ancestors' ceilings |
| `Forest.GraftForest` | crates/ribosome-core/src/agent_evaluator.rs:67-125 | Grafting a fresh subject root under a study case keeps the forest well formed |
| `Forest.RunExtends` | crates/ribosome-core/src/allocations.rs:117-131 | An allocation's grant, parent, purpose and ceiling never change once it exists |
| `Forest.Family` | crates/ribosome-core/src/allocations.rs:270-278 | The downward recursion ends and lists each allocation of a subtree exactly once, and nothing else |
| `Forest.CountsFamily` | crates/ribosome-core/src/allocations.rs:268-278 | Counting a root's rows by grant as well as by subtree counts the same rows |
| `LedgerStore.AllocationAncestry` | crates/ribosome-core/src/allocations.rs:205-232 | The parent walk returns the chain of at most 64 allocations, or fails when there is none |
| `LedgerStore.RequireAllocationOpen` | crates/ribosome-core/src/allocations.rs:234-256 | Success exactly when the allocation has no disposition, no ancestor is cancelled, exhausted or failed, and no deadline on the chain has passed |
| `LedgerStore.LedgerStatus` | crates/ribosome-core/src/allocations.rs:266-311 | What one allocation has left, counting each row of its subtree once and saturating at zero |
| `LedgerStore.AllocationRemaining` | crates/ribosome-core/src/allocations.rs:322-343 | The componentwise minimum of what the allocation and each ancestor have left |
| `LedgerStore.MakeAllocation` | crates/ribosome-core/src/allocations.rs:71-131 | Creation is idempotent by identity, needs an open parent of the grant, a free level and a budget within the parent's; otherwise it is refused |
| `LedgerStore.IssuePermit` | crates/ribosome-core/src/accounting.rs:15-96 | A known call of an active run returns its one permit and changes nothing when the request and allocation are the same, and is refused otherwise; a new one is issued exactly when its allocation is open, inside the run, and every owner has room |
| `LedgerStore.Store.Permit` | crates/ribosome-core/src/accounting.rs:11-96 | The same on the store: one new permit charging every ancestor at once, the first permit of a retried call, or no change; a compaction needs a plan the run may use |
| `LedgerStore.Store.DispatchPermit` | crates/ribosome-core/src/accounting.rs:115-135 | Only an undispatched permit of an active run under an open allocation is dispatched |
| `LedgerStore.Store.ReleasePermit` | crates/ribosome-core/src/accounting.rs:137-155 | Only an undispatched or already released permit is released |
| `LedgerStore.Store.RecordUsage` | crates/ribosome-core/src/accounting.rs:157-196 | Usage is recorded once for a dispatched permit, replacing the reservation only when complete; the same report again changes nothing and another one is refused |
| `Spending.SpendingBound` | crates/ribosome-core/src/accounting.rs:69-81 | In every reachable state, for every allocation: live permits of its subtree number at most its call ceiling, and what they charge is at most its ceiling plus the overruns of settled usage; only settled permits overrun |
| `Spending.HonestSpending` | crates/ribosome-core/src/accounting.rs:186-187 | If no settled usage of a subtree overran its reservation, its spending is within its ceiling |
| `PlainBound.SettledPlain` | crates/ribosome-core/src/accounting.rs:171-187 | For tokens and for cost: after the report that settles a permit, the charges of an allocation above it are within its ceiling if and only if the charges before, with the reservation replaced by the amount used, were |
| `PlainBound.StepPlain` | crates/ribosome-core/src/accounting.rs:30-195 | No step but a settling report can break the plain bound of any allocation, and such a report breaks it exactly when it was not affordable |
| `PlainBound.PlainExactly` | crates/ribosome-core/src/accounting.rs:186-187 | The plain bound holds for an allocation at every point of a run if and only if every report that settled one of its permits was affordable |
| `PlainBound.UsageMayOverrun` | crates/ribosome-core/src/accounting.rs:171-187 | For a dispatched permit without usage, some accepted report breaks the plain bound of an allocation above it if and only if the largest amount the accounting range allows would |
| `PlainBound.OverrunHappens` | crates/ribosome-core/src/accounting.rs:186-187 | A whole run from empty tables whose settled usage exceeds a ceiling of no tokens |
| `Spending.RunAccounts` | crates/ribosome-core/src/accounting.rs:15-196 | Reserve, dispatch, release, settle, incomplete usage, retries and grafts all keep the books |
| `Spending.AllowanceAdmits` | crates/ribosome-core/src/allocations.rs:322-343 | For an open allocation inside an active run, a new permit is admitted if and only if it fits the published allowance; a compaction's request is judged against the allowance of the child allocation made for it |
| `Spending.RemainingWithin` | crates/ribosome-core/src/agent_evaluator.rs:75-124 | The published allowance is within the ceiling of the allocation and of each of its ancestors, so a subject root funded by it is too |
| `Spending.RunCalls` | crates/ribosome-core/src/migration-16.sql:20 | In every reachable state no run has two permits for one provider call |
| `LedgerStore.Store.SubjectRuntime` | crates/ribosome-core/src/agent_evaluator.rs:67-125 | A fresh grant's root is created under the case of an active run less than 60 levels deep, or nothing changes |
| `LedgerStore.Store.BeginRun` | crates/ribosome-core/src/runs.rs:62-96 | A run begins once with its own allocation, resumes only from interrupted with the same grant and configuration, and returns to waiting if it was parked |
| `LedgerStore.Store.FinishRun` | crates/ribosome-core/src/runs.rs:149-184 | Finishing a running or waiting run closes its allocation with the same disposition and drops its wait unless interrupted; otherwise nothing changes |
| `LedgerStore.Store.Recover` | crates/ribosome-core/src/effects.rs:43-49 | After a restart nothing is running: leased items and active runs are interrupted |
| `Silence.StoppedIsSilent` | crates/ribosome-core/src/runs.rs:149-184 | Once a run has finished cancelled, exhausted or failed, every later state has no new allocation, permit or work item under its allocation and no permit there newly dispatched |
| `Silence.StaysStopped` | crates/ribosome-core/src/runs.rs:74-93 | No step revives a stopped run |
| `Silence.UsageStillSettles` | crates/ribosome-core/src/accounting.rs:157-196 | A dispatched permit still accepts its usage, whatever has stopped |
| `Silence.NoEffectDispatches` | crates/ribosome-core/src/effect_finalization.rs:66-75 | In the ledger and the effect journal together: after a run stops, no effect of it or of any run under it moves to dispatching |
| `LedgerStore.Store.EnqueueWork` | crates/ribosome-core/src/work.rs:51-175 | Without the profile it is refused; an active item on the subject is always returned instead of a new one; otherwise an item is created one level below its parent exactly when subject, depth, item ceilings and the parent's allocation allow |
| `LedgerStore.ClaimFrom` | crates/ribosome-core/src/work.rs:213-262 | The claim scan fails eligible items out of attempts in order and leases the first other one, under the claimant, until the grant's deadline at the latest |
| `LedgerStore.Store.ClaimWork` | crates/ribosome-core/src/work.rs:185-262 | The same on the store, refused only for an expired grant or an invalid lease |
| `LedgerStore.Store.FinishWork` | crates/ribosome-core/src/work.rs:264-296 | Only the recorded owner finishes a leased item, repeating the same completion is accepted |
| `LedgerStore.Store.RenewWork` | crates/ribosome-core/src/work.rs:298-327 | Only the recorded owner renews, and only a lease that has not run out |
| `LedgerStore.WorkWaitStatus` | crates/ribosome-core/src/parking.rs:19-50 | Waiting is answered for a run's own child items only, and is required while one of them is unsettled |
| `LedgerStore.Store.ParkRun` | crates/ribosome-core/src/parking.rs:89-154 | An active run that may park does so on its own child items, once, and in no other case |
| `LedgerStore.Store.ResumeWaiting` | crates/ribosome-core/src/parking.rs:173-188 | A parked run resumes exactly when all its items have settled |
| `LedgerStore.StopChildrenOf` | crates/ribosome-core/src/parking.rs:217-256 | Stopping a wait closes each unsettled child's allowance, retires the unleased ones and returns the leased ones untouched |
| `Scheduling.RunScheduled` | crates/ribosome-core/src/parking.rs:19-50 | Every reachable state: waits name the run's own child items, depths are one below the parent and within the grant's limit, attempts are within the limit |
| `Scheduling.WaitsAcyclic` | crates/ribosome-core/src/work.rs:63-70 | No run waits for itself through any chain of waits |
| `Scheduling.ParkingProgress` | crates/ribosome-core/src/supervisor.rs:303-358 | Follow the waits of a run whose grant has not expired: some run on the way can be moved on by a step enabled now (it resumes, or a claim leases one of its items or retires an exhausted one), or has an item that runs under a live lease and waits on nothing |
| `Scheduling.EligibleClaims` | crates/ribosome-core/src/work.rs:229-258 | For an unexpired grant an eligible waited item makes a claim possible that leases an item or retires an exhausted one |
| `Scheduling.AtMostThreeClaims` | crates/ribosome-core/src/work.rs:236-246 | Over any run, restarts included, an item is claimed at most three times |
| `Scheduling.SupersededOwner` | crates/ribosome-core/src/work.rs:264-327 | Whoever is not the latest claimant can neither finish nor renew an item, and nobody claims it while that lease is live |
| `ContextLog.ContextTail` | crates/ribosome-core/src/context.rs:44-70 | The backward scan returns the start of the longest suffix that fits the allowance and starts legally, or of the shortest legal suffix when none fits; past the beginning it never starts at tool evidence |
| `ContextLog.TailUnique` | crates/ribosome-core/src/context.rs:44-70 | That choice is unique |
| `ContextLog.WholeTail` | crates/ribosome-core/src/context.rs:44-70 | The whole log is kept exactly when it fits or every item after the first is tool evidence |
| `ContextLog.EvidenceStart` | crates/ribosome-core/src/context.rs:69 | The tail starts at tool evidence if and only if the first item is tool evidence and the whole log is kept |
| `ContextLog.EvidenceFirst` | crates/ribosome-core/src/context.rs:69 | A run whose log is one item of tool evidence has such a tail |
| `ContextLog.ChooseChunk` | crates/ribosome-core/src/compaction.rs:53-80 | The paging loop takes undeleted rows from the head up to 20 rows and 180,000 bytes, always at least one, stops short of the tail only at those limits, and fails if and only if a deleted row comes next while neither limit is reached |
| `ContextLog.SummaryHead` | crates/ribosome-core/src/compaction.rs:11-13 | The committed summary that reaches furthest, if any |
| `ContextLog.Segment.PrepareCompaction` | crates/ribosome-core/src/compaction.rs:35-89 | It fails exactly without a usable segment or on a deleted row, plans nothing exactly when nothing is left to read, and otherwise the plan starts at the head and covers such a chunk; a retry reuses the plan for the same span |
| `ContextLog.Segment.CommitCompaction` | crates/ribosome-core/src/compaction.rs:143-208 | Within 16 KiB and on a plan of the run, a prepared plan is committed exactly when its predecessor is still the head and its usage is settled; the same result again is accepted, another is refused |
| `ContextLog.Segment.AppendContext` | crates/ribosome-core/src/context.rs:212-304 | In the latest segment, entries already logged must be repeated exactly and the rest, citing retained revisions, is appended; a gap, a difference or an unretained revision changes nothing |
| `ContextLog.RedactKeeps` | crates/ribosome-core/src/context.rs:466-467 | Redacting from an item on, with every summary that reaches it, keeps the tiling |
| `ContextLog.RunTiles` | crates/ribosome-core/src/compaction.rs:35-208 | Under any interleaving of appends, prepares, commits, retries and redactions the committed summaries tile the log |
| `ContextLog.TiledExactly` | crates/ribosome-core/src/compaction.rs:11-13 | Each item up to the head is in exactly one committed summary and no later item is in any |
| `ContextLog.OneSuccessor` | crates/ribosome-core/src/compaction.rs:173-177 | No predecessor, nor the start, has two committed successors |
| `ContextLog.PlanCommits` | crates/ribosome-core/src/compaction.rs:81-90 | A plan just prepared, new or reused, can be committed right away |
| `Windows.Utf8Window` | crates/ribosome-core/src/tool_results.rs:357-373 | On valid UTF-8 a window is refused exactly when the offset is outside the text or inside a character or the next character does not fit, and is otherwise the longest whole-character window of that length |
| `Windows.WindowsReassemble` | crates/ribosome-core/src/tool_results.rs:337-351 | Windows of at least four bytes read at the returned offsets concatenate to the text, each one before the end advancing |
| `Windows.ReadAll` | crates/ribosome-core/src/tool_results.rs:307-355 | As many such reads as there are bytes never fail, each is the window of its requested length where the ones before it end, and together they are the whole text |
| `Windows.TextSplits` | crates/ribosome-core/src/tool_results.rs:358-366 | A byte position splits valid UTF-8 into valid UTF-8 if and only if it is a character boundary |
| `Windows.Decode` | crates/ribosome-core/src/host.rs:275-287 | The decoder's three outcomes: all characters, a character cut short at the end, or malformed |
| `Windows.HostRead` | crates/ribosome-core/src/host.rs:265-306 | A host read is a slice of the artifact at its offset with a true end mark, cut where the bytes taken stop being whole characters; it is refused exactly when nothing before the end can be kept |
| `Windows.TextReadable` | crates/ribosome-core/src/host.rs:271-291 | Inside a text a host read is answered if and only if the offset is a character boundary and the next character fits |
| `Windows.KeptIsWindow` | crates/ribosome-core/src/host.rs:271-291 | On a text a host read returns the longest whole-character window of the requested length |
| `Windows.Reread` | crates/ribosome-core/src/artifact_context.rs:99-129 | A read from a retained chunk succeeds exactly inside its window and returns the longest whole-character window there |
| `Windows.ChainSlices` | crates/ribosome-core/src/artifact_context.rs:99-129 | Every chunk of any chain of snapshot reads is a slice of the original artifact at its stated offset, marked as the end exactly when it reaches the original's end |
| `Windows.ReadChain` | crates/ribosome-core/src/artifact_context.rs:99-129 | A chain of requests is answered in order, the first from the artifact and each later one from the chunk before, up to the first that is refused |

## Left out

- SQLite, JSON, schema validation, hashing and UUIDs: tables are maps, contents are
  abstract versions, and a new id is any unused one.
- Transactions are atomic steps. `start_dispatch`, and the check and save of a
  submission, are each several statements kept apart from others by the executor's
  mutex (supervisor.rs:139-159) and are one step here.
- The filesystem, processes, RPC, async supervision and worker slots. That a parked
  run holds no slot is not part of this model.
- Attachments: whether one allows writing is a field of `Site`, and which items an
  attached claim may take is a parameter of `ClaimWork`.
- Discovery corpora, prepared runs, frozen study memory, record authoring and
  admission rules, search, reports, import decoding and subscriptions' batching:
  branch checks around the modelled steps.
- Legacy rows: null allocations, old checkpoint formats, uncaptured effect outcomes,
  the lineage migration and the legacy cleanup sweeps of source_cleanup.rs:60-64.
- Payload cleaning is one level per node, retired or deleted (source_cleanup.rs:85-227).
- `cleanup_sources` chooses which jobs to advance; jobs advance in any order here, and
  within a job the next item is any unfinished one rather than the oldest.
- Policy generations, `source_version` stamping of tool results and the `deleted` flag
  of tombstones: bookkeeping nothing modelled reads.
- Action counts in budgets: an action is counted after its row exists and checked in
  dispatch, so it adds a branch to the guards and no new bound.
- Sums past the 64-bit range, which SQLite reports as an error, and 32-bit offsets of
  chunks. Reservations and usage are range checked as the source does.
- The exact set of effects an allocation pays for, timings, and inspection reports.
- Store.StartDispatch: takes the active runs, and whether the run is ready, as
  parameters; the ledger's own test for active runs is joined to it in
  `Silence.NoEffectDispatches`.
- RequireSources: the selection of discovery and prepared sources and the frozen
  starting memory of a study are outside the model; the grant carries what was delivered.
- Store.Revise: any revised record may cite an evaluation as opaque, which the source
  allows recommendations only.
- LedgerStatus: leaves out the count of actions, as said above.
- AllocationRemaining: leaves out the count of actions, as said above.
- MakeAllocation: leaves out the ceiling on actions, as said above.
- Store.ApplyNew: leaves out the comparisons of content, targets and checkers after the
  acceptance checks, which only refuse.
- Store.SubjectRuntime: requires a case of the run and a budget within its ceiling, as
  its only caller provides them (experiments.rs:470-640), and does not copy the
  evaluation sources.
- Store.FinishRun: does not write the completion event.
- Store.EnqueueWork: does not write the request event.
- TransferableValidation: the filtering by which `check_evidence` derives targets and
  properties from a checker's output (effect_validation.rs:23-66) is not modelled; the
  adapter's outcome carries them.
- RecordTarget: obligations that fail with an unexpected error abort the transaction in
  the source; here a binding either holds or not.
