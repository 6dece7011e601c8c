# Recovery and journalling of the workstation bridge, in Dafny

The bridge operates GPU workloads on a workstation. A controller queues operations and a
root helper carries them out; both keep journals so that a crash, a lost response or a
failed write never leads to work being repeated, or to new work being started on top of
something that still has to be recovered. This project models those two journals and the
link graph they share, together with four smaller calculations the bridge relies on, and
proves what they promise, over every run and for all inputs.

## How the model is built

* **Recovery links** (`RecoveryGraph.dfy`). Each record may name the record it recovers.
  `RecoveryRoot` and `RecoveryChain` are the loops; `Lineage` is the independent definition
  of "the record this lineage starts from".
* **The host helper** (`HostJournal`, `HostMachine`, `HostGuarantees`, `HostRetention`,
  `HostStartup`, `HostExecutor`).
  `HostMachine` has one event per journal write, crash, or other visible step. A write
  succeeds, fails with the old value on disk, or fails with the new value on disk. A crash
  may come between any two events. `HostExecutor.Executor` is the helper as a class; each of
  its methods is proved to take only steps of the machine, so that the guarantees, proved of
  all runs, hold of the code-shaped methods.
* **The controller** (`ControllerStore`, `ControllerTransactions`, `ControllerEvolution`,
  `ControllerMachine`, `ControllerInvariant`, `ControllerGuarantees`, `ControllerResults`,
  `ControllerLedger`, `ControllerEngine`). The same plan: transactions on the copied and pruned state, a machine
  in which clients, startup and the worker interleave freely, an invariant of all its runs,
  the guarantees, and `ControllerEngine.Engine`, a class in which other clients may act
  between any two steps of the worker.
* **Where the controller's recovery ends** (`ControllerSteps`, `ControllerHandover`,
  `ControllerRace`, `ControllerChains`, `ControllerFence`, `ControllerRoutes`,
  `ControllerDeadlock`). When an operation can be left in execution, when the outstanding
  recoveries form one chain, and what happens when they do not: conditions that are exact,
  and runs that show each failure.
* **Memory plans** (`MemoryPlan.dfy`: telemetry windows and the budget; `MemoryPatch.dfy`:
  JSON documents and the two patches), **capacity** (`Capacity.dfy`), **CPU topology**
  (`Topology.dfy`) and the **adviser** (`Advisor.dfy`).

Identifiers, targets and hashes are numbers, 0 standing for the empty string. Actions and
states are enumerations.

## Assumptions

* A fresh operation ID has never been used before, and an operation's key in a map is its ID.
* Revisions are hashes of configurations; hashes are injective, so a revision is represented
  by the configuration itself.
* Nobody edits the managed source or the journals from outside.
* The result of an executor requires recovery exactly when its state says so, and an
  inspection reports a final state, or running, or queued.
* Start times of accepted helper requests strictly increase.
* The adviser's clock does not go back.

Clocks, random numbers, executors, providers, the outcome of writes and everything other
programs answer are arbitrary values.

## Where the code promises less than one might think

* Recovery of the helper can be deadlocked by a full journal. It never deletes a record and
  refuses every fresh request, restores included, once it holds as many as the policy allows
  (internal/hostexec/executor.go:209-211). Below the limit every unresolved record can be
  recovered, at the limit none (`RecoveryIffRoom`), for as long as the limit stands
  (`FullForGood`); every limit can be reached with a record unresolved (`FullJournalRoute`).
* The helper keeps all unresolved records in one chain (`OneUnresolvedChain`). The controller
  does not. All through a run there is one chain that resolves if and only if every operation
  that came to require recovery fitted: its own link is sound, and whatever else was
  outstanding is in the chain of the operation it recovers (`AlwaysOneChainIffAllFit`). Three
  kinds of operations can fail to fit, and each has a run that ends with two chains:
  a hardware refresh, which admission exempts (`RefreshRoute`,
  internal/engine/recovery.go:54); a restore of an operation without host effects, which
  admission does not check for (`RestoreRoute`, internal/engine/recovery.go:36-50); and an
  operation the worker let go of (`AbandonmentRoute`, the next item). In every run in which
  none of these comes to require recovery there is one chain (`CalmMeansOneChain`) and a
  recovery of any of its members is admitted (`CalmRecoveryIsAdmitted`). With two chains
  nothing but a refresh is admitted (`TwoChainsAdmitNothing`); if what is outstanding was
  never dispatched, this stays so over all restarts (`FencedForGood`).
* An operation the worker has begun is finished when the worker puts it down, except when a
  cancellation took effect between its start and the worker's second look at it. That is the
  only exception, and always one (`OrphanIffRaced`): the operation is then cancel-requested,
  with nothing announced or sent, and stays so until the process stops
  (`OrphanIsForsaken`, `OrphanUntilRestart`). As many of them as the queue depth, and nothing
  is queued under a new key until then (`OrphansFillTheQueue`).
* The budget check adds the candidate and the other workloads in 64 bits. The sum fits
  allocatable memory exactly when it does not overflow (`FitsUnlessOverflow`); requests
  accepted by the controller are far below that (`FitsAllocatable`).

## Model

| member | source | states |
|---|---|---|
| `RecoveryGraph.RecoveryRoot` | internal/domain/recovery.go:23-47 | the loop ends on every finite link map, cyclic or not, and answers as the recursive definition does, errors included |
| `RecoveryGraph.RecoveryChain` | internal/domain/recovery.go:50-63 | the chain of a record is every record with the same root; it fails exactly when, and as, the root does |
| `RecoveryGraph.RootIffLineage` | internal/domain/recovery.go:23-47 | a root is found if and only if there is a lineage of sound links from the record to it |
| `RecoveryGraph.LineageDistinct` | internal/domain/recovery.go:26-31 | a lineage never repeats a record |
| `RecoveryGraph.RootStep` | internal/domain/recovery.go:25-46 | the root of a record is that of its parent, when its own link is sound |
| `RecoveryGraph.RootIsRecorded` | internal/domain/recovery.go:23-47 | a root is itself recorded, has no parent, and is its own root |
| `RecoveryGraph.ChainLaws` | internal/domain/recovery.go:50-63 | chains are equal or disjoint, share one target, and contain all ancestors of their members |
| `RecoveryGraph.RootSurvivesExtension` | internal/domain/recovery.go:23-47 | adding records never changes a root that resolved |
| `RecoveryGraph.RootsOfFresh` | internal/domain/recovery.go:23-63 | a fresh record joins the chain of its parent, or starts one, and changes no other |
| `RecoveryGraph.RootSurvivesPruning` | internal/store/store.go:288-303 | dropping records outside an ancestor-closed set changes no answer about those kept |
| `HostJournal.ProgressConsistent` | internal/hostexec/executor.go:316-364 | every permitted rewrite of a record keeps the journal consistent |
| `HostJournal.FreshConsistent` | internal/hostexec/executor.go:191-230 | an admitted request keeps the journal consistent and settled |
| `HostMachine.StepKeepsInv` | internal/hostexec/executor.go:116-485 | every step, with every outcome of its write, keeps what holds between memory, disk, lock and active work |
| `HostMachine.EveryRun` | internal/hostexec/executor.go:116-485 | so it holds in every state of every run, crashes included |
| `HostGuarantees.SettlementNeverAmbiguous` | internal/hostexec/executor.go:412-428 | on journals the helper wrote, settlement never takes its ambiguity exits |
| `HostGuarantees.SettlementHoldsLock` | internal/hostexec/executor.go:171-179 | every settlement write, at startup too, is made under the canonical lock |
| `HostGuarantees.ServingMeansSettled` | internal/hostexec/executor.go:129-180 | a helper that serves unfenced has no completed restore with an unresolved record in its chain |
| `HostGuarantees.OneUnresolvedChain` | internal/hostexec/executor.go:381-410 | in every state all records awaiting recovery are in one chain, and all links resolve |
| `HostGuarantees.FenceIsExact` | internal/hostexec/executor.go:381-410 | an idle, healthy helper admits exactly restores naming an unresolved record with its target, or, with nothing unresolved, exactly requests naming none |
| `HostGuarantees.RecoveryIffRoom` | internal/hostexec/executor.go:191-230 | for an idle, healthy helper with an unchanged target, a restore naming any unresolved record can be submitted if and only if the journal holds fewer records than the policy allows |
| `HostRetention.FullForGood` | internal/hostexec/executor.go:209-211 | while the limit stands, an idle full journal stays exactly as it is over all restarts and no fresh request is taken |
| `HostRetention.UnresolvedForGood` | internal/hostexec/executor.go:209-211 | so a record that awaits recovery in a full journal never stops doing so |
| `HostRetention.FullJournalRoute` | internal/hostexec/executor.go:209-211 | for every limit, a run from a fresh start to a full journal with an unresolved record |
| `HostGuarantees.ToldSucceededMeansSettled` | internal/hostexec/executor.go:236-241 | a client is told that a restore succeeded only when all others of its chain are durably resolved and it is the last started and only success |
| `HostGuarantees.OneSuccessPerChain` | internal/hostexec/executor.go:365-370 | at no time do two records of a chain count as succeeded |
| `HostGuarantees.EffectAtMostOnce` | internal/hostexec/executor.go:191-230 | the external effect of an operation is started at most once over all restarts, with its running record on disk |
| `HostGuarantees.HistoryIsKept` | internal/hostexec/executor.go:116-128 | nothing is forgotten: finished records never change, unresolved ones change only by being resolved, and only running work comes to succeed |
| `HostStartup.InterruptedIsAccounted` | internal/hostexec/executor.go:156-168 | whenever the helper serves after a stop, work that was under way is recorded as failed if it was a diagnostic, and otherwise requires recovery unless a restore recorded since has resolved it |
| `HostStartup.InterruptedWorkFences` | internal/hostexec/executor.go:161-168 | so while nothing has been recorded since, no request without a parent is taken over interrupted work |
| `HostExecutor.Executor.SaveRecord` | internal/hostexec/executor.go:116-128 | memory follows the disk only on success; any error fences the helper, with the old or the new record on disk |
| `HostExecutor.Executor.ValidateRecovery` | internal/hostexec/executor.go:381-410 | the loops decide the recovery fence |
| `HostExecutor.Executor.ChainIsOrdered` | internal/hostexec/executor.go:419-428 | is every unresolved record of the chain strictly older than the restore |
| `HostExecutor.Executor.SettleRecoveryChain` | internal/hostexec/executor.go:412-449 | changes only unresolved records of the chain, all of them on success; an error leaves the helper fenced or startup refused |
| `HostExecutor.Executor.RecoverySettlementPending` | internal/hostexec/executor.go:451-468 | is some completed restore unsettled |
| `HostExecutor.Executor.RollForward` | internal/hostexec/executor.go:470-485 | on success every completed restore is settled |
| `HostExecutor.Executor.Load` | internal/hostexec/executor.go:129-180 | serves only with memory equal to disk, nothing lost and everything settled, otherwise stays down; work found running is recorded as failed if it was a refresh, a policy export or evidence work and as requiring recovery otherwise, and in that case nothing without a parent is admitted |
| `HostExecutor.Executor.Status` | internal/hostexec/executor.go:181-190 | reports the recorded state, but for a completed restore behind the fence; reports a restore as succeeded only if its chain is durably resolved |
| `HostExecutor.Executor.Accept` | internal/hostexec/executor.go:191-230 | accepts only fresh, admitted requests that passed every check, with the lock free and room in the journal, and records them as running; repeats are answered from the record; a refusal changes no record |
| `HostExecutor.Executor.StartWork` | internal/hostexec/executor.go:316-320 | the effect has not been started before, and its running record is on disk |
| `HostExecutor.Executor.Finish` | internal/hostexec/executor.go:316-371 | unless the helper is fenced, a diagnostic ends as succeeded or failed, a preflight refusal as failed, completed work as succeeded exactly if the build gate was disposed of, and everything else requires recovery; the chain of a completed restore is settled; after an uncertain end nothing without a parent is admitted |
| `ControllerStore.OnlyConfigureChangesSource` | internal/domain/types.go:253-308 | drafts that pass the field checks ask for another source only with a configure action |
| `ControllerStore.RetainedIsLeast` | internal/store/store.go:291-308 | what pruning retains is the least ancestor-closed set that holds the live, outstanding and recent operations, cyclic links or not |
| `ControllerStore.LeastIsUnique` | internal/store/store.go:291-308 | no other set has these properties |
| `ControllerStore.PruneKeepsRoots` | internal/store/store.go:288-303 | pruning keeps exactly the retained operations and the root of each |
| `ControllerStore.PruneTwice` | internal/store/store.go:274-316 | pruning again at the same time drops nothing more |
| `ControllerStore.MarkRetained` | internal/store/store.go:291-303 | the nested loops mark the retained set, whatever the order of the map |
| `ControllerStore.PruneState` | internal/store/store.go:274-316 | the loops of pruning compute the retained operations, their keys, and the current plans |
| `ControllerTransactions.BuildLinks` | internal/engine/recovery.go:26-32 | one link per operation |
| `ControllerTransactions.RecoveryAdmission` | internal/engine/recovery.go:34-62 | the loops decide admission |
| `ControllerTransactions.AdmissionSurvivesPruning` | internal/engine/recovery.go:34-62 | pruning changes no admission verdict |
| `ControllerTransactions.ResolvePrevious` | internal/engine/engine.go:549-566 | exactly the other outstanding operations of the chain are resolved |
| `ControllerEvolution.FollowsKeepsRoots` | internal/store/store.go:251-270 | after any transaction links that resolved still do, to the same root, and all parents resolve |
| `ControllerEvolution.FinishFollows` | internal/engine/engine.go:525-570 | completion of a recorded operation is never refused, and is one of the permitted transactions |
| `ControllerInvariant.ReplaceIsSafe` | internal/engine/engine.go:477-493 | when the source is about to be replaced nobody requires recovery and nobody else has an update pending |
| `ControllerInvariant.StepKeepsInv` | internal/engine/engine.go:40-570 | every step of clients, startup and worker, in any interleaving and with every outcome of a write, keeps the invariant |
| `ControllerInvariant.EveryRun` | internal/engine/engine.go:40-570 | so it holds in every state of every run |
| `ControllerGuarantees.ExecutionRespectsFence` | internal/engine/engine.go:507-510 | when the adapter is called, but for a hardware refresh, everyone else requiring recovery is in the chain the operation recovers, and there is none if it recovers none |
| `ControllerGuarantees.ExecutedAtMostOnce` | internal/engine/engine.go:396-524 | the adapter is called at most once per operation over all restarts, with the operation in execution and its dispatch announced on disk |
| `ControllerGuarantees.SourceChangesOnlyUnfenced` | internal/engine/engine.go:459-493 | the source changes only between the two sides of an announced update and never while an operation requires recovery |
| `ControllerGuarantees.InterruptedUpdateStaysOnASide` | internal/engine/engine.go:459-506 | from its announcement until it is finished or resolved, the source is one of the two sides of an update |
| `ControllerGuarantees.CompletionNeverAborts` | internal/engine/engine.go:545-552 | the links of an unfinished operation still resolve when it completes |
| `ControllerGuarantees.RecoveryClearsFence` | internal/engine/engine.go:545-570 | after a successful recovery nobody requires recovery, those that did are shown as failed, and no other record changed |
| `ControllerGuarantees.ReconciliationTellsTheSide` | internal/engine/engine.go:556-563 | a reconciliation marks an operation as having updated the source exactly if the source is what it asked for |
| `ControllerResults.AnswerIsRecorded` | internal/engine/engine.go:510-524 | in every run, a completed operation that is not evidence work is on disk in the state the adapter answered if that is final, and requires recovery exactly if the adapter said so or gave no final answer; nothing else of its record changes |
| `ControllerResults.OtherEndIsRecorded` | internal/engine/engine.go:447-493 | ends without the adapter: a refusal has failed, a cancellation before any effect is cancelled, a reconciliation has succeeded, and a failed source update requires recovery exactly if it may have taken effect |
| `ControllerResults.EvidenceIsRecorded` | internal/engine/engine.go:531-533 | the result of evidence work is its final answer, or a failure, and never requires recovery |
| `ControllerResults.InspectionIsRecorded` | internal/engine/engine.go:324-331 | a result proven by an inspection is recorded as such |
| `ControllerResults.StartIsRecorded` | internal/engine/engine.go:40-58 | at startup an unfinished operation gets what was proven of it if it was dispatched; if it was not, is still at work or nothing is known, it requires recovery, or has failed if it was evidence work |
| `ControllerResults.BeginDecides` | internal/engine/engine.go:411-441 | a queued operation is started exactly if it is admitted and its authorization and plan still hold; otherwise it has failed |
| `ControllerResults.SourceCarriesDraft` | internal/domain/types.go:253-269 | in every run, when the adapter is called and while it is at work, each field of the managed source has the value the draft gave, and where it gave none, the value the draft was made against |
| `ControllerGuarantees.OperationsAdvance` | internal/engine/engine.go:371-395 | over any stretch of a run a recorded operation is unchanged or carries a larger revision |
| `ControllerGuarantees.RevisionIsVersionStamp` | internal/engine/engine.go:525-544 | equal revisions mean equal records |
| `ControllerGuarantees.CancelActsOnWhatWasSeen` | internal/engine/engine.go:269-300 | a cancellation naming an observed revision acts on exactly the record observed |
| `ControllerGuarantees.CancelBeforeSecondLook` | internal/engine/engine.go:441-446 | a cancellation between start and second look leaves the operation in cancel-requested with no worker on it |
| `ControllerHandover.StepKeepsHandover` | internal/engine/engine.go:396-524 | every step keeps that at most one operation is in execution besides those let go, and that it is the worker's |
| `ControllerRace.OrphanIffRaced` | internal/engine/engine.go:411-446 | in a healthy running controller an unfinished operation out of the queue has no worker on it if and only if a cancellation took effect between its start and the second look |
| `ControllerRace.OrphanIsForsaken` | internal/engine/engine.go:411-446 | such an operation is cancel-requested, was never dispatched and announced no source update |
| `ControllerRace.OrphanUntilRestart` | internal/engine/engine.go:269-300 | it stays so until the process stops |
| `ControllerRace.OrphansFillTheQueue` | internal/engine/engine.go:233-240 | as many such operations as the depth, and until the process stops nothing is queued under a new key, recoveries included |
| `ControllerChains.TwoChainsAdmitNothing` | internal/engine/recovery.go:34-62 | with two chains outstanding everything but a hardware refresh is refused |
| `ControllerChains.AdmissionInOneChain` | internal/engine/recovery.go:34-62 | with one chain outstanding, admitted are exactly a refresh and a recovery of any of its outstanding members with no other attempt under way; with none outstanding, whatever names no operation |
| `ControllerChains.BringsExactly` | internal/engine/engine.go:525-544 | when an operation comes to require recovery, one chain remains if and only if there was one and the operation fits it |
| `ControllerChains.AlwaysOneChainIffAllFit` | internal/engine/recovery.go:34-62 | all through a run what requires recovery is in one resolving chain, in memory and on disk, if and only if everything that came to require recovery fitted |
| `ControllerFence.CalmMeansOneChain` | internal/engine/recovery.go:34-62 | in every run in which no refresh, no restore of an operation without host effects and no operation let go comes to require recovery, there is one chain throughout |
| `ControllerFence.CalmRecoveryIsAdmitted` | internal/engine/recovery.go:34-62 | and a recovery of any outstanding operation is admitted exactly if no other attempt for the chain is queued or under way |
| `ControllerFence.UnusualBreaksUpOnDisk` | internal/engine/recovery.go:54-60 | a refresh, or an operation let go that recovers nothing, breaks the chain up when it comes to require recovery beside another; the unsound restore always does |
| `ControllerRoutes.RefreshRoute` | internal/engine/recovery.go:54-56 | a run with a refresh that ends with two chains |
| `ControllerRoutes.RestoreRoute` | internal/engine/recovery.go:36-50 | a run with a restore of a reconciliation that was admitted and does not resolve |
| `ControllerRoutes.AbandonmentRoute` | internal/engine/engine.go:441-446 | a run with an operation let go that ends with two chains of plain, undispatched operations |
| `ControllerDeadlock.FencedForGood` | internal/engine/recovery.go:16-24 | two chains of undispatched operations stay outstanding and apart in every later state, and nothing but a refresh is ever executed |
| `ControllerDeadlock.AbandonmentIsForGood` | internal/engine/engine.go:40-62 | a run from a fresh start leads there |
| `ControllerDeadlock.RestoreIsForGood` | internal/engine/recovery.go:36-50 | so does one with a restore of a reconciliation |
| `ControllerGuarantees.PoisonedIsFrozen` | internal/store/store.go:251-256 | after a failed write no step changes memory or disk |
| `ControllerLedger.LedgersAlwaysOk` | internal/engine/engine.go:179-252 | always, in memory and on disk: idempotency entries and retained operations correspond one to one, and unfinished operations stay within the depth |
| `ControllerLedger.OneOperationPerKey` | internal/engine/engine.go:198-208 | one key owns at most one retained operation |
| `ControllerLedger.RequestIsAnswered` | internal/engine/engine.go:194-247 | a request that succeeds was permitted and its key then stands for its payload; either it did so before and no operation changed, or the plan was stored, current and admitted with room in the queue, and exactly that plan is queued |
| `ControllerLedger.EntriesNeverChange` | internal/engine/engine.go:195-208 | what the store says of the key and payload of an operation never changes, over all restarts |
| `ControllerLedger.OnePayloadPerOperation` | internal/engine/engine.go:195-208 | requests answered with the same operation, however far apart, carried the same key and payload |
| `ControllerLedger.MemoryIsDisk` | internal/store/store.go:251-270 | without a failed write memory is what is on disk |
| `ControllerLedger.FailedWriteIsAllOrNothing` | internal/store/store.go:261-267 | a failed write leaves the old state on disk or exactly the attempted one, at startup too |
| `ControllerLedger.FrozenUntilReopened` | internal/store/store.go:251-256 | after a failed write nothing changes until the store is reopened |
| `ControllerEngine.Finishing` | internal/engine/engine.go:525-570 | completion as a transaction, recovery chain included |
| `ControllerEngine.Applying` | internal/engine/engine.go:195-247 | under a held key it succeeds exactly for the same payload and changes nothing; under a new one exactly if the plan is stored and current, the sender permitted, the plan admitted and queue and retention have room, and then it queues the plan and enters the key |
| `ControllerEngine.Beginning` | internal/engine/engine.go:411-441 | starting as a transaction: only what is still queued, running exactly if authorized and admitted, failed otherwise |
| `ControllerEngine.OldestQueued` | internal/store/store.go:165-180 | the queued operation created first, if there is one |
| `ControllerEngine.ChooseRecovery` | internal/engine/engine.go:333-345 | restore exactly if an unresolved operation of the chain has dispatched host effects, otherwise reconcile |
| `ControllerEngine.Engine.Persist` | internal/store/store.go:241-270 | what a write and its failures leave in memory, on disk and in the poison mark |
| `ControllerEngine.Engine.CreatePlan` | internal/engine/engine.go:81-133 | stores a plan only for a sound draft against the current source, below the plan limit; field by field the plan asks for what the draft gives and keeps the rest |
| `ControllerEngine.Engine.Apply` | internal/engine/engine.go:179-252 | is one step of the machine; on success the key stands for this payload and the operation answered, as a repeat with no operation changed, or as a new operation queued for a current, admitted plan |
| `ControllerEngine.Engine.Cancel` | internal/engine/engine.go:269-300 | is one step of the machine; it succeeds only on an unfinished operation with the named revision, which is then cancelled if it was queued and cancel-requested otherwise |
| `ControllerEngine.Engine.FinishRecover` | internal/engine/engine.go:320-346 | records a proven result, which ends the need for recovery; otherwise it makes a plan naming the operation, a restore exactly if its chain has touched the host; each is one step of the machine |
| `ControllerEngine.Engine.InspectEvidence` | internal/engine/memory.go:20-48 | completes evidence work with a final answer, and does nothing otherwise |
| `ControllerEngine.Engine.ReplaceSource` | internal/source/source.go:40-56 | compare-and-swap: refused on another revision, and a failure leaves the old or the new source |
| `ControllerEngine.Engine.BeginWork` | internal/engine/engine.go:411-441 | the worker takes up only what is authorized and still queued |
| `ControllerEngine.Engine.EndEarly` | internal/engine/engine.go:459-484 | a refusal or a changed source ends as failed, a cancellation as cancelled, a reconciliation as succeeded, and nothing else ends there |
| `ControllerEngine.Engine.CallAdapter` | internal/engine/engine.go:507-510 | is reached only behind the recovery fence and never twice for an operation |
| `ControllerEngine.Engine.Prepare` | internal/engine/engine.go:447-506 | goes on to dispatch only with the source at the desired revision |
| `ControllerEngine.Engine.Deliver` | internal/engine/engine.go:507-524 | what the adapter answered is what is recorded: its state if final, recovery required exactly if it said so or gave no final answer |
| `ControllerEngine.Engine.ExecuteOperation` | internal/engine/engine.go:396-524 | with any requests in between, takes only steps of the machine; the answer of the adapter, if it was called, is what is recorded; what the second look found running is finished when put down or the store is poisoned, and what was begun is finished or lost to the race |
| `ControllerEngine.Engine.WorkOnce` | internal/engine/engine.go:348-370 | takes one of the queued operations of a healthy store, the oldest, and does not leave it queued unless the store is poisoned |
| `ControllerEngine.Engine.Start` | internal/engine/engine.go:40-62 | afterwards nothing is in execution, and nothing was sent again |
| `ControllerEngine.Engine.StartOperation` | internal/engine/engine.go:43-58 | what startup records of one unfinished operation, the others left alone |
| `MemoryWindow.ObserveWindow` | internal/memory/window.go:65-197 | one pass accepts exactly well-formed windows and gives the true maxima, minimum, ends and duration |
| `MemoryWindow.WindowIsMonotone` | internal/memory/window.go:164-187 | in an accepted window clocks increase throughout and the lifetime peak never falls |
| `MemoryWindow.DescriptionIsUnique` | internal/memory/window.go:174-196 | the lines determine the window |
| `MemoryPlan.ValidateOutput` | internal/memory/plan.go:131-325 | accepts exactly the plans whose figures, windows and budget agree with the evidence |
| `MemoryPlan.ComputationIsExact` | internal/memory/plan.go:318-319 | the 64-bit arithmetic of headroom and candidate does not overflow |
| `MemoryPlan.CandidateIsLeast` | internal/memory/plan.go:302-322 | the candidate is the least multiple of 256 MiB that covers, for every sample of every window, peak, shared memory and headroom; it is below the baseline |
| `MemoryPlan.CandidateIsDetermined` | internal/memory/plan.go:302-322 | evidence and shared memory limit determine the candidate |
| `MemoryPlan.FitsUnlessOverflow` | internal/memory/plan.go:151-151 | the candidate fits beside the other workloads exactly if their sum fits 64 bits |
| `MemoryPlan.OverflowIsAccepted` | internal/memory/plan.go:151-151 | a plan with an overflowing sum is accepted |
| `MemoryPlan.SmallPlanIsAccepted` | internal/memory/plan.go:131-325 | a plan that is accepted |
| `MemoryPlan.SmallOverflowIsAccepted` | internal/memory/plan.go:151-151 | a plan that is accepted although it does not fit |
| `MemoryPlan.FitsAllocatable` | internal/domain/memory.go:79-81 | for requests the controller accepts, the candidate fits |
| `Json.PutLaws` | internal/memory/plan.go:213-220 | replacing (section 4.3 of RFC 6902) puts the value there, and putting the old one back undoes it |
| `Json.PutElsewhere` | internal/memory/plan.go:213-220 | replacing leaves every path apart from it alone |
| `Json.QuantityRoundTrip` | internal/memory/evidence.go:303-319 | a written memory quantity reads back as itself |
| `MemoryPatch.CheckPatches` | internal/memory/plan.go:206-259 | accepts exactly the patch and rollback derived from the baseline spec |
| `MemoryPatch.PatchRoundTrip` | internal/memory/plan.go:206-259 | the patch passes its test and yields the candidate spec; the rollback passes its test and returns the baseline exactly |
| `MemoryPatch.OnlyMemoryChanges` | internal/memory/plan.go:244-257 | at every path apart from the memory request and limit the document is as before |
| `MemoryPatch.CandidateSpec` | internal/memory/plan.go:240-257 | in the patched document both quantities read as the candidate and requests equal limits |
| `MemoryPatch.PatchesExist` | internal/memory/plan.go:206-259 | every sound baseline has an accepted patch and rollback for any candidate |
| `MemoryPatch.SmallDeploymentIsAccepted` | internal/memory/plan.go:206-259 | a deployment with its accepted patches |
| `Capacity.BudgetFor` | internal/hostexec/inventory.go:249-291 | the pod budget of one resource, or none if something cannot be accounted for |
| `Capacity.PodBudget` | internal/hostexec/inventory.go:249-294 | the pod budget of all three resources |
| `Capacity.BudgetIsLeast` | internal/hostexec/inventory.go:255-290 | a pod budget is the least amount that covers the containers together and each init container alone, with overhead |
| `Capacity.Snapshot` | internal/hostexec/inventory.go:97-142 | the inventory holds the other workloads rounded up pod by pod, and what allocatable capacity leaves as reserve |
| `Capacity.Charge` | internal/hostexec/runtime.go:545-584 | the accounting written out in the capacity check adds the pod budget |
| `Capacity.CheckCapacity` | internal/hostexec/runtime.go:523-599 | accepts exactly if the sum of the pod budgets and the wanted budget fits, resource by resource |
| `Capacity.AcceptedDraftsFit` | internal/domain/types.go:366-366 | a budget accepted against the inventory passes the capacity check for CPU and memory |
| `Capacity.AcceptedDraftsFitGpus` | internal/domain/types.go:366-366 | and for GPUs too when the node advertises as many as were observed |
| `Capacity.AdvertisedGpusDecide` | internal/hostexec/runtime.go:586-599 | on an otherwise empty node an allowed and accepted budget for all observed GPUs fits exactly then |
| `Capacity.UnadvertisedGpuIsAcceptedFirst` | internal/hostexec/runtime.go:586-599 | two cards observed and one advertised: accepted as a draft, refused before applying |
| `Topology.SanitizeTopology` | internal/hostexec/hardware.go:157-216 | the topology is reported as known exactly if the evidence is consistent |
| `Topology.SiblingsAreTheClass` | internal/hostexec/hardware.go:184-210 | listed siblings are exactly the CPUs of the same core and socket, as many as the SMT width |
| `Topology.SiblingsPartition` | internal/hostexec/hardware.go:184-210 | sibling lists are equal or disjoint |
| `Topology.WidthDividesThreads` | internal/hostexec/hardware.go:159-216 | the SMT width divides the number of CPU threads |
| `Advisor.Request` | internal/advisor/client.go:417-495 | a request counts against both budgets and is refused when one is used up |
| `Advisor.Consult` | internal/advisor/client.go:285-302 | a local function is called only if it has not been, the plan function only after both inspections succeeded |
| `Advisor.FinalText` | internal/advisor/client.go:497-545 | at most four pages are read and the explanation stays within its limit |
| `Advisor.Converse` | internal/advisor/client.go:156-321 | for any provider the session ends within 64 requests and one cancellation, calls each local function at most once, and tells the provider only what they said |
| `Advisor.AtMostThreeCalls` | internal/advisor/client.go:266-302 | no session makes more than three local calls |
| `Advisor.Client.Admit` | internal/advisor/client.go:323-343 | admits exactly if none is active and fewer than the limit were admitted within the hour |
| `Advisor.FewInAnyHour` | internal/advisor/client.go:323-343 | admissions lying within less than an hour of each other are never more than the limit |

## Left out

- HTTP servers, cookies, roles, the command line, the web interface and the OpenAPI tools.
- The file system: rename, fsync, path trust and permissions; only the three outcomes of a write remain.
- kubectl, cgroups, sockets, the legacy session tools: whatever they do is an arbitrary answer.
- JSON decoding, regular expressions, SHA-256 and Kubernetes quantities are taken as already parsed.
- Audit entries, sessions, credentials, phases and messages of controller operations, event lists and artifacts.
- The worker service, which repeats the helper's pattern more simply, and the demo adapters.
- Telemetry export and performance evidence bundles.
- Evidence digests, tool hashes and artifact hashes of memory plans: they only add further refusals.
- The refusals of a journal that was altered from outside (name, hash and trust checks of the helper's startup).
- The preflight of recovery plans (internal/engine/recovery.go:64-122) is one arbitrary refusal, since it can only refuse.
- A phase report identical to the last one is not written; the model simply has no event for it.
- The two prunings of one update read the clock separately; the model uses one reading for both.
- The store revision and its wrap-around at 64 bits, and likewise for operation revisions.
- The machine fixes the adapter's answer when the adapter is called; it plays no part until the call returns.
- `Recover` as one call: it is split at the executor's answer, so that others can act in between.
- The event `Begin` of `ControllerMachine` lets the worker take any queued operation; `WorkOnce` takes the oldest.
- ControllerTransactions.SourceUpdatedTx: refuses a missing record, where the code would write an empty one; a configure operation in execution is always recorded.
- HostExecutor.Executor.Accept: does not say which refusal a request gets, because only acceptance changes anything.
- Capacity.CheckCapacity: sums are unbounded integers, because quantities are abstracted; a sum of more than eight quantities at the parser's limit would overflow in 64 bits.
- Advisor.FinalText: keeps the length of the explanation and not its words, because only the length is bounded.
- Advisor.Client.Advise: a session is one call, because a second one during it is refused by `Admit` without further effect.
- MemoryWindow.ObserveWindow: durations are real numbers, because rounding them plays no part in the budget.
