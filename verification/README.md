# Verification of the wasm platform's state machines

A Dafny model of the parts of a small serverless platform whose correctness is a
conservation law or a safety property over whole runs, and proofs of those laws. The
platform has a Go operator, Rust execution hosts, a Rust gateway and a Rust module cache.

`dafny verify dfyconfig.toml` checks everything. No file depends on anything outside this
directory.

## What is modelled

* **Resource inventory** (`Inventory*.dfy`). The Application controller writes an intent into
  a ResourceInventory, creates a child, then records its UID; a second controller releases
  children on its own. Each API call is one step. A crash or a failed call may discard either
  controller's local state between any two calls, the user may delete anything, and a read
  that finds a child may return an arbitrarily stale object.
* **Invocation supervisor** (`Supervisor*.dfy`, `DispatchMetrics.dfy`, `Invocation.dfy`).
  Intake, execution slots, the job table, cancellation, revocation of authority, shutdown
  drain, and metrics carried by drop guards. A run is any interleaving of dispatcher, tasks
  and outside. `Invocation.dfy` goes down to single lock acquisitions for the race between
  cancelling and starting an execution.
* **Module preparation** (`PreparationMetrics.dfy`, `Preparation.dfy`, `ModuleRegistry.dfy`).
  The stage machine of a work with its sticky cancellation, the global counters, the two
  semaphores, the order in which accounting and permits are dropped, and the byte-budgeted
  registry.
* **Configuration replication** (`AppRegistry.dfy`, `ConfigStore.dfy`, `Replication.dfy`,
  `ReplicationTheorems.dfy`). The operator's store and bounded channels, the host's registry
  by topic with its diffs, and the whole path from a serial writer to a host that takes a
  snapshot, registers and applies deltas.
* **Module cache** (`ModuleCache.dfy`), **pending replies** (`PendingReplies.dfy`), the
  **startup fence** (`Authority.dfy`), **derived names** (`Identifiers.dfy`) and the **Redis
  deadline** (`RedisDeadline.dfy`).

Objects whose fields the source updates are classes; each method is proved against a
function on values. Protocols are state machines: an event that is not enabled leaves the
state unchanged, a run folds a sequence of events, and a theorem over runs quantifies over
every sequence. History that no code reads (what was admitted, answered, reaped, broadcast)
is kept in fields named as such.

## Assumptions

* Inventory: one reconcile at a time per Application; nobody strips finalizers or creates
  labelled children; hashed names do not collide; absence is confirmed against the API server
  and lists are current.
* Replication: topics are unique across the stored Applications at every moment, and writes
  are serial: store, then broadcast. Function names within one Application are distinct where
  a diff theorem says so.
* Authority: an inventory lists each Application once.
* Redis: the two clocks advance at one rate; their offset and all delays are arbitrary.
* Hashes, Wasm verification and double rounding are parameters.

Where code and comments differ the code is followed: a comment on `ValidatePGInputs` speaks
of any double hyphen colliding, while `Identifiers.DatabaseNameUnambiguousIff` shows that only
an isolated pair does; the check refuses more than it needs to.

## Model

| member | source | states |
|---|---|---|
| Inventory.PersistIsPut | components/wp-operator/internal/controller/resourceinventory_controller.go:69-100 | a successful persist changes the one entry of its key, field by field: it is the given entry, released if the recorded or the given one was, or if it is new to a releasing inventory and not retained; a new key needs room under 128 |
| Inventory.PersistRefusesIff | components/wp-operator/internal/controller/resourceinventory_controller.go:69-100 | each of the three refusals exactly when it is due: another UID is recorded, else another binding is, or the key is new and there are 128 entries |
| Inventory.PersistEvolves | components/wp-operator/internal/controller/resourceinventory_controller.go:69-100 | no entry loses its UID, its release or its binding by a persist, other entries are untouched, and the inventory stays well formed |
| Inventory.PersistAllKeeps | components/wp-operator/internal/controller/lifecycle.go:202-206 | the same for any list of discovered entries, in order |
| Inventory.PersistAllEvolves | components/wp-operator/internal/controller/lifecycle.go:202-206 | a list with distinct keys is persisted whole: every listed entry is recorded under its UID and nothing else changes |
| Inventory.MarkEvolves | components/wp-operator/internal/controller/lifecycle.go:222-226 | marking what is no longer wanted keeps every key and every fence |
| Inventory.MarkReleasesExactly | components/wp-operator/internal/controller/lifecycle.go:222-226 | an upsert marks an entry for release exactly when it is not retained and its kind and logical name are not wanted |
| Inventory.ReleaseEvolves | components/wp-operator/internal/controller/resourceinventory_controller.go:60-67 | releasing the inventory releases exactly the entries that are not retained, changes nothing else of any entry, and keeps every fence |
| Inventory.DropKeepsWellFormed | components/wp-operator/internal/controller/resourceinventory_controller.go:154-160 | dropping one entry keeps the inventory well formed |
| Inventory.ResourceInventory.PersistEntry | components/wp-operator/internal/controller/resourceinventory_controller.go:69-100 | the search loop over the list refines the key-to-entry persist, with the three refusals, keeping positions and leaving the list alone on refusal |
| Inventory.ResourceInventory.ReleaseEntries | components/wp-operator/internal/controller/resourceinventory_controller.go:60-67 | the in-place loop refines releasing the inventory, and position by position releases exactly the entries that are not retained |
| Inventory.ResourceInventory.ReleaseUnwanted | components/wp-operator/internal/controller/lifecycle.go:222-226 | position by position, an entry becomes released exactly when it is not retained and its kind and logical name are not wanted, every other is untouched, and the loop refines the marking on the map |
| Inventory.ResourceInventory.DropEntry | components/wp-operator/internal/controller/resourceinventory_controller.go:154-160 | rebuilding the list without a key refines removing it from the map |
| InventorySafety.InventoryKeeps | components/wp-operator/internal/controller/resourceinventory_controller.go:102-172 | every call of the inventory controller keeps the protocol invariant |
| InventorySafety.ApplicationKeeps | components/wp-operator/internal/controller/lifecycle.go:58-110 | every call of the Application controller keeps the protocol invariant |
| InventorySafety.ClusterKeeps | components/wp-operator/internal/controller/application_controller.go:147-158 | crashes, failed calls, user deletions, garbage collection and cache lag keep it |
| InventorySafety.RunKeeps | components/wp-operator/internal/controller/lifecycle.go:173-258 | the invariant holds after every sequence of steps of both controllers and the cluster |
| InventoryTheorems.NoLeak | components/wp-operator/internal/provisioning/application.go:311-333 | over every run every labelled child has an entry under its key with an empty or equal UID and the child's logical name and binding, every credential Secret has an entry, and without an inventory there is neither |
| InventoryTheorems.InventoryOutlivesChildren | components/wp-operator/internal/controller/resourceinventory_controller.go:163-170 | the inventory goes only when the Application is gone and no child and no Secret exists |
| InventoryTheorems.WaitLeavesNothing | components/wp-operator/internal/controller/application_controller.go:147-158 | under Wait nothing is left when the Application finalizer is removed; under any policy what is left is listed for release |
| InventoryTheorems.FinalizerProtects | components/wp-operator/internal/controller/application_controller.go:155-158 | a protected Application disappears only by its controller removing the finalizer after that point |
| InventoryTheorems.FencesAreMonotone | components/wp-operator/internal/controller/resourceinventory_controller.go:60-100 | every step keeps keys unique and within 128, never changes a recorded UID, never takes back a release, and drops an entry only when it is released and its child and Secret are gone |
| InventoryTheorems.DeletionIsFenced | components/wp-operator/internal/provisioning/application.go:465-485 | a controller deletes a child only on a released entry whose nonempty recorded UID is the child's |
| InventoryTheorems.CleanupIsNotBlocked | components/wp-operator/internal/provisioning/application.go:443-486 | a current read of a child to be released always verifies, so cleanup is never stuck on ownership or UID |
| InventoryPlans.UpsertReleasesExactly | components/wp-operator/internal/controller/lifecycle.go:173-258 | over every run, an upsert written without interference releases exactly the entries that were released or are neither retained nor wanted, records the UID of every discovered child, changes no key and no child, and goes on to serve exactly when nothing is left to release |
| InventoryPlans.RemovalHandsOver | components/wp-operator/internal/controller/application_controller.go:134-158 | over every run, a removal written without interference releases every entry that is not retained, and the Application goes if and only if its policy orphans the inventory or there was no obligation |
| InventoryPlans.ProvisioningSucceeds | components/wp-operator/internal/provisioning/application.go:295-333 | from every reachable state with nothing released or unwanted, reconciling a resource not yet listed without interference ends with its child created as asked, its entry active under the child's UID, and every other entry and child as the upsert leaves it |
| InventoryOutcomes.ListsExist | components/wp-operator/internal/provisioning/application.go:166-245 | whatever children there are, a current list of each kind exists, so none of the reconciles above and below is vacuous |
| InventoryOutcomes.ReconcileRepeats | components/wp-operator/internal/controller/lifecycle.go:87-110 | from such a state, reconciling a child that is there and not being deleted leaves the children alone and the inventory as the upsert alone would |
| InventoryOutcomes.InventoryIsCreatedExactly | components/wp-operator/internal/controller/lifecycle.go:126-170 | over every run, a first reconcile without interference creates an inventory exactly when its journal can be drafted and is not empty or something is needed, and it holds what the journal says |
| InventoryOutcomes.RemovalWithoutInventory | components/wp-operator/internal/controller/lifecycle.go:157-159 | a removal that finds no inventory lets the Application go exactly on an empty journal, and otherwise drafts an inventory first |
| InventoryOutcomes.RemovalCompletes | components/wp-operator/internal/controller/application_controller.go:134-158 | a removal from its start, also of an inventory that is being deleted, hands every obligation over, and the Application goes if and only if its policy orphans the inventory or there was no obligation |
| InventoryOutcomes.ChildrenAreNamed | components/wp-operator/internal/provisioning/application.go:317-332 | over every run every child stands under the name hashed from its logical name and carries the binding derived from it |
| InventoryOutcomes.SecretsAreOwned | components/wp-operator/internal/provisioning/application.go:320-332 | over every run no credential is created over a Secret that is there, so each Secret is owned by the credential it stands beside |
| InventoryOutcomes.FoundChildIs | components/wp-operator/internal/provisioning/application.go:334-349 | a child found by the Application controller is recorded exactly when UID, logical name and binding agree and it is not being deleted |
| InventoryOutcomes.VisitedChildIs | components/wp-operator/internal/provisioning/application.go:462-485 | a child found by the inventory controller is refused exactly when one of the three differs, and deleted exactly when its UID is recorded and it is not being deleted yet |
| InventoryOutcomes.VisitedSecretIs | components/wp-operator/internal/provisioning/application.go:449-455 | a Secret left behind is waited for exactly when the recorded child owns it, and otherwise ends the reconcile |
| InventoryProgress.CleanupMustFinish | components/wp-operator/internal/controller/resourceinventory_controller.go:102-172 | every schedule cleans up: with the Application gone and every obligation of an owned kind, while there is an inventory some removal by the cluster or some call of its controller, following any order of the list, can be made; what is left, at most 5675 such steps, shrinks with each, grows by at most 11 with each crash, failed call, stale read or foreign write, and is nothing exactly when the inventory, every child and every Secret are gone |
| InventoryProgress.ForeignObligationStays | components/wp-operator/internal/provisioning/application.go:433-442 | an obligation of any other kind is never dropped, so the condition above is exact |
| InventoryProgress.ForeignObligationCanArise | components/wp-operator/internal/controller/lifecycle.go:126-170 | and it is not idle: the journal an inventory is first created from can bring any such obligation into the table |
| DispatchMetrics.WorkCounts.RecordCapacity | components/execution-host/src/dispatch_metrics.rs:347-366 | one breach exactly when the occupancy of that kind exceeds its limit |
| DispatchMetrics.WorkCounts.Enqueue | components/execution-host/src/dispatch_metrics.rs:239-249 | the ledger stays balanced with one more enqueued, and a breach is recorded exactly when the queue was already full |
| DispatchMetrics.WorkCounts.LeaveQueue | components/execution-host/src/dispatch_metrics.rs:397-412 | the ledger stays balanced with one more gone, and an accounting error is recorded exactly when nothing was queued |
| DispatchMetrics.WorkCounts.StartTask | components/execution-host/src/dispatch_metrics.rs:251-263 | one more task started and not reaped; a start after the stop, or beyond the limit, is recorded exactly when it happens |
| DispatchMetrics.WorkCounts.FinishTask | components/execution-host/src/dispatch_metrics.rs:426-443 | one more task finished and not reaped, still tracked, and never an error |
| DispatchMetrics.WorkCounts.ReapTask | components/execution-host/src/dispatch_metrics.rs:265-277 | started is tracked plus reaped and finished is uncollected plus reaped, up to errors, and an error is recorded exactly when there was no task, or no finished one, to reap |
| DispatchMetrics.WorkCounts.StartExecution | components/execution-host/src/dispatch_metrics.rs:279-289 | one more execution begun, and a breach recorded exactly when the slots were already full |
| DispatchMetrics.WorkCounts.Terminate | components/execution-host/src/dispatch_metrics.rs:452-460 | an execution moves between the two gauges at most once: their sum stays, nobody begins or ends, and an error means that none was running |
| DispatchMetrics.WorkCounts.EndExecution | components/execution-host/src/dispatch_metrics.rs:463-482 | begun is running plus terminating plus ended, up to errors, and an error is recorded exactly when the gauge it left was empty |
| DispatchMetrics.WorkCounts.Execute | components/execution-host/src/dispatch_metrics.rs:451-482 | one execution, cancelled twice or not at all, leaves every gauge where it was and records no error |
| DispatchMetrics.WorkCounts.ServeAll | components/execution-host/src/dispatch_metrics.rs:397-482 | any number of messages taken from the queue to their reaping leave every gauge where it was, record no error and reap one task each |
| Supervisor.CancelUntrustedWorkLoop | components/execution-host/src/invocation_supervisor.rs:312-326 | the two loops of the sweep compute: every job revoked or aborted, every waiting message cancelled and dropped |
| SupervisorSafety.RevocationKeeps | components/execution-host/src/invocation_supervisor.rs:312-326 | after a sweep over the whole table no execution is unrevoked and no message waits, and every count still matches |
| SupervisorSteps.CollectKeeps | components/execution-host/src/invocation_supervisor.rs:328-426 | collecting a revoked execution, an execution or a reply keeps tables, counters, permits and the history of authority |
| SupervisorSteps.AdmitKeeps | components/execution-host/src/invocation_supervisor.rs:209-278 | the last authority check and the admission keep them |
| SupervisorSteps.DropGuardKeeps | components/execution-host/src/invocation.rs:184-232 | the accounting guard goes before the permit, cancelled first when the guest panicked |
| SupervisorSteps.StepKeeps | components/execution-host/src/invocation_supervisor.rs:102-258 | every step of the dispatcher, of a task and of the outside keeps the invariant |
| SupervisorSteps.RunKeeps | components/execution-host/src/invocation_supervisor.rs:102-258 | so does every run, for every number of slots |
| SupervisorTheorems.Capacity | components/execution-host/src/invocation_supervisor.rs:107-177 | at most max jobs at every moment; free permits, the one in hand and those of unreleased executions add up to max; task ids are job keys |
| SupervisorTheorems.AdmissionNeverWaits | components/execution-host/src/invocation_supervisor.rs:133-160 | once a message is taken a slot is free: it is admitted if and only if it is neither cancelled nor late (which messages are taken is `TakenExactlyWhenSynced`) |
| SupervisorService.TakenExactlyWhenSynced | components/execution-host/src/invocation_supervisor.rs:119-136 | over every run, a received message goes on to a slot if and only if the host is synced, and nothing else changes; otherwise it is cancelled and gone, and no job or task appears |
| SupervisorService.LateIsRepliedTo | components/execution-host/src/invocation_supervisor.rs:157-176 | over every run, a message too late for its slot is cancelled and gone, keeps no permit, and gets exactly one new reply task |
| SupervisorService.RejectIs | components/execution-host/src/invocation_supervisor.rs:178-208 | a message without a route or a module is gone uncancelled, its permit is back, and no job or task appears |
| SupervisorService.MessageIsAdmitted | components/execution-host/src/invocation_supervisor.rs:107-278 | over every run, a waiting message that is not cancelled, on a host synced with no change unseen and room in the table, becomes one new working execution with one permit and one new job, and nothing else changes |
| SupervisorService.MessageIsAnswered | components/execution-host/src/invocation_supervisor.rs:107-426 | and, worked through without interference, it is answered once, under the authority it was admitted with, and every task, job and permit is as before |
| SupervisorTheorems.AccountingIsExact | components/execution-host/src/dispatch_metrics.rs:251-289 | every gauge equals what it counts, started is reaped plus present, nothing underflows, no breach, no start after stop, no ownerless or mismatched completion |
| SupervisorTheorems.AnswersAreCurrent | components/execution-host/src/invocation_supervisor.rs:328-343 | a reply carries a result only if the dispatcher has seen no change of synced between admission and collection, and never for a revoked or drained invocation; drained messages are cancelled and never admitted |
| SupervisorTheorems.AnswersExactlyUnrevoked | components/execution-host/src/invocation_supervisor.rs:328-426 | collecting an execution answers if and only if it was not revoked and its completion is an Ok result not marked cancelled; a revoked one is reaped, any other becomes a reply job |
| SupervisorService.AnswersAreEarned | components/execution-host/src/invocation_supervisor.rs:260-278 | over every run, each answered invocation had an execution whose end returned Ok while it was neither cancelled nor past its deadline |
| SupervisorTheorems.SweepTakesAll | components/execution-host/src/invocation_supervisor.rs:112-153 | at either select, on a change of synced or the loss of its sender, every execution in the table is revoked, every reply task aborted, every waiting message cancelled and drained, and a message in hand cancelled and let go unadmitted |
| SupervisorTheorems.RevocationIsFinal | components/execution-host/src/invocation_supervisor.rs:112-153 | whatever follows such a sweep, those executions never answer, are reaped at most once and exactly once when the drain is done, and neither the waiting messages nor the one in hand are ever admitted |
| SupervisorTheorems.AbsentForever | components/execution-host/src/invocation_supervisor.rs:129-153 | an invocation that left without admission is never admitted, in any continuation |
| SupervisorDrain.DrainRun | components/execution-host/src/invocation_supervisor.rs:428-452 | while draining each collection lowers twice the executions plus the replies, and nothing is admitted |
| SupervisorDrain.DrainIsBounded | components/execution-host/src/invocation_supervisor.rs:428-452 | any schedule of the drain collects at most 2 * max times |
| SupervisorDrain.DrainNeverStuck | components/execution-host/src/invocation_supervisor.rs:428-452 | until the drain is done some step of a task or of its loop can be taken |
| SupervisorDrain.DrainMustFinish | components/execution-host/src/invocation_supervisor.rs:428-454 | every schedule finishes the drain: after at most 6 * max + 1 such steps, whatever comes in between, it is done |
| SupervisorDrain.DoneIsEmpty | components/execution-host/src/invocation_supervisor.rs:449-454 | when it is done no job, task, guard or message is left, all permits are back, and started equals finished equals reaped |
| Cleanup.CleanupTasks.Collect | components/execution-host/src/invocation.rs:35-51 | a kept failure stays, and none is kept exactly when there was none and this end is fine |
| Cleanup.CleanupTasks.SpawnCleanup | components/execution-host/src/invocation.rs:144-154 | ends that came early are joined, and their failures kept, before the new task starts |
| Cleanup.CleanupTasks.Finish | components/execution-host/src/invocation.rs:156-181 | joins everything and replies with the kept failure |
| Cleanup.KeepsFirst | components/execution-host/src/invocation.rs:35-51 | what is kept over any sequence of collections is its first failure |
| Invocation.StepKeeps | components/execution-host/src/invocation.rs:79-232 | every step between two lock acquisitions keeps slot, counters, permits and cleanup bookkeeping consistent |
| Invocation.CancelNeverLost | components/execution-host/src/invocation.rs:79-111 | in every interleaving of cancel calls with the start, an execution whose flag is set counts as running only while a cancel call is between its two writes or the start's own check is still to come or under way; counters and permits are exact |
| Invocation.CancelTakesEffect | components/execution-host/src/invocation.rs:79-90 | a cancel call that runs to its end moves a stored execution from running to terminating, once, and leaves no call pending |
| Invocation.ChecksTakeEffect | components/execution-host/src/invocation.rs:92-111 | the check at the start and the one at the end, with their cancel, mark the execution exactly when the flag is set or the deadline passed, and a guest's exit exactly when it panicked |
| Invocation.CapacityOutlivesCleanup | components/execution-host/src/invocation.rs:156-232 | a permit is released only after the guest exited and every registered cleanup was joined; finish fails if and only if some cleanup failed, early or late, and names the first collected |
| Invocation.EveryPermitReturns | components/execution-host/src/invocation.rs:156-232 | every schedule gives every permit back: until then the invocation or one of its tasks can take a step, and the steps it takes are bounded by its place and two for each task running or spawned, whatever cancellations and other invocations do in between |
| PreparationMetrics.Metrics.Decrement | components/execution-host/src/preparation_metrics.rs:302-308 | one stage goes down by one or, at zero, stays there with one error recorded; the others stay |
| PreparationMetrics.Metrics.RecordCapacity | components/execution-host/src/preparation_metrics.rs:286-300 | a breach exactly when the queued, active, tracked or building occupancy exceeds its limit, and no counter moves |
| PreparationMetrics.Metrics.Move | components/execution-host/src/preparation_metrics.rs:317-325 | one stage down, the other up, and a breach exactly when a queued work becomes active beyond the limit |
| PreparationMetrics.Metrics.Admit | components/execution-host/src/preparation_metrics.rs:337-359 | an admitted submission leaves the wait and enters the queue, with a breach exactly when queued or tracked work is then over its limit |
| PreparationMetrics.Metrics.Refuse | components/execution-host/src/preparation_metrics.rs:361-393 | a submission dropped before admission leaves the wait, is counted refused, and touches no other stage |
| PreparationMetrics.PreparationWork.TerminateWith | components/execution-host/src/preparation_metrics.rs:429-443 | the first reason to stop sticks, and exactly preparing and compiling work turns terminating |
| PreparationMetrics.PreparationWork.BecomeActive | components/execution-host/src/preparation_metrics.rs:482-497 | only a queued work becomes active; any other stays where it is with one error recorded |
| PreparationMetrics.PreparationWork.Compiling | components/execution-host/src/preparation_metrics.rs:499-521 | with no compilation open, one is opened and counted exactly for preparing work or stopped terminating work, and it shows as terminating if stopped |
| PreparationMetrics.PreparationWork.CompilationFinished | components/execution-host/src/preparation_metrics.rs:523-532 | the compilation is counted under its first reason to stop, else its result, and compiling work returns to preparing |
| PreparationMetrics.PreparationWork.Drop | components/execution-host/src/preparation_metrics.rs:539-573 | the stage is left once and, together with an open compilation, counted under the first reason to stop, else a panic, else the outcome set; a second drop does nothing |
| PreparationSafety.CompileKeeps | components/execution-host/src/modules.rs:354-359 | the compiler is entered only with no compilation open |
| PreparationSafety.StepKeeps | components/execution-host/src/modules.rs:160-399 | every step of the flow, with the locks taken in two parts and permits dropped after the accounting, keeps the invariant |
| PreparationSafety.PreparationIsExact | components/execution-host/src/preparation_metrics.rs:257-326 | over every interleaving each stage counter is the number of live works there, open compilations are counted once, both limits hold, no breach and no error is recorded, and admissions are finished plus live |
| PreparationSafety.FirstStopDecides | components/execution-host/src/preparation_metrics.rs:429-443 | the first reason to stop decides the recorded outcome in every continuation |
| PreparationSafety.StageFollowsFlow | components/execution-host/src/preparation_metrics.rs:482-532 | over every interleaving the recorded stage is the place in the flow: queued exactly until activated, compiling only in the compiler, terminating only when stopped |
| PreparationSafety.StopShows | components/execution-host/src/preparation_metrics.rs:429-443 | a first stop is recorded with its reason and shows unless the work is still queued; a later one changes no reason |
| PreparationSafety.FateIsExact | components/execution-host/src/preparation_metrics.rs:539-573 | a dropped work is recorded under its first reason to stop, else a panic, else the outcome set, and then holds only its permits |
| PreparationSafety.OutcomeIsLastSet | components/execution-host/src/preparation_metrics.rs:534-537 | the outcome changes only when the work's owner sets it, to what is set |
| PreparationSafety.EveryPreparationEnds | components/execution-host/src/modules.rs:160-399 | every schedule ends every preparation: until then it can take a step, and after at most twelve of its own, whatever others do in between, it is gone with its permits |
| PreparationSafety.IdleIsClean | components/execution-host/src/modules.rs:40-45 | with no preparation left both semaphores are full, every gauge is zero and every admission has finished |
| ModuleRegistry.Registry.Add | components/execution-host/src/modules.rs:255-288 | each of the three refusals exactly when the deadline passed, a new component exceeds 32, or the bytes without the replaced one plus the new exceed 128 MiB; otherwise replaced or added, with no subtraction underflowing |
| ModuleRegistry.Registry.Drop | components/execution-host/src/modules.rs:401-413 | exactly that component goes and its bytes are given back |
| ModuleRegistry.RegistersExactly | components/execution-host/src/modules.rs:255-288 | after every history a registration is stored exactly when it is in time and leaves at most 32 components and 128 MiB, and changes nothing otherwise |
| ModuleRegistry.BudgetsHold | components/execution-host/src/modules.rs:255-288 | after every history the byte count is the sum of what is registered, at most 32 components and 128 MiB |
| HostConfig.AppRegistry.ApplyFullConfig | components/execution-host/src/config.rs:120-190 | every declared topic serves, field by field, the last function of the snapshot to declare it, whose module is requested, and no other topic is served; entries whose topic is gone are evicted, and what is loaded is exactly what the new registry reaches |
| HostConfig.AppRegistry.RemoveApp | components/execution-host/src/config.rs:220-231 | an application's entries go one topic at a time, each evicted |
| HostConfig.AppRegistry.Takeover | components/execution-host/src/config.rs:252-264 | functions of other applications on the topics about to be taken are evicted |
| HostConfig.AppRegistry.InsertApp | components/execution-host/src/config.rs:266-277 | each topic the application declares serves, field by field, its last function there, whose module is requested; every other topic keeps its entry |
| HostConfig.AppRegistry.ApplyIncremental | components/execution-host/src/config.rs:198-300 | the loops refine the fold of the batch; the last word on a topic is what it serves, field by field, with its module requested, a topic no update disturbs keeps its entry, and nothing else is served |
| HostConfig.FullServesLast | components/execution-host/src/config.rs:344-360 | in the registry of any snapshot the last function to declare a topic is what it serves, in every field, and only declared topics are served |
| HostConfig.BatchServesLast | components/execution-host/src/config.rs:344-360 | after any batch the last word on a topic is what it serves, in every field, and its module was requested |
| HostConfig.BatchLeavesRest | components/execution-host/src/config.rs:212-277 | a topic that no update of the batch disturbs keeps its entry |
| HostConfig.BatchServesOnly | components/execution-host/src/config.rs:198-300 | every topic served after a batch has a last word in it, or was served before and is not disturbed |
| HostConfig.BatchKeepsReachable | components/execution-host/src/config_sync.rs:269-290 | for every batch, evicting then loading leaves every reachable function loaded or submitted |
| HostConfig.BatchDiffIsExact | components/execution-host/src/config.rs:212-291 | a batch that names each application once and declares no topic twice leaves loaded exactly what the registry reaches, takeovers included |
| HostConfig.SnapshotIsExactIff | components/execution-host/src/config.rs:154-183 | a snapshot leaves loaded exactly what its registry reaches if and only if what each kept topic served is still served somewhere in it |
| HostConfig.FullIsNotExact | components/execution-host/src/config.rs:154-163 | an instance where it is not: a function replaced on its topic stays loaded |
| HostConfig.SnapshotReachesOnce | components/execution-host/src/config.rs:134-146 | a snapshot reaches no module from two topics, which the diffs rely on |
| HostConfig.SnapshotRestores | components/execution-host/src/config.rs:120-190 | a snapshot leaves every reachable function loaded or submitted, whatever registry and modules it finds |
| HostConfig.SessionKeepsReachable | components/execution-host/src/config_sync.rs:153-290 | over any sequence of snapshots and batches, some cut short by a failed load and followed by a snapshot, every reachable function is loaded or submitted after each whole one |
| HostConfig.SessionIsExact | components/execution-host/src/config_sync.rs:153-290 | and nothing else is loaded, if each meets the condition for exactness over the registry it finds; one cut short leaves less, never more |
| ConfigStore.Store.Set | components/wp-operator/internal/configstore/store.go:48-59 | true exactly on a material change, which alone moves the 64-bit version |
| ConfigStore.Store.Delete | components/wp-operator/internal/configstore/store.go:62-67 | the configuration goes and the version moves |
| ConfigStore.Store.Snapshot | components/wp-operator/internal/configstore/store.go:70-78 | each stored configuration once |
| ConfigStore.Store.RegisterHost | components/wp-operator/internal/configstore/store.go:103-109 | a new empty open channel takes the id from the current broadcast on, orphaning one registered under it and touching no other |
| ConfigStore.Store.DeregisterHost | components/wp-operator/internal/configstore/store.go:112-119 | exactly that id goes, and exactly its channel is closed |
| ConfigStore.Store.BroadcastUpdate | components/wp-operator/internal/configstore/store.go:124-142 | the two passes deliver to every host with room and drop and close exactly the full ones |
| ConfigStore.ChannelsAreGapFree | components/wp-operator/internal/configstore/store.go:103-142 | over every run a channel has delivered and holds one contiguous run of broadcasts from its registration, a registered one is open and complete, and no channel is sent to after close or closed twice |
| ConfigStore.FullBufferEndsRun | components/wp-operator/internal/configstore/store.go:128-141 | a full buffer ends the run instead of skipping |
| ConfigStore.EndedRunsStayEnded | components/wp-operator/internal/configstore/store.go:103-119 | a channel nobody is registered on gets nothing more, and an orphaned one is never closed |
| ConfigStore.DeregistrationCloses | components/wp-operator/internal/configstore/store.go:112-119 | on every reachable state deregistering removes that id alone and closes its channel alone, which was open |
| Replication.FullIsRegistry | components/execution-host/src/config.rs:120-190 | a full apply of the store, in any order, serves on each topic, field by field, the function that declares it, and serves no other topic |
| Replication.DeltaRefinesFull | components/execution-host/src/config.rs:198-300 | applying one delta turns the registry of the store before into that of the store after |
| Replication.ReplayIsIdempotent | components/execution-host/src/config.rs:198-300 | replaying an update already reflected changes nothing |
| Replication.AlignedKeeps | components/wp-operator/internal/grpc/server.go:33-110 | every action of the writer, of hosts and of channels keeps a session aligned unless it connects past a broadcast |
| ReplicationTheorems.ReplicationConverges | components/wp-operator/internal/configstore/store.go:48-142 | a session that missed no broadcast holds at every count the registry of what it applied, or of the one update its snapshot already had, and when caught up exactly a full apply of the store |
| ReplicationTheorems.BacklogIsConserved | components/wp-operator/internal/grpc/server.go:86-110 | every schedule catches up: what a connected session is behind by plus what it applied is what it was behind by plus what was written, it is caught up exactly when that is nothing, and until then there is something to deliver or broadcast while its host is registered |
| ReplicationTheorems.SessionMustCatchUp | components/wp-operator/internal/grpc/server.go:86-110 | every schedule that keeps the registration catches up: what remains to broadcast and deliver shrinks by one with each, grows by two with each write and by nothing else, is nothing exactly when caught up, and until then there is a step to make that keeps the registration |
| ReplicationTheorems.ListensUnlessLost | components/wp-operator/internal/configstore/store.go:103-142 | a registration is lost exactly by leaving, by registering again under the same id, or by a broadcast that finds the buffer full |
| ReplicationTheorems.GapCondition | components/wp-operator/internal/grpc/server.go:33-110 | a connecting session converges in every continuation if and only if its snapshot's registry, after the update about to be broadcast, is the store's |
| ReplicationTheorems.GapBreaksConvergence | components/wp-operator/internal/grpc/server.go:33-80 | a broadcast between snapshot and registration is lost for good |
| ModuleCache.EvictsShortestPrefix | components/module-cache/src/cache.rs:142-151 | eviction drops the shortest prefix of the oldest that suffices, and something always suffices |
| ModuleCache.InsertKeeps | components/module-cache/src/cache.rs:132-157 | insertion keeps both budgets and unique digests and never ends in the internal error |
| ModuleCache.ContentsAreLastUsed | components/module-cache/src/cache.rs:110-158 | after any history the contents are a suffix of the last-use order of everything ever stored |
| ModuleCache.ServedIsYoungest | components/module-cache/src/cache.rs:110-158 | after any history a module read is the youngest; a verified upload within the budget that conflicts with nothing stored is stored and the youngest; an unverified upload and a missed read change nothing |
| ModuleCache.ConflictIsCollision | components/module-cache/src/cache.rs:260-275 | since uploads are verified first, a conflict is a hash collision |
| ModuleCache.Store.Touch | components/module-cache/src/cache.rs:119-124 | the digest moves to, or appears at, the young end |
| ModuleCache.Store.Get | components/module-cache/src/cache.rs:126-130 | the stored bytes are returned exactly when there are some, and that entry alone moves to the young end |
| ModuleCache.Store.MakeRoom | components/module-cache/src/cache.rs:142-151 | the loop refines eviction on the list, terminates, and counts what it evicted |
| ModuleCache.Store.Add | components/module-cache/src/cache.rs:132-157 | a conflict exactly when other bytes are stored under the digest, too large exactly when nothing is and the bytes exceed the budget or no entry is allowed, both leaving everything alone; otherwise the module is stored at the young end behind the list less the shortest prefix that makes room, or moves there; the internal error is unreachable |
| PendingReplies.PendingTable.Reserve | components/gateway/src/nats.rs:128-147 | refused exactly when retired or full, failed exactly at the last 64-bit id, both changing nothing; else the waiter is entered under a fresh id |
| PendingReplies.PendingTable.Remove | components/gateway/src/nats.rs:149-156 | exactly that sender goes, once, and is returned |
| PendingReplies.PendingTable.Deliver | components/gateway/src/nats.rs:158-162 | true exactly when somebody was waiting and still listens |
| PendingReplies.PendingTable.Retire | components/gateway/src/nats.rs:164-172 | no id is pending any more, the table refuses from then on, and ids are not issued again |
| PendingReplies.RepliesAreSingleUse | components/gateway/src/nats.rs:105-184 | over every run: ids issued once per session and within capacity, at most one reply per waiter and only one addressed to its id and session, every session but the current one empty and retired |
| PendingReplies.ReplyReachesItsWaiter | components/gateway/src/nats.rs:229-241 | in the current session a reply to a pending id reaches exactly its waiter, if it still listens, and settles it |
| PendingReplies.LateRepliesAreLost | components/gateway/src/nats.rs:180-184 | once its sender is gone a waiter's inbox never changes |
| PendingReplies.RetiredStaysRetired | components/gateway/src/nats.rs:217-247 | a retired session accepts nothing, for good |
| Authority.Fence.RefreshLocked | components/wp-operator/internal/authority/authority.go:48-63 | the loop refines the pending applications of an inventory against the recorded reconciles |
| Authority.Fence.Start | components/wp-operator/internal/authority/authority.go:38-46 | initialization gives a live context and a fresh inventory |
| Authority.Fence.Complete | components/wp-operator/internal/authority/authority.go:67-86 | a reconcile is recorded, settles what it covers, and never writes a record that was let go |
| Authority.Fence.Withdraw | components/wp-operator/internal/authority/authority.go:103-110 | the context is unavailable, what is pending and recorded stays, and the invariant is kept |
| Authority.AvailableMeansReconciled | components/wp-operator/internal/authority/authority.go:38-96 | whenever the context is available every Application of the last inventory was reconciled with its UID at that generation or later, or reported absent since; and no run writes the nil record |
| Authority.RevocationIsFinal | components/wp-operator/internal/authority/authority.go:89-110 | once revoked, or once the leader's own context is done, never available again without another Initialize |
| Authority.FenceOpensExactly | components/wp-operator/internal/authority/authority.go:48-147 | after an inventory is recorded and any reconciles since, the context is available if and only if every listed Application was recorded with its UID at that generation or later, or has been settled since by such a reconcile or a report of its absence |
| Authority.FenceOpensFromStart | components/wp-operator/internal/authority/authority.go:38-147 | from the start, whatever reconciles came before the first inventory, the context is available if and only if each listed Application is settled since, or the latest reconcile of its key before matches its UID and reaches its generation |
| Identifiers.Identifier | components/wp-operator/internal/provisioning/identifiers.go:44-54 | at most 63 characters, and unchanged when it fits |
| Identifiers.PGDatabaseName | components/wp-operator/internal/provisioning/identifiers.go:61-64 | at most 63 characters |
| Identifiers.PGUsername | components/wp-operator/internal/provisioning/identifiers.go:70-73 | at most 63 characters |
| Identifiers.K8sCredentialName | components/wp-operator/internal/provisioning/identifiers.go:81-89 | prefix, namespace, application, user and suffix joined by hyphens while these have at most 231 characters, and always within 253 |
| Identifiers.MigrationSetName | components/wp-operator/internal/provisioning/identifiers.go:94-101 | prefix, namespace, application and suffix joined by hyphens while these have at most 236 characters, and always within 253 |
| Identifiers.CredentialNamesAgreeIff | components/wp-operator/internal/provisioning/identifiers.go:81-89 | two credential names agree if and only if their full spellings do, or shortening makes them agree in kept characters and hash |
| Identifiers.MigrationNamesAgreeIff | components/wp-operator/internal/provisioning/identifiers.go:94-101 | the same for migration set names |
| Identifiers.ValidationIsExact | components/wp-operator/internal/provisioning/identifiers.go:25-33 | a namespace, else an application name, is refused exactly when it has two hyphens in a row anywhere |
| Identifiers.DatabaseNameUnambiguousIff | components/wp-operator/internal/provisioning/identifiers.go:25-64 | the untruncated database name identifies namespace and application if and only if neither has exactly two hyphens in a row between other characters |
| Identifiers.DatabaseNameInjective | components/wp-operator/internal/provisioning/identifiers.go:25-64 | what the validation accepts is injective when untruncated |
| Identifiers.DatabaseNamesAgreeIff | components/wp-operator/internal/provisioning/identifiers.go:44-64 | accepted pairs share a database name, truncated or not, if and only if they are the same, or two long names agree in 47 characters and in 15 of their hashes, or one of 63 characters spells what the other is shortened to |
| Identifiers.DoubleHyphenCollides | components/wp-operator/internal/provisioning/identifiers.go:25-33 | two pairs the validation refuses share a database name |
| Identifiers.UsernameDetermines | components/wp-operator/internal/provisioning/identifiers.go:37-73 | an untruncated user name determines namespace, application and sanitised user name |
| Identifiers.UsernamesAgreeIff | components/wp-operator/internal/provisioning/identifiers.go:37-73 | the same condition for user names, which tell users apart up to their sanitised form |
| RedisDeadline.DeadlineIsExact | components/execution-host/src/redis_client.rs:99-114 | the deadline is the exact sum, accepted if and only if the microseconds are valid and it is at most 2^53 - 1 |
| RedisDeadline.ScriptIsExact | components/execution-host/src/redis_client.rs:8-23 | for such a deadline the script's rounded comparison is exact at every server time |
| RedisDeadline.NoLateWrite | components/execution-host/src/redis_client.rs:55-97 | for every delay and clock offset, an accepted mutation runs strictly before the invocation's deadline |
| RedisDeadline.PromptIsAccepted | components/execution-host/src/redis_client.rs:55-97 | with a microsecond left and no delay the mutation is accepted |

## Left out

- Transports and runtimes (gRPC, NATS, HTTP, wasmtime, SQL, the Kubernetes client): they appear only as steps that succeed, fail or are delayed.
- Adoption and attestation of children created by older versions, and inventories of an earlier lifetime of the same Application name: the protocol has one lifetime and one labelling.
- Stale reads of Secrets: a Secret's absence is taken as confirmed, like a child's.
- Route replication to the gateway: an upsert broadcasts only new routes, so equality with the store is not a theorem there.
- SQL pools in a configuration diff, metric definitions beyond carrying them, and Redis settings: copied through without decisions.
- Agreement between loaded modules and the registry while asynchronous preparations are in flight: a load submitted before an eviction may register after it.
- A bound of capacity plus one on queued messages: the sweep drains the channel while the dispatcher may hold a message, so that figure is not claimed, and queue breaches are counted but not excluded.
- Histograms, high-water marks, label values and log lines: only the integer counters of the conservation laws are kept; outcomes of queued messages and tasks are dropped with them.
- InventoryProgress.CleanupMustFinish: says nothing about steps of the Application controller that take effect after the Application is gone; it covers runs without any, or from the point where that controller has seen the deletion and is idle.
- InventoryPlans.ProvisioningSucceeds: success is promised for a reconcile that nothing interferes with, and so in the rows beside it; one that is overtaken gives up and starts again, and then the safety theorems apply.
- SupervisorService.MessageIsAnswered: likewise follows one message through steps that nothing comes between; `AnswersAreEarned` and the theorems on revocation cover every other interleaving.
- Invocation.EveryPermitReturns: bounds the steps of an invocation by the tasks its guest spawns; that a guest exits is not promised.
- Supervisor: cancelling sets the flag and marks the execution in one step there; the two steps and their races are `Invocation.dfy`.
- Invocation: `finish` takes an ended task and collects it in one step, since nothing else collects at that point; the guest's own host calls are not modelled.
- Poisoned locks: no modelled operation panics while holding one.
- ModuleRegistry: the deadline is a flag of each registration; what is compiled is only its size.
- ModuleCache: upload and response semaphores, body timeouts and authentication are not modelled; `verify` stands for the size, magic and digest checks.
- PendingReplies: connection loss is the closing of a session; payload limits and deadlines of requests are not modelled.
- Redis: what `set`, `delete` and `increment` do to the key is not modelled, only whether the script reaches them.
- Truncated PostgreSQL names: that the collisions named by `DatabaseNamesAgreeIff` do not happen rests on the hash and is not claimed.
