# Smalux control plane: a verified model

Smalux is a monitoring system of Agents and a Server. This project models the Agent's control plane in Dafny and
proves what its parts keep over whole runs. `dafny verify dfyconfig.toml` checks everything.

| part | files |
|---|---|
| remote job controller over the Scheduler's Job table | `Scheduling`, `Reconciliation`, `Batches`, `Definitions`, `JobPolicy`, `RemoteJobs`, `Agreement`, `Snapshots`, `Maintenance`, `Enforcement`, `Runs`, `Configurations`, `SafetyLimits`, `CommandVerdicts`, `SnapshotGates`, `SnapshotAcceptance`, `LocalJobs`, `Replication`, `Drift`, `TornSnapshots`, `Idempotency`, `ExampleRuns`, `ControllerObject` |
| queue of due runs | `ReadyQueues`, `QueueLaws`, `QueueOrder` |
| plugin manager | `PluginManagers`, `ManagerLaws`, `SnapshotLaws`, `SnapshotVerdicts`, `ManagerRuns`, `ManagerExamples`, `ManagerObject` |
| its health rounds and snapshots interleaved | `Interleaving`, `InterleavingLaws`, `InterleavingRuns`, `LaunchRecords`, `Overlaps`, `SecondShutdowns`, `WrongCharges`, `TakingTurns`, `OverlapRuns` |
| Agent and Worker over a pipe | `WorkerRpc`, `WorkerRpcLaws`, `TaskKinds`, `WorkerCancels`, `Framing` |
| registration and the state file | `StateFiles`, `Registration` |
| outboxes and event numbers | `Outboxes`, `EventNumbers`, `OutboxObject` |
| plugin schemas | `Schema`, `SchemaLaws`, `SchemaForms`, `SchemaCollisions` |
| shared values, sorting | `Basics`, `Ordering` |

Code that updates fields in place is a class whose methods are proved equal to a specification function; the laws are
lemmas about those functions. Concurrent protocols are step systems whose steps end where the code waits, and laws
about them hold for every interleaving and every crash point. Hash maps are walked in an order that is a parameter, so
nothing depends on it.

## What is assumed

- For agreement: the Scheduler does not change the version of an owned Job by itself, and no snapshot has been torn
  after it moved an owned Job (`Runs.Admissible`). Both can happen. `ReplaceAllAgreesIff` says exactly when the second
  does, and `Drift` and `TornSnapshots` what follows from either.
- For `DriftIsForever` and `TearIsFinal`: by itself the Scheduler neither lowers the version of an owned Job nor creates
  a Job under an owned id (`Drift.Forward`).
- For `FaithfulInEveryState`: what the Scheduler changes by itself about an owned Job, besides its lifecycle state, it
  changes under a higher version, and it creates no Job under an owned id (`Configurations.Truthful`). For
  `SafeInEveryState`: changes from outside, of limits too, leave no Job beyond the limits.
- Replication and Job revisions need no such assumption. The network may lose, repeat and reorder commands; a delivered
  command is one that some Server history explains (`Replication.Sent`), and a clear that fails, fails on its first Job
  (`FailedClear` says what another one does).
- Protobuf encodings are parameters that can be read back. Hash functions are not modelled, only what is hashed.
- Clocks are arguments and do not run backwards. The outcome of sending, launching, saving and cron lookup is an
  argument.

## Where the code differs from what it says

Each point is a lemma with the exact condition.

- A batch reconcile, and so `ReplaceAll`, is described as free of partial effects. A new cron trigger without a future
  occurrence passes the checks and fails during the commit (`ReconcileAtomicity`, `ReplaceAllTears`). Owned Jobs are then
  changed or gone while the index still has them, and Jobs are installed that nobody owns; no later snapshot repairs
  either (`TornSnapshotExists`, `TearIsFinal`, `OrphanBlocks`).
- An update is meant to equal an installation; an absent coalescing or capacity option keeps the old value instead of
  inheriting the default (`UpdateEqualsInstall`, `CatchUpUpdateRefused`).
- After an automatic disable the recorded generation is behind for good, and no snapshot or clear is accepted until
  the Agent restarts (`DriftIsForever`).
- A policy change is meant to stop what it forbids. It stops at the first refused Job that is out of step, having been
  saved, and leaves every refused Job walked after it running (`UpdatePolicyExact`, `ForbiddenGoesOn`); a plugin pause
  stops the same way, unmarked (`PausePluginExact`).
- A pop that finds nothing to start discards the keys of the runs it skipped (`CoverageExact`, `BlockedRunIsLost`);
  a run migrated to a lower priority leaves its higher key and is still served first (`MigrateInOrderIff`,
  `LoweredIsServedFirst`).
- A snapshot with a configuration error behind launched Workers leaks them (`SnapshotLeaks`); a late acknowledgement
  withdraws a newer pause notice (`AckKeepsNoticesIff`).
- Nothing in the plugin manager keeps a health round and a snapshot apart, and both work on a copy of the entries. A
  snapshot that swaps after a round has recorded a failure puts the dead process back as running (`DeadEntriesExact`,
  `DeadPutBack`), so that it is shut down again, any number of times (`ShutsAgainIff`, `AnyNumberOfTimes`). A restart
  keeps the generation, so the generation fence lets a failure pass that belongs to another process (`StrayExact`,
  `ChargedToAnother`), and a pause recorded before the notices are cleared is not reported (`EndKeepsNoticesIff`). The
  Agent's own event loop awaits both in turn (`main.rs` lines 481 and 554), and then none of this happens
  (`OncePerProcess`).
- A saved state survives one crash. Two crashes, the second in the save that follows a recovery from the backup, lose
  a registration the Server has committed (`SaveIsSafeIff`, `TwoCrashesForget`).
- A cancelled call is described as waiting for a confirmation or a result. Any reply counts as the cancellation, a success
  included (`CancelRaceEnds`, `NoReplyAfterCancel`).
- Sorting descriptor files can change which of two definitions of one name counts, and then what was encoded can be
  refused (`CollisionSwapsDefinition`, `EncodedIsAcceptedIff`).
- A blank kind can be added to the policy and then makes the saved policy unreadable (`BlankKindLocksOut`).

## Model

| member | source | states |
|---|---|---|
| Reconciliation.ReconcileApplies | crates/smalux-agent/src/scheduler/runtime/engine/management.rs:16-103 | An accepted batch whose new triggers all fire is applied in full: each update leaves the patched entry (one or two versions up), deletions leave, additions appear at version 1, every other Job is untouched, and the key set is exactly old minus deleted plus added |
| Reconciliation.ReconcileCommits | crates/smalux-agent/src/scheduler/runtime/engine/management.rs:16-103 | Whether or not they fire: an accepted batch commits its updates, its deletions and exactly the additions before the first trigger without a future occurrence, touches nothing else, and fails exactly when there is such a trigger |
| Reconciliation.ReconcileAtomicity | crates/smalux-agent/src/scheduler/runtime/engine/management.rs:16-103 | The batch is not all-or-nothing: after its checks pass it fails exactly when some new trigger has no future occurrence, and it then left the table unchanged exactly when there was nothing to update or delete and the first addition is the one that fails |
| Reconciliation.UpdatesEffect | crates/smalux-agent/src/scheduler/runtime/engine/management.rs:195-344 | A checked list of updates commits without error and gives every named Job its new entry and no other |
| Reconciliation.DeletionsEffect | crates/smalux-agent/src/scheduler/runtime/engine/management.rs:397-425 | A checked list of deletions commits without error and removes exactly the named Jobs |
| Reconciliation.AdditionsEffect | crates/smalux-agent/src/scheduler/runtime/engine/management.rs:106-190 | A checked list of additions whose triggers fire installs exactly those Jobs |
| Reconciliation.AdditionsStop | crates/smalux-agent/src/scheduler/runtime/engine/management.rs:106-190 | Additions are installed in order, exactly up to the first trigger that never fires; that one fails the batch and the ones before it stay |
| Batches.ReconcileDone | crates/smalux-agent/src/scheduler/runtime/engine/management.rs:16-103 | A batch that reports success has applied every update, made every deletion, installed every addition and left every other Job alone, however few versions are left |
| Batches.ReconcileAdvances | crates/smalux-agent/src/scheduler/runtime/engine/management.rs:16-103 | Whether a batch succeeds, is refused or stops half way: a Job it does not add has left, or is as it was, or has a higher version |
| SafetyLimits.ValidatorsExact | crates/smalux-agent/src/scheduler/runtime/timing.rs:62-114 | The trigger and cancellation checks together accept exactly the Jobs within the limits, told field by field: pending limit, interval, cron expression, catch-up with a queue that loses nothing, retry bounds, no timeout on work that cannot be interrupted |
| SafetyLimits.SafeInEveryState | crates/smalux-agent/src/scheduler/runtime/engine/management.rs:16-425 | In every state of every run, refused, torn and half-done commands included, every Job in the Scheduler is within the limits, given that what happens outside the controller keeps to them |
| Definitions.UpdateEqualsInstall | crates/smalux-agent/src/remote_jobs.rs:854-876 | Updating with the full patch equals a fresh installation in every field except coalescing and capacity, and in those exactly when the new options set them or the old value is the new trigger's default |
| ExampleRuns.UpdateKeepsCapacity | crates/smalux-agent/src/remote_jobs.rs:462-528 | A run: a Job installed with lossy queue policies and made a one-time Job keeps them, where a fresh installation has lossless ones |
| Definitions.CatchUpUpdateRefused | crates/smalux-agent/src/scheduler/runtime/timing.rs:13-114 | For every trigger: a definition that would install is refused as an update exactly when it is a catch-up trigger and a queue policy is inherited from a Job that had a lossy one |
| ExampleRuns.CatchUpRefusedOnce | crates/smalux-agent/src/remote_jobs.rs:462-528 | A run: the update is refused, the fresh installation of the same definition accepted |
| JobPolicy.Snapshot | crates/smalux-agent/src/remote_jobs/policy.rs:149-155 | The snapshot lists the refused kinds in strictly ascending order, each once |
| JobPolicy.Denies | crates/smalux-agent/src/remote_jobs/policy.rs:57-63 | Binary search in the snapshot answers the same as set membership in the policy, for every policy and kind |
| JobPolicy.ChangeMeans | crates/smalux-agent/src/remote_jobs/policy.rs:225-254 | What each change means: the kind added is refused, the one removed is not, refuse-all and allow-all leave the listed kinds alone, every other kind is as before, and a real change raises the revision by one; a change fails only if it would change something and cannot be saved or numbered |
| JobPolicy.SavedPolicyLoads | crates/smalux-agent/src/remote_jobs/policy.rs:157-177 | A saved policy loads back as itself exactly when it refuses no kind that is blank in the sense of Unicode white space |
| JobPolicy.BlankKindLocksOut | crates/smalux-agent/src/remote_jobs/policy.rs:225-254 | From a policy that loads every saved change gives one that loads, with one exception: a blank kind is accepted and saved, and then the file cannot be loaded |
| Agreement.UpsertKeeps | crates/smalux-agent/src/remote_jobs.rs:426-528 | An upsert keeps agreement and policy, and leaves no trace when refused, exactly unless its patch is accepted at version 2^64-2 and the enabled state has to change too; it never touches a local Job |
| Configurations.UpsertInstalls | crates/smalux-agent/src/remote_jobs.rs:426-528 | An applied upsert leaves in the Scheduler, field by field, what its definition asks for: Task kind, settings, reported revision and interruptibility, trigger, concurrency, pending limit, priority, retry, failure policy, lifecycle state; coalescing and capacity as set, else as the owned Job had them, else from the trigger; the index records definition, revision, version, kind and plugin; no other Job and nothing else changes |
| CommandVerdicts.UpsertVerdict | crates/smalux-agent/src/remote_jobs.rs:426-528 | The verdict on every upsert in every state, from its fields: resync, missing, refused, incomplete, not newer, lost, moved, not within the limits, no next occurrence, no version left, full, someone else's, applied |
| Agreement.DeleteKeeps | crates/smalux-agent/src/remote_jobs.rs:530-561 | A delete keeps agreement, touches no local Job, and leaves no trace when refused |
| CommandVerdicts.DeleteVerdict | crates/smalux-agent/src/remote_jobs.rs:530-561 | The verdict on every deletion in every state: applied exactly at the next catalog revision, for an owned UUID at the expected Job revision that the Scheduler holds at its generation; it then removes that Job on both sides and nothing else, and otherwise nothing changes |
| Agreement.RunNowKeeps | crates/smalux-agent/src/remote_jobs.rs:563-607 | An immediate run moves one Job one version up on both sides and changes nothing else: no definition, no Job revision, not the catalog revision |
| CommandVerdicts.RunNowVerdict | crates/smalux-agent/src/remote_jobs.rs:563-607 | The verdict on every immediate run in every state, the expected revision and the policy of the moment included; applied, it moves one Job one version up on both sides and changes nothing else |
| Agreement.PlanIds | crates/smalux-agent/src/remote_jobs.rs:690-738 | The planned updates, additions and deletions are exactly the owned Jobs whose definition changed, the snapshot ids not owned, and the owned ids not in the snapshot, hence pairwise disjoint |
| Agreement.IndexAfterFacts | crates/smalux-agent/src/remote_jobs.rs:747-777 | After a snapshot the index has exactly the snapshot's ids, each with its definition and the generation the Scheduler holds |
| Snapshots.PlanEffect | crates/smalux-agent/src/remote_jobs.rs:609-778 | What the Scheduler makes of an accepted plan: with firing triggers exactly the local Jobs, unchanged, and the snapshot's Jobs; otherwise an error after the updates, the deletions and the additions before the trigger |
| Snapshots.FinalCountExact | crates/smalux-agent/src/remote_jobs.rs:678-689 | The count checked against the Scheduler's capacity is the exact size of local Jobs plus snapshot Jobs |
| Snapshots.ReplaceAllKeeps | crates/smalux-agent/src/remote_jobs.rs:609-779 | A snapshot is applied exactly when it passes the checks and its new triggers fire, and then the controller owns exactly it, in agreement and within policy; a refused one changes nothing, unless it passed the checks and stuck on a trigger, and then only the Scheduler moved, as far as the commit got |
| Snapshots.ReplayChangesNothing | crates/smalux-agent/src/remote_jobs.rs:691-777 | Replaying the snapshot already held plans nothing and changes nothing, so a Job disabled by policy or pause is not enabled again |
| Snapshots.ReplaceAllTears | crates/smalux-agent/src/remote_jobs.rs:609-779 | A refused snapshot has changed the Scheduler exactly when it sticks on a new trigger and anything precedes that addition |
| Snapshots.ReplaceAllAgreesIff | crates/smalux-agent/src/remote_jobs.rs:609-779 | A snapshot breaks the agreement exactly when it sticks on a new trigger and changes or drops an owned Job |
| SnapshotGates.GatesDecide | crates/smalux-agent/src/remote_jobs.rs:609-711 | A snapshot reaches the Scheduler exactly if, from its fields: the revision is set and not older than the catalog; no definition is without UUID, repeated, refused or incomplete; every owned Job is in the Scheduler at its generation; none of its Jobs is someone else's; the Jobs outside the index and its own fit; no Job revision goes back, and one that stays keeps its definition. Otherwise nothing changes and the first of these that fails decides the verdict, among definitions and owned Jobs the first that fails |
| SnapshotAcceptance.SnapshotAppliedIff | crates/smalux-agent/src/remote_jobs.rs:609-779 | A snapshot is applied exactly if those gates are open and each changed and each new Job is within the limits and has a next occurrence; with the gates open the only other verdict is that the Scheduler is unavailable |
| Configurations.SnapshotInstalls | crates/smalux-agent/src/remote_jobs.rs:690-779 | An applied snapshot leaves each changed or new Job in the Scheduler and the index as its definition asks for, field by field, an unchanged one exactly as it was, and every Job that is neither owned nor listed as it was; it owns exactly the listed ids |
| Configurations.FaithfulInEveryState | crates/smalux-agent/src/remote_jobs.rs:390-779 | In every state of every run, torn snapshots and half-done upserts included: no owned Job is behind its recorded generation, and one that is at it carries its definition's configuration |
| Configurations.ConfiguredInEveryState | crates/smalux-agent/src/remote_jobs.rs:390-779 | With a quiet Scheduler and no tear, every owned Job is in the Scheduler and carries its definition's configuration in every reachable state |
| SnapshotGates.RevisionsMoveOnward | crates/smalux-agent/src/remote_jobs.rs:462-711 | Over any run, whatever the commands and the Scheduler do: while a Job stays owned its revision never falls, and another definition comes only with a higher revision |
| Enforcement.UpdatePolicyExact | crates/smalux-agent/src/remote_jobs.rs:183-216 | For every state, in agreement or not, and every walk: a saved policy change takes effect; it disables exactly the refused Jobs before the first that cannot be disabled; it is reported as done exactly if every refused Job can be; and the policy is in force exactly if every refused Job from that one on was not enabled anyway |
| Enforcement.PausePluginExact | crates/smalux-agent/src/remote_jobs.rs:339-380 | For every state and every walk: a pause disables exactly the plugin's Jobs before the first that cannot be disabled, and is marked and reported as done exactly if all can be |
| Maintenance.UpdatePolicyKeeps | crates/smalux-agent/src/remote_jobs.rs:183-216 | In agreement a saved policy change disables exactly the owned Jobs it refuses, one version up on both sides, and nothing else changes; one that makes no difference or is not saved changes nothing, and only the latter fails |
| Maintenance.PausePluginKeeps | crates/smalux-agent/src/remote_jobs.rs:339-380 | In agreement a pause disables exactly the plugin's Jobs, one version up on both sides, and changes nothing else but its mark; a repeated notice does nothing |
| Maintenance.ClearKeeps | crates/smalux-agent/src/remote_jobs.rs:303-336 | A clear in agreement removes exactly the owned Jobs and restarts at revision 0 |
| Maintenance.ClearSucceedsIff | crates/smalux-agent/src/remote_jobs.rs:303-336 | A clear succeeds exactly when every owned Job is in the Scheduler at its recorded generation |
| Runs.CommandKeeps | crates/smalux-agent/src/remote_jobs.rs:240-300 | A command that is not applied has changed nothing, with exactly one exception, a torn snapshot, and that answer is never remembered; every command keeps agreement and policy exactly unless it is a snapshot torn after it moved an owned Job |
| Runs.StepKeeps | crates/smalux-agent/src/remote_jobs.rs:240-388 | Every controller operation, and every Scheduler step that leaves owned versions alone, keeps agreement, well-formedness and policy, except a snapshot torn after it moved an owned Job |
| Runs.AgreementInEveryState | crates/smalux-agent/src/remote_jobs.rs:390-779 | In every state before such a tear each owned Job is in the Scheduler at its recorded generation and no enabled one is of a refused kind; generations grow at most two per step |
| LocalJobs.LocalJobsUntouched | crates/smalux-agent/src/remote_jobs.rs:390-779 | Over every run of controller operations, from any state and with nothing assumed, a Job it does not own is never changed, removed or taken over |
| TornSnapshots.TearDrifts | crates/smalux-agent/src/remote_jobs.rs:739-779 | After a snapshot that stuck, an owned Job is out of step exactly if the snapshot changed or dropped it |
| TornSnapshots.TearIsFinal | crates/smalux-agent/src/remote_jobs.rs:643-669 | A tear that moved anything is final: after any further events no snapshot is applied and no clear succeeds |
| TornSnapshots.TearOrphans | crates/smalux-agent/src/remote_jobs.rs:739-779 | A Job installed before the commit stuck is in the Scheduler and belongs to nobody |
| TornSnapshots.OrphanBlocks | crates/smalux-agent/src/remote_jobs.rs:669-676 | After any further operations every snapshot that lists such a Job is refused and changes nothing |
| TornSnapshots.TornSnapshotExists | crates/smalux-agent/src/remote_jobs.rs:609-779 | A concrete run: one Job installed, then replaced by one whose cron never comes round; refused, the first Job gone from the Scheduler and still owned |
| Replication.ReplicaInEveryState | crates/smalux-agent/src/remote_jobs.rs:240-336 | Over every run with lost, repeated and reordered commands and any Scheduler behaviour, in which a clear succeeds or fails on its first Job, the catalog equals the Server's catalog at the controller's own revision |
| Replication.RevisionNeverFalls | crates/smalux-agent/src/remote_jobs.rs:828-852 | The revision never falls in a run without a clear |
| Replication.FailedClear | crates/smalux-agent/src/remote_jobs.rs:303-336 | A failed clear keeps the revision and remains a replica exactly when it failed on the first Job it walked |
| Replication.DigestsAgree | crates/smalux-protocol/src/reconciliation.rs:16-22 | Whatever order the Agent's map and the Server's list have, both digest the same input whenever the Agent is a replica |
| Replication.DigestsTell | crates/smalux-protocol/src/reconciliation.rs:16-22 | Two sides hash the same input exactly when they are at the same revision and, but for revision 0, hold the same definitions |
| Replication.DigestIsSorted | crates/smalux-protocol/src/reconciliation.rs:16-22 | What is hashed is the revision and a permutation of the definitions in ascending order of id |
| Ordering.SortIgnoresOrder | crates/smalux-protocol/src/reconciliation.rs:16-22 | Sorting by pairwise distinct keys gives one sequence for every arrangement of the input |
| Drift.AutoDisableDrifts | crates/smalux-agent/src/scheduler/runtime/engine.rs:353-385 | An automatic disable of an owned Job puts the Scheduler ahead of the index |
| Drift.SnapshotRefused | crates/smalux-agent/src/remote_jobs.rs:643-669 | With one owned Job ahead or gone no snapshot is applied, whatever it holds, and none changes anything |
| Drift.DriftIsForever | crates/smalux-agent/src/remote_jobs.rs:643-669 | Once an owned Job is ahead or gone, then after any further events: still so, no snapshot applied, no clear succeeds |
| Drift.DriftBreaksPolicy | crates/smalux-agent/src/remote_jobs.rs:183-216 | A Job out of step that a saved policy change refuses, wherever it comes in the walk, makes the change fail and leaves every refused Job walked after it as it was, enabled ones included |
| ExampleRuns.ForbiddenGoesOn | crates/smalux-agent/src/remote_jobs.rs:183-216 | A run: one of two Jobs is disabled by the Scheduler itself, then everything is forbidden; the policy is saved, the change fails and the other Job goes on running |
| Idempotency.RememberKeeps | crates/smalux-agent/src/remote_jobs.rs:897-908 | Cache keys equal the eviction queue without duplicates, at most 1024; a new id evicts the oldest exactly when full |
| Idempotency.CommandAnswer | crates/smalux-agent/src/remote_jobs.rs:240-300 | What every command is answered: no UUID is refused at revision 0, a remembered id gets its first answer, neither changes anything; any other is executed once and its verdict and revision are returned, and remembered exactly unless it is `SchedulerUnavailable` or `CapacityExceeded`, at the cost of at most the oldest of 1024 |
| Idempotency.WindowIsExact | crates/smalux-agent/src/remote_jobs.rs:258-281 | Whatever else happens, a remembered command keeps its first result while fewer than 1024 later results were remembered and is forgotten at the 1024th |
| Idempotency.RepeatIsIdle | crates/smalux-agent/src/remote_jobs.rs:258-281 | A repeated command inside the window returns its first answer and changes nothing, so an immediate run fires once |
| Idempotency.ClearLeavesStaleAnswers | crates/smalux-agent/src/remote_jobs.rs:303-336 | A Job is installed, anything happens that leaves its answer in the window, the catalog is cleared: the repeated command still claims to be applied, at a revision the controller no longer has, and changes nothing |
| ControllerObject.RemoteJobController.CacheResult | crates/smalux-agent/src/remote_jobs.rs:897-908 | Caching with its eviction loop, in place: new fields and result are those of the specification function the laws above are about |
| ControllerObject.RemoteJobController.ReplaceAll | crates/smalux-agent/src/remote_jobs.rs:609-779 | The authoritative snapshot, in place: new fields and result are those of the specification function the laws above are about |
| ControllerObject.RemoteJobController.CheckDefinitions | crates/smalux-agent/src/remote_jobs.rs:615-642 | The validation loop of a snapshot, in place: new fields and result are those of the specification function the laws above are about |
| ControllerObject.RemoteJobController.CheckGenerations | crates/smalux-agent/src/remote_jobs.rs:650-669 | The generation check over owned Jobs, in place: new fields and result are those of the specification function the laws above are about |
| ControllerObject.RemoteJobController.BuildPlan | crates/smalux-agent/src/remote_jobs.rs:691-729 | The planning loop, in place: new fields and result are those of the specification function the laws above are about |
| ControllerObject.RemoteJobController.BuildDeletions | crates/smalux-agent/src/remote_jobs.rs:731-738 | The deletion loop, in place: new fields and result are those of the specification function the laws above are about |
| ControllerObject.RemoteJobController.BuildIndex | crates/smalux-agent/src/remote_jobs.rs:751-777 | The index loop, in place: new fields and result are those of the specification function the laws above are about |
| ControllerObject.RemoteJobController.DisableDenied | crates/smalux-agent/src/remote_jobs.rs:195-216 | The disabling loop, using the snapshot's binary search, in place: new fields and result are those of the specification function the laws above are about |
| ControllerObject.RemoteJobController.PausePlugin | crates/smalux-agent/src/remote_jobs.rs:339-380 | Plugin pause, in place: new fields and result are those of the specification function the laws above are about |
| ControllerObject.RemoteJobController.ClearRemoteJobs | crates/smalux-agent/src/remote_jobs.rs:303-336 | The clear loop, in place: new fields and result are those of the specification function the laws above are about |
| ReadyQueues.ReadyQueue.Insert | crates/smalux-agent/src/scheduler/queue.rs:155-168 | Adds a record and one key with the next sequence number, then rebuilds if stale keys pile up |
| ReadyQueues.ReadyQueue.PopDispatchable | crates/smalux-agent/src/scheduler/queue.rs:171-188 | Drains the heap from the top: returns the run whose best live key is greatest among those that may start and puts blocked keys back, or returns nothing with the heap emptied |
| ReadyQueues.ReadyQueue.Select | crates/smalux-agent/src/scheduler/queue.rs:171-188 | The loop with its buffer of blocked keys finds a dispatchable key exactly if there is one, and it is a greatest |
| ReadyQueues.ReadyQueue.MigrateJob | crates/smalux-agent/src/scheduler/queue.rs:220-245 | Changes version and priority of a Job's runs and adds one key each, keeping the old keys |
| ReadyQueues.ReadyQueue.CompactIfNeeded | crates/smalux-agent/src/scheduler/queue.rs:253-271 | Rebuilds the heap with one current key per run exactly when it exceeds twice the runs plus 64 |
| ReadyQueues.ReadyQueue.RemoveOldestTrigger | crates/smalux-agent/src/scheduler/queue.rs:191-199 | Removes the oldest replaceable run of a Job from the records only |
| QueueLaws.SizeBound | crates/smalux-agent/src/scheduler/queue.rs:253-271 | After an insertion or migration the heap has at most twice the pending runs plus 64 keys |
| QueueLaws.MigrateChanges | crates/smalux-agent/src/scheduler/queue.rs:220-245 | A migration gives exactly the Job's runs the new version and priority, changes nothing else about them or about other runs, and adds or removes none |
| QueueLaws.CoverageExact | crates/smalux-agent/src/scheduler/queue.rs:171-188 | Every pending run keeps a key across every operation except exactly a pop while runs are pending and none of them may start, which drops every key |
| QueueLaws.EmptyHandedPop | crates/smalux-agent/src/scheduler/queue.rs:171-188 | A pop that returns nothing empties the heap, keeps the records, and no pending run could start |
| QueueLaws.StrandedThroughout | crates/smalux-agent/src/scheduler/queue.rs:171-188 | A run without a key is served by no pop until it is inserted again, its Job migrated, or the heap rebuilt |
| QueueLaws.BlockedRunIsLost | crates/smalux-agent/src/scheduler/queue.rs:177-186 | After a pop in which nothing could start the next pop returns nothing, whatever it may run |
| QueueLaws.OneRunIsLost | crates/smalux-agent/src/scheduler/queue.rs:171-188 | A run: one insertion and one pop in which it may not start; no later pop serves it |
| QueueLaws.PopServesPlainBest | crates/smalux-agent/src/scheduler/queue.rs:95-107 | When every run has a current key and no better leftover, a pop returns a run that may start, that no other such run precedes by batch, then priority, then due time, and that has the lowest sequence number among its equals, and nothing exactly when none may start |
| QueueOrder.ServesPlainlyIff | crates/smalux-agent/src/scheduler/queue.rs:95-107 | Exactly which queues serve wrongly: every pop, whatever may start, returns the plain choice if and only if every pending run has a key and each run that outranks another also comes before every key of it |
| QueueOrder.FaithfulInOrder | crates/smalux-agent/src/scheduler/queue.rs:95-107 | A queue in which every run has its current key and no better leftover is one of those |
| QueueOrder.StampedNext | crates/smalux-agent/src/scheduler/queue.rs:155-245 | The sequence counter stays ahead of every key across every operation that does not make it wrap around |
| QueueOrder.InsertInOrderIff | crates/smalux-agent/src/scheduler/queue.rs:155-168 | From any queue: after an insertion it is one of those exactly if the heap was rebuilt, or every other run has a key, passes the keys of what it outranks, and reaches the new rank where it outranks the new run |
| QueueOrder.MigrateInOrderIff | crates/smalux-agent/src/scheduler/queue.rs:220-245 | From any queue: the same for a migration and the runs it moves |
| QueueOrder.LoweredIsServedFirst | crates/smalux-agent/src/scheduler/queue.rs:220-245 | A run lowered past another Job's run is still served first by some pop, although the other may start and outranks it |
| QueueOrder.TwoRunsMisserved | crates/smalux-agent/src/scheduler/queue.rs:171-245 | Two insertions and a migration from the empty queue: the next pop returns the lowered run although both may start |
| QueueOrder.TiesInInsertionOrder | crates/smalux-agent/src/scheduler/queue.rs:95-107 | While every run has one key, runs of equal batch, priority and time are served in the order they were inserted |
| QueueOrder.FifoHistory | crates/smalux-agent/src/scheduler/queue.rs:155-168 | Over every history without migrations, repeated runs and rebuilds each key carries its run's place in the order of arrival |
| QueueLaws.EveryPopServesPlainBest | crates/smalux-agent/src/scheduler/queue.rs:155-271 | Over every sequence of operations that leave no better key behind, and in which no pop finds pending runs of which none may start, every pop equals the plain choice of the best run, first among its equals |
| ManagerLaws.PrunedIsFiltered | crates/smalux-agent/src/plugins/manager.rs:546-607 | Pruning the failure deque as it goes gives the full history cut to the window |
| ManagerLaws.CountedExact | crates/smalux-agent/src/plugins/manager.rs:546-607 | The failures counted are the tail of the history that is at most one window older than the latest |
| ManagerLaws.RestartDelayIs | crates/smalux-agent/src/plugins/manager.rs:546-607 | The restart delay is one second, doubles with each failure and stays at 1024 from the eleventh on |
| ManagerLaws.FailedOk | crates/smalux-agent/src/plugins/manager.rs:546-607 | A failure pauses the entry exactly when the failures in the window reach max(1, limit), and otherwise schedules a restart after 2^min(n-1,10) seconds; a new window starts exactly when the failure before has left it |
| ManagerLaws.RestartKeeps | crates/smalux-agent/src/plugins/manager.rs:483-544 | A restart, successful or not, keeps every invariant of entries and processes |
| ManagerLaws.RestartDoes | crates/smalux-agent/src/plugins/manager.rs:483-544 | A restart launches with exactly what the entry shows; if the handshake offers between one and the concurrency asked for, the entry runs with a new process and is otherwise as it was, else one more failure is on record and nothing was launched or shut down |
| ManagerLaws.PollOneDoes | crates/smalux-agent/src/plugins/manager.rs:206-247 | What a poll does about one entry: exited or with a closed pipe, its Worker is shut down once and the failure recorded; alive or not to be inspected, nothing; waiting for a restart that is due, the restart; else nothing |
| ManagerLaws.PollKeeps | crates/smalux-agent/src/plugins/manager.rs:206-247 | An undisturbed health poll keeps every invariant and loses no process |
| SnapshotLaws.SnapshotAllOrNothing | crates/smalux-agent/src/plugins/manager.rs:324-456 | On any error entries, notices and histories are as before; on success exactly the listed plugins run, at the snapshot's revision, with clean records |
| SnapshotVerdicts.SnapshotVerdict | crates/smalux-agent/src/plugins/manager.rs:324-430 | Read off the request: a snapshot succeeds exactly if every configuration is well-formed and is reused or starts; it fails on a launch or on a configuration exactly if that is the first thing to go wrong |
| SnapshotVerdicts.NothingLeftOver | crates/smalux-agent/src/plugins/manager.rs:394-456 | A snapshot that succeeds or fails on a launch leaves no process that no entry holds; after a failed launch each process this call had launched was shut down once |
| SnapshotVerdicts.SnapshotLeaks | crates/smalux-agent/src/plugins/manager.rs:341-405 | A call leaves processes that no entry holds exactly when some configuration is invalid (a zero number or an earlier equal key), everything before it is valid and is reused or starts, and one of those needed a new process; and then exactly the processes launched by then |
| ManagerExamples.LeakExists | crates/smalux-agent/src/plugins/manager.rs:341-360 | A run: a new plugin and behind it one with version zero; no entry, one process left |
| SnapshotVerdicts.ReuseAndReplacement | crates/smalux-agent/src/plugins/manager.rs:361-451 | A successful snapshot keeps exactly the running Workers whose configuration, schema version and concurrency are those it asks for, under their generation, and shuts each other one down once |
| SnapshotVerdicts.SnapshotAsAsked | crates/smalux-agent/src/plugins/manager.rs:341-456 | A successful snapshot leaves an entry for each configuration and no other, each with the configuration, schema version and limited concurrency asked for, running, with a clean record and this revision, with the Worker, concurrency and generation that already ran that way or a new Worker that offers between one and what was asked; and no notice |
| LaunchRecords.LaunchedAsShown | crates/smalux-agent/src/plugins/manager.rs:361-544 | In every state of every interleaving, Workers kept by a snapshot and restarts that outlive one included: the process an entry holds was launched for that plugin with exactly the configuration, schema version and concurrency the entry shows |
| ManagerRuns.InvInEveryState | crates/smalux-agent/src/plugins/manager.rs:206-607 | With polls and snapshots one after the other, in every reachable state: deque equals windowed history, paused exactly at the limit, a live Worker exactly when running, generations and processes unshared, every process launched alive or shut down once |
| Interleaving.UndisturbedRound | crates/smalux-agent/src/plugins/manager.rs:206-247 | The steps of a health round with nothing in between are the poll as one operation |
| Interleaving.UndisturbedSnapshot | crates/smalux-agent/src/plugins/manager.rs:324-456 | The steps of a snapshot (copy, one per configuration, swap or clean-up, shutdowns, clearing of notices) with nothing in between are the snapshot as one operation |
| InterleavingRuns.SoundInEveryState | crates/smalux-agent/src/plugins/manager.rs:206-607 | In every state of every interleaving of those steps with acknowledgements and shutdown: breaker state follows the history; generations and processes are not shared; every process launched is alive or was shut down; a live one waits for its shutdown, or is held by its entry and is the one all notes of its generation name, or is known only to its snapshot, or to nobody |
| Overlaps.DeadEntriesExact | crates/smalux-agent/src/plugins/manager.rs:335-433 | Exactly which entries hold a dead process after each step, from those before it: a look adds its entry while that holds the process, a report takes it out, a swap adds those it gives back a process they have given up since its copy, or that was dead already |
| SecondShutdowns.NotedLive | crates/smalux-agent/src/plugins/manager.rs:206-223 | The process of a copied entry is alive exactly if the entry holds it, alive, or it waits for the snapshot to shut it down and nobody has |
| SecondShutdowns.ColdExact | crates/smalux-agent/src/plugins/manager.rs:431-451 | Exactly which replaced processes somebody else has shut down before the snapshot does, step by step |
| SecondShutdowns.ShutsAgainIff | crates/smalux-agent/src/plugins/manager.rs:212-233 | In any interleaving a process is shut down again exactly when a round finds dead what its copy names and that is not alive by the above, a snapshot shuts down a replaced process that somebody has, or everything is shut down while an entry holds a dead process |
| WrongCharges.StrayExact | crates/smalux-agent/src/plugins/manager.rs:335-433 | Exactly when a note of the round comes to name another process than the entry of its generation: by a swap whose copy has that generation with another process |
| WrongCharges.MischargedIff | crates/smalux-agent/src/plugins/manager.rs:546-562 | A failure is charged to an entry that does not hold the process that failed, or does not wait for the restart that failed, exactly if that note is astray |
| WrongCharges.ChargedRightly | crates/smalux-agent/src/plugins/manager.rs:546-562 | The generation fence: unless the note is astray, a failure is charged to an entry exactly if that entry still holds the process |
| WrongCharges.LostOnlyBySnapshots | crates/smalux-agent/src/plugins/manager.rs:341-360 | In any interleaving a process ends up with nobody exactly when a configuration is refused after its snapshot launched something, and then exactly what it launched does |
| WrongCharges.EndKeepsNoticesIff | crates/smalux-agent/src/plugins/manager.rs:452-454 | The end of a snapshot keeps every pause reported exactly if none was recorded, and not acknowledged, since the swap |
| TakingTurns.OncePerProcess | crates/smalux-agent/src/main.rs:479-554 | If rounds, snapshots and shutdown take turns, as the Agent's event loop makes them, then in every state no process was shut down twice, no entry holds a dead process but the one being reported, and no failure is charged wrongly |
| OverlapRuns.DeadPutBack | crates/smalux-agent/src/plugins/manager.rs:335-433 | A run: a snapshot waits for a new plugin while a round shuts down another; the swap makes that run again with its dead process, and the next round shuts it down a second time while the entry holds it |
| OverlapRuns.ChargedToAnother | crates/smalux-agent/src/plugins/manager.rs:514-562 | A run: a plugin is restarted behind a snapshot's copy; the swap puts the old process back under the same generation, and the failure of the new one is charged to it |
| OverlapRuns.AnyNumberOfTimes | crates/smalux-agent/src/plugins/manager.rs:206-433 | For every number there is a run in which one process is shut down that often |
| ManagerRuns.AckKeepsNoticesIff | crates/smalux-agent/src/plugins/manager.rs:282-301 | An accepted acknowledgement leaves a pause unreported exactly when it names another runtime revision than the paused, unacknowledged entry; it withdraws that plugin's notice and touches no other, and one that was not accepted changes nothing |
| ManagerExamples.LateAnswerLosesNotice | crates/smalux-agent/src/plugins/manager.rs:282-301 | A run: paused, resumed by a new revision, paused again, and the late answer to the first pause withdraws the notice of the second |
| ManagerRuns.PausesStayReported | crates/smalux-agent/src/plugins/manager.rs:259-301 | With matching acknowledgements every paused entry was acknowledged or has a notice that names its runtime revision, its failures, when their window started and when it was paused, in every reachable state |
| ManagerObject.PluginManager.BuildWorkers | crates/smalux-agent/src/plugins/manager.rs:340-430 | The loop that reuses or launches, in place: the new state is that of the specification function |
| ManagerObject.PluginManager.PollHealth | crates/smalux-agent/src/plugins/manager.rs:206-247 | The poll loop over a copy of the entries, in place: the new state is that of the specification function |
| ManagerObject.PluginManager.ShutdownEach | crates/smalux-agent/src/plugins/manager.rs:400-402 | The loop that shuts down what a failed snapshot had started |
| ManagerObject.PluginManager.RecordFailure | crates/smalux-agent/src/plugins/manager.rs:546-607 | Failure accounting, in place: the new state is that of the specification function |
| ManagerObject.PluginManager.Retain | crates/smalux-agent/src/plugins/manager.rs:563-566 | The pruning loop keeps exactly the failures inside the window |
| WorkerRpc.HandshakeAgrees | crates/smalux-plus/smalux-plus-core/src/worker.rs:121-158 | The offered concurrency is the smaller limit and always one the Agent accepts |
| WorkerRpcLaws.StepKeeps | crates/smalux-plus/smalux-plus-core/src/worker.rs:160-312 | Every step of either side keeps the protocol invariant |
| WorkerRpcLaws.EveryStateIsSound | crates/smalux-agent/src/plugins/worker.rs:246-304 | In every state of every interleaving: an answer carries the call's own id and the outcome its task came to; a finished call is unregistered unless abandoned; at most min(limits) tasks are inside execute; no task reports twice; nothing is refused as a duplicate |
| TaskKinds.TakeDecides | crates/smalux-plus/smalux-plus-core/src/worker.rs:202-312 | What the Worker makes of its next request: a known task is queued, an unknown one refused, a Cancel marks its task while it can be reached and is refused after that; nothing else changes |
| TaskKinds.KindDecides | crates/smalux-plus/smalux-plus-core/src/worker.rs:202-213 | In every state after a call was written: the Worker has a task for it only if it knows the kind and has refused it as unknown only if not, and once its request was taken one of the two holds; an answered result or unknown-task error was right |
| WorkerRpcLaws.CompletesOnce | crates/smalux-agent/src/plugins/worker.rs:345-456 | A completion never changes, nor does the reply a call was given; later frames for it are lost |
| WorkerRpcLaws.EndsAsItShould | crates/smalux-agent/src/plugins/worker.rs:345-456 | Each step ends at most the call it is about, with the completion its kind and the call's deadline call for, and the Worker is given up exactly on its exit, on a request that cannot be written in time, and after the deadline on a Cancel that cannot be written in time or is not answered |
| WorkerRpcLaws.EveryCallEnds | crates/smalux-agent/src/plugins/worker.rs:345-456 | A call takes at most four steps of its own, and until it ends a timer step is possible that brings the end nearer, also after the reader has closed |
| WorkerCancels.CancelsArrive | crates/smalux-plus/smalux-plus-core/src/worker.rs:295-312 | In every state of every interleaving a call that waits for its cancellation has its Cancel under way or its request told to stop, and nothing is told to stop unless its own call asked |
| WorkerRpcLaws.CancelRace | crates/smalux-plus/smalux-plus-core/src/worker.rs:295-312 | A Cancel that meets a task about to report is answered twice, unknown request first |
| WorkerRpcLaws.CancelRaceEnds | crates/smalux-agent/src/plugins/worker.rs:429-456 | Whatever answers a Cancel, a success or a closed reader included, ends the call as cancelled, or as timed out after its deadline, and the answer is lost |
| WorkerRpcLaws.NoReplyAfterCancel | crates/smalux-agent/src/plugins/worker.rs:395-456 | In any interleaving, once a Cancel is written no reply is ever passed on to the caller |
| WorkerRpcLaws.StepKeepsWorker | crates/smalux-plus/smalux-plus-core/src/worker.rs:239-268 | Permits plus tasks inside execute always equal the agreed concurrency, and exactly the unfinished tasks can be cancelled |
| StateFiles.CrashKeepsOldOrNew | crates/smalux-agent/src/client/state/file_store.rs:71-102 | A crash or failing call at any point of a save leaves the old or the new state, except exactly between removing a backup that was the only copy and installing the new file, where it leaves nothing |
| StateFiles.SaveIsSafeIff | crates/smalux-agent/src/client/state/file_store.rs:71-102 | A save is safe against every crash exactly when the main file is present or there is nothing to lose |
| StateFiles.ReportIsTrue | crates/smalux-agent/src/client/state/file_store.rs:71-102 | A save that reports success has replaced the state; one that reports an error left what loads as it was, unless it ended in that gap |
| StateFiles.MainGoesMissingOnlyMidway | crates/smalux-agent/src/client/state/file_store.rs:89-98 | From a present main file the only point without one is between setting it aside and installing the new one, and the backup then holds it |
| StateFiles.FileAgentStateStore.Save | crates/smalux-agent/src/client/state/file_store.rs:71-102 | The save in place passes through exactly the listed disk states, in order, and reports success exactly when they complete |
| Registration.CommittedIsRemembered | crates/smalux-agent/src/client/connection.rs:65-106 | With crashes anywhere but in the gap: what the Server has committed the disk holds, pending or registered, with the same identity, agent and registration id; the Server never commits two; a disk that says registered is right |
| Registration.NeverMovesBack | crates/smalux-agent/src/client/connection.rs:146-197 | Over every such run the stored identity never changes, the stage never moves back, and a pending registration stays the same one |
| Registration.KeysChangeOnlyOnRequest | crates/smalux-agent/src/client/connection.rs:146-197 | Over runs that avoid the gap, the keys of a stored registration, pending or complete, are those of any earlier state or those a change of keys since then asked for |
| Registration.PrepareDecides | crates/smalux-agent/src/client/connection.rs:146-197 | A repeated registration goes on exactly with a token and the same agent id, keys and registration id, and is then the pending one; otherwise the Agent stops |
| Registration.StepKeeps | crates/smalux-agent/src/client/connection.rs:256-268 | Every step keeps the invariant, including repeated registrations, which pass only with the same identity, keys and ids |
| Registration.LostIffGap | crates/smalux-agent/src/client/state/file_store.rs:89-98 | A step loses the stored state exactly when its save dies in the gap, and the next start then makes up a new identity |
| Registration.TwoCrashesForget | crates/smalux-agent/src/client/connection.rs:85-99 | For every registration there is a run with two crashes after which the Server has committed it and the disk is empty |
| Outboxes.EveryRunAccounts | crates/smalux-agent/src/outbox.rs:143-196 | Over every run of submits and flushes without fatal error: delivered followed by pending is the emitted sequence with exactly the discarded items missing, never the latest; counts and multisets add up; the counter is their number (saturating); the queue is within capacity |
| Outboxes.StepAccounts | crates/smalux-agent/src/outbox.rs:59-104 | One submit or flush keeps that account |
| Outboxes.FatalLoses | crates/smalux-agent/src/outbox.rs:152-183 | A fatal error loses one item uncounted exactly on a direct send; a failed flush keeps its item |
| Outboxes.DeliveryIsFinal | crates/smalux-agent/src/outbox.rs:168-183 | Events only ever append to what was delivered |
| EventNumbers.NumbersIncreaseIff | crates/smalux-agent/src/main.rs:686-703 | Event numbers strictly increase exactly while at most 2^64-1 events were emitted |
| EventNumbers.GapsAreDrops | crates/smalux-agent/src/main.rs:686-703 | The Server sees strictly increasing numbers, and the numbers missing over delivered and pending add up to the drop counter |
| EventNumbers.JobEventEmitter.Emit | crates/smalux-agent/src/main.rs:695-702 | Numbers exactly the reported events, from 1, without gaps |
| OutboxObject.BoundedOutbox.FlushItems | crates/smalux-agent/src/outbox.rs:168-183 | The flush loop sends oldest first until a sending fails, in place |
| OutboxObject.NewOutbox | crates/smalux-agent/src/outbox.rs:109-119 | Zero capacity is refused |
| Framing.StreamRoundTrip | crates/smalux-plus/smalux-plus-core/src/framing.rs:11-62 | Reading the concatenated writes returns the same frames and then end of stream |
| Framing.CutStream | crates/smalux-plus/smalux-plus-core/src/framing.rs:11-35 | Cut anywhere, reading returns exactly the frames that arrived whole and ends cleanly if and only if the cut is on a boundary or inside a length |
| Framing.HeaderRoundTrip | crates/smalux-plus/smalux-plus-core/src/framing.rs:49-51 | The big-endian length reads back |
| Framing.WrittenExactly | crates/smalux-plus/smalux-plus-core/src/framing.rs:37-62 | A frame is written exactly if its body is not empty and at most 8 MiB: the length in four bytes, the most significant first, then the body |
| Framing.HeaderDecides | crates/smalux-plus/smalux-plus-core/src/framing.rs:11-35 | What a read makes of a header: zero or more than 8 MiB is refused before the body is touched, a body that is not all there is refused, else exactly that body is decoded and the rest is left |
| Framing.Pipe.ReadFrame | crates/smalux-plus/smalux-plus-core/src/framing.rs:11-35 | One read, in place: result and remaining bytes are those of the specification |
| Framing.Pipe.WriteFrame | crates/smalux-plus/smalux-plus-core/src/framing.rs:37-62 | One write appends length and body, or reports an error and writes nothing, exactly when the body is empty or too long |
| Framing.Pipe.ReadFrames | crates/smalux-agent/src/plugins/worker.rs:246-258 | The read loop returns every frame up to the end or the first error |
| Schema.CollectMessages | crates/smalux-plus/smalux-plus-core/src/schema.rs:543-571 | The nested loops build the table in which the last definition of a name counts |
| Schema.CollectMessage | crates/smalux-plus/smalux-plus-core/src/schema.rs:554-571 | One message and those nested in it are inserted under their full names, in order |
| SchemaLaws.LastEntryWins | crates/smalux-plus/smalux-plus-core/src/schema.rs:543-571 | A name is in the table exactly if some entry bears it, with the last entry's definition |
| SchemaLaws.CanonicalKeepsTable | crates/smalux-plus/smalux-plus-core/src/schema.rs:374-389 | Stripping source locations and sorting files keeps the table when no name has two different definitions |
| SchemaLaws.CanonicalIdempotent | crates/smalux-plus/smalux-plus-core/src/schema.rs:374-389 | Normalising twice is normalising once, for every set of files, also with repeated file names |
| SchemaLaws.NameKeyOrder | crates/smalux-plus/smalux-plus-core/src/schema.rs:384-386 | Files are ordered by optional name, a missing one first, then by bytes |
| SchemaForms.AcceptedMeans | crates/smalux-plus/smalux-plus-core/src/schema.rs:175-541 | What a reader of an accepted bundle may rely on: tasks, form fields and options are in order and none is listed twice; every message named is in a file and every form field names a field of its message, with a control that suits its type; every default could be entered in its own form; all within the limits |
| SchemaLaws.NormalizedIsValid | crates/smalux-plus/smalux-plus-core/src/schema.rs:175-389 | With no name defined in two ways, the normalised form of a valid bundle is valid and its own normal form |
| SchemaCollisions.NormalizedIsValidIff | crates/smalux-plus/smalux-plus-core/src/schema.rs:175-389 | For every valid bundle: its normalised form is valid, and then its own normal form, exactly if each form over a message whose definition changes by sorting is also valid for the definition in the file with the greatest name |
| SchemaLaws.EncodedIsAccepted | crates/smalux-plus/smalux-plus-core/src/schema.rs:146-166 | With no name defined in two ways: what the checked encoding produces the checked decoding accepts, giving back the normalised bundle, whose own encoding is the same; it refuses exactly the invalid and the too large |
| SchemaLaws.DistinctlyNamedIsAccepted | crates/smalux-plus/smalux-plus-core/src/schema.rs:146-166 | The same for every bundle whose messages have pairwise distinct full names |
| SchemaCollisions.EncodedIsAcceptedIff | crates/smalux-plus/smalux-plus-core/src/schema.rs:146-166 | For every bundle: what was encoded is accepted, giving back the normalised bundle, exactly under that condition; otherwise it is refused |
| SchemaLaws.HashInputIgnoresOrder | crates/smalux-plus/smalux-plus-core/src/schema.rs:169-172 | The hashed bytes and validity ignore source locations and the order of distinctly named files |
| SchemaCollisions.CollisionSwapsDefinition | crates/smalux-plus/smalux-plus-core/src/schema.rs:374-389 | For every set of files and every name: before normalising the definition in the last file counts, afterwards the one in the file with the greatest name, and no name appears or disappears |
| SchemaCollisions.CollisionIsRefused | crates/smalux-plus/smalux-plus-core/src/schema.rs:146-166 | A bundle that was encoded is refused whenever a form uses a field that the other definition does not have |
| SchemaCollisions.RefusedBundleExists | crates/smalux-plus/smalux-plus-core/src/schema.rs:146-166 | For every encoding that can be read back there is a valid two-file bundle that is encoded, unless it is too large, and refused when it is read |

## Left out

- The Scheduler's timers, dispatching, retries and execution: only its Job table and the commands that change it are
  modelled, and of its own steps the automatic disable.
- Replies that never arrive because the Scheduler has stopped in the middle of a command.
- The reschedule mode that keeps the next run time: the controller never asks for it.
- Texts of errors, log lines, job status, disabled reasons and timestamps: copied values with no law of their own.
- The digest of the plugin runtime snapshot: the same sort by distinct keys as the catalog's.
- Wrap-around of the catalog revision and of the Worker generation counter at 2^64.
- Snapshots.ReplaceAllKeeps: asks, like the other laws about several Jobs at once, that owned versions leave room for
  two steps below 2^64; `AgreementInEveryState` shows that 2^63 steps are needed to get there.
- ManagerLaws.PollKeeps: an undisturbed poll; with anything in between, `SoundInEveryState` holds instead.
- ManagerObject.PluginManager.PollHealth: one time is used for a whole poll, which is one operation; its steps, and
  what may come between them, are those of `Interleaving`.
- InterleavingRuns.SoundInEveryState: one health round and one snapshot at a time, as the Agent has it; replacing the map
  and picking the Workers that it replaced are one step, the code taking the lock twice without waiting in between. There
  is no bound on how often a process is shut down (`AnyNumberOfTimes`), and none is promised.
- ManagerObject.PluginManager.RecordFailure: the entry and its notice change together, while the source releases one
  lock before it takes the other.
- WorkerRpc: calls, reader and Worker are steps of one system rather than methods of objects, so that every
  interleaving is covered; frames are delivered whole, and a write that fails delivers nothing. In the code a Cancel whose
  write times out before the deadline may leave part of a frame behind, before a Worker that runs on.
- WorkerRpc.HandshakeAgrees: covers the concurrency agreement only; protocol versions, plugin identity and task kinds of the
  handshake, and the orderly shutdown of a Worker's tasks, are not modelled.
- Registration.StepKeeps: a Noise handshake either authenticates or fails, the Server may refuse at any time, and key
  rotation is reduced to saving a state with other keys.
- StateFiles.FileAgentStateStore.Save: JSON, file permissions and directory creation are not modelled; a finished write is durable.
- SchemaLaws.EncodedIsAccepted: asks that no name has two different definitions, as does `NormalizedIsValid`;
  `EncodedIsAcceptedIff` and `NormalizedIsValidIff` are the statements for all bundles.
- QueueOrder.InsertInOrderIff: asks, as does `MigrateInOrderIff`, that the sequence counter does not wrap around at 2^64.
- Schema: `parse_number` is a parameter that yields a finite number or nothing; runtime form fields, which the source
  does not check either, are opaque.
- The Server, its database and web interface, configuration files, command line, local management IPC and metrics.
