# Verification of the shared volume operator

A Dafny model of the operator that gives pods NFS volumes shared by annotation, and proofs of what its
protocols keep. Five parts, each written in the form of the Go code: objects that methods update are
classes, computed values are functions, and every method is tied to a specification about which the
lemmas are proved.

- **Sync scheduler** (`SyncTimers`, `SyncRaces`): timers that re-arm themselves from their own callback, with
  Start and Stop arriving between the parts of a callback, and then between any two uses of the lock.
- **Pod volume protocol** (`PodAnnotations`, `PodMutation`, `PodProtocol`, `PodRaces`, `PodLeaks`,
  `PodAdmission`, `PodMounts`, `PodOperator`, `PodExamples`): admission creates a claim and a persistent volume
  per volume and namespace and edits the pod; cleanup scans annotations and deletes them.
- **Volume reconcile** (`VolumeDefaults`, `VolumeReconcile`, `VolumeEffects`, `VolumeController`): defaulting,
  server generation, resources, readiness phase, convergence.
- **Spec admission** (`UpdateAdmission`): the order that the update validator induces, and the controller's
  own writes under it.
- **Deletion** (`FinalizerRemoval`, `CleanupNames`, `PodSweeps`, `Teardown`): retry loops against other writers,
  exactness of the name and label tests, order and completeness of the teardown.

Calls to the API server, reads and lists included, may fail in every class; a failed call is not applied. A
class with a `quiet` constant has exactly its specified effect when that constant is set, and keeps the
stated invariants otherwise. Durations and storage quantities are read by parsers that stay abstract.

Some statements are about where the code falls short, each with the exact condition: `BecomesReadyIff`,
`PhaseTrackedIff`, `AddressesAgreeIff`, `EveryReadyHadMomentIff`, `StopEndsChainsIff`, `StartLeavesOneIff`,
`SameKeysThroughoutIff`, `NoneLooseIff`, `SafeThroughoutIff`, `NothingIsLeftIff`, `ClusterClaimStaysIff`,
`VolumeCleanupExactIff`, `ScansAgreeIff`, `ControllerWriteAccepted`, `FoldersAgree`, `PollTells`, `MarkedIff`.
Premises that the code does not establish by itself are spelled out in the lemmas that need them. In
`PodProtocol` admitting and storing a pod is one step, as is a scan with its deletions; `PodRaces` does
without. In `PodLeaks` a run is orderly when no admission ends in an error or happens in the operation
namespace and a pod disappears only after its cleanup finalizer is off, by either way of leaving. In
`PodMounts` pods are created without mounts and volumes of the names that the webhook gives, and updates leave
mounts and volumes alone. References are distinct and generated. A pod that has lost its last finalizer is
gone at once or lingers until its grace period ends, and finalizers of claims and volumes come and go at any
time.

Where comments and code disagree the model follows the code. The comments of the cleanup of a volume speak
of waiting until its volumes are gone; the code gives up after two minutes and takes a failed read for an
absence. They speak of deleting all pods that use the volume; the code looks for annotation keys that neither
the webhook nor the pod controller reads.

`dafny verify dfyconfig.toml` checks everything.

## Model

| member | source | states |
|---|---|---|
| `SyncTimers.SyncController.StopSyncTimer` | internal/controller/sync_controller.go:199-209 | The new state of both maps and of the armed timers: a recorded timer is stopped and both entries of the key go |
| `SyncTimers.SyncController.StartSyncCommon` | internal/controller/sync_controller.go:212-256 | A key that already has a timer is left alone; otherwise one new timer is armed with exactly this spec and interval |
| `SyncTimers.SyncController.StartSyncForSharedVolume` | internal/controller/sync_controller.go:122-148 | Always stops first; starts only a Ready volume with a source, and fails on an unreadable interval |
| `SyncTimers.SyncController.StartSyncForClusterSharedVolume` | internal/controller/sync_controller.go:157-181 | Does not look at the phase, and on an unreadable interval leaves the old timer in force |
| `SyncTimers.SyncController.TimerFires` | internal/controller/sync_controller.go:244-246 | A timer that fires leaves the armed ones, and its callback waits for the answer to its existence check; a Stop can no longer reach it |
| `SyncTimers.SyncController.ScheduledSyncBegin` | internal/controller/sync_controller.go:309-345 | The answer to the existence check of a fired timer: it goes on to the sync, or the timer of its key stops; a failed lookup counts as a volume that is gone |
| `SyncTimers.SyncController.ScheduledSyncEnd` | internal/controller/sync_controller.go:347-381 | The end of a callback: it always re-arms with the captured spec, whether or not there was something to sync |
| `SyncTimers.SyncController.RecoverSyncOperations` | internal/controller/sync_controller.go:733-793 | The state is that of starting each Ready volume with a source in list order; a failed list of cluster volumes is skipped, a failed list of namespaced ones is an error |
| `SyncTimers.StoredGoesOnIff` | internal/controller/sync_controller.go:314-345 | With reads that do not fail the chain goes on, its key untouched, exactly when a namespaced or a cluster volume of its name is stored; otherwise timer and key are gone |
| `SyncTimers.FailedLookupStops` | internal/controller/sync_controller.go:323-337 | A failed lookup stops the chain and what its key has recorded, whether or not the volume is there |
| `SyncTimers.ReturnRearms` | internal/controller/sync_controller.go:347-356 | The end of a callback arms and records one new timer of its key, with the captured spec and interval |
| `SyncTimers.StoredChainsLiveOn` | internal/controller/sync_controller.go:309-356 | Over all runs from any reachable state: while the volume is stored, its lookups do not fail, and nobody stops or restarts its key, the number of chains with its closure stays the same |
| `SyncTimers.StartArmsOwnSpec` | internal/controller/sync_controller.go:122-181 | A Start of either kind that can succeed does, and the armed timer recorded for the key carries the volume's own name, namespace, spec and interval |
| `SyncTimers.RecoveryLeavesOthers` | internal/controller/sync_controller.go:733-793 | Recovery leaves alone every key without a Ready volume that has a source |
| `SyncTimers.NextChains` | internal/controller/sync_controller.go:199-256 | One step raises a key's timers and callbacks, compared with its map entry, only when it is a Start or Stop on that key during one of its callbacks |
| `SyncTimers.ChainsBounded` | internal/controller/sync_controller.go:199-381 | Over all runs: armed timers plus callbacks of a key, from their firing on, never exceed its overlapping Start and Stop calls plus one for its map entry |
| `SyncTimers.BoundIsReached` | internal/controller/sync_controller.go:122-148 | The bound is attained for every n: n Starts that fall into callbacks can leave n + 1 chains of which the map knows one |
| `SyncTimers.StopEndsChainsIff` | internal/controller/sync_controller.go:199-209 | A Stop leaves no chain of its key exactly when none of its callbacks is on the way and it has no armed timer beside the recorded one |
| `SyncTimers.StartLeavesOneIff` | internal/controller/sync_controller.go:122-181 | A Start of either kind leaves exactly one chain under the same condition |
| `SyncTimers.SameKeysThroughoutIff` | internal/controller/sync_controller.go:199-256 | The two maps have the same keys throughout a run exactly when no callback returns while its key is stopped |
| `SyncTimers.OverlappingStopIsLost` | internal/controller/sync_controller.go:199-209 | The failing input of these: a Stop during a callback does not end the chain, and afterwards the two maps have different keys |
| `SyncTimers.KeyNamesOneVolume` | internal/controller/sync_controller.go:214 | Namespaces have no slash, so a timer key determines namespace and name |
| `SyncTimers.SyncDiesOut` | internal/controller/sync_controller.go:314-345 | After a deletion, whatever came before, further callbacks on the key plus chains that can still start one never exceed the chains alive at that moment |
| `SyncTimers.TimersRefineSchedule` | internal/controller/sync_controller.go:122-256 | With atomic callbacks every run refines a plain map from keys to what the latest successful Start gave |
| `SyncTimers.ArmedAreRecorded` | internal/controller/sync_controller.go:199-256 | In such runs the armed timers are exactly the values of the timer map, one per key, and both maps have the same keys |
| `SyncTimers.RecoveryIsExact` | internal/controller/sync_controller.go:733-793 | Recovery from empty schedules exactly the keys of Ready volumes of both kinds that have a source and a readable interval, each with the spec and interval of its own volume unless a cluster volume has the same key |
| `SyncRaces.StartIsOneStep` | internal/controller/sync_controller.go:212-256 | The moments of a Start between two uses of the lock, with nothing in between, are the one step that it is in SyncTimers |
| `SyncRaces.CallbackIsOneStep` | internal/controller/sync_controller.go:341-356 | So are the moments of the two ends of a callback |
| `SyncRaces.RacingChainsBounded` | internal/controller/sync_controller.go:199-381 | Over all interleavings of these moments: chains of a key never exceed one for its map entry, one per call that is about to record, and one per Stop that fell into the callback of the recorded timer or record that replaced a live one |
| `SyncRaces.NoneLooseIff` | internal/controller/sync_controller.go:199-256 | Every chain stays recorded or about to be, throughout a run, exactly when no Stop falls into the callback of the recorded timer and no call records over a live timer |
| `SyncRaces.TwoStartsRace` | internal/controller/sync_controller.go:217-250 | The failing input: two Starts at once leave two armed timers of which the map knows one, although no timer has ever fired |
| `VolumeDefaults.VolumeObject.FillAndValidateSpec` | internal/controller/volume_controller_base.go:105-144 | The defaulted spec and the verdict; a rejected spec keeps the defaults set before the failing test |
| `VolumeDefaults.VolumeObject.GenerateNfsServer` | internal/controller/volume_controller_base.go:227-240 | A missing reference is set, and the server gets name, namespace, URL and path from it |
| `VolumeDefaults.VolumeObject.UpdateVolumeStatus` | internal/controller/volume_controller_base.go:442-503 | Phase, message and address after a look at the server; the address is set only once, and the result says exactly whether one of them changed |
| `VolumeDefaults.FillIsIdempotent` | internal/controller/volume_controller_base.go:105-144 | Defaulting a defaulted spec changes nothing |
| `VolumeDefaults.FillKeepsTheGiven` | internal/controller/volume_controller_base.go:105-144 | An accepted spec keeps every given field: missing durations become 60s and 120s exactly when there is a source, a missing namespace the given one, access mode ReadOnly, path of a given server /; nothing else differs |
| `VolumeDefaults.RejectedKeepsTheGiven` | internal/controller/volume_controller_base.go:105-144 | So does a rejected one, up to the failing test |
| `VolumeDefaults.ExternalIff` | internal/controller/volume_controller_base.go:353-388 | The external test in one condition on URL and name |
| `VolumeDefaults.AddressNamesServer` | internal/controller/volume_controller_base.go:506-545 | Service addresses are equal exactly when server name and namespace are, for names without a dot |
| `VolumeDefaults.GeneratedIsManaged` | internal/controller/volume_controller_base.go:353-388 | A generated server counts as managed exactly when its reference has no dot |
| `VolumeDefaults.GeneratedAddressesAgree` | internal/webhook/v1/pod_webhook.go:456-463 | For a generated server the volume of the controller and the volume of a pod mount the same address |
| `VolumeDefaults.WriteBackKeepsAddress` | internal/controller/volume_controller_base.go:468-497 | Writing the managed address into the URL keeps the resolved address, makes both volumes agree, and flips the external test exactly when the name has a dot or does not start with nfs- |
| `VolumeDefaults.FoldersAgree` | internal/controller/volume_controller_base.go:984-987 | Init folder and share of a pod end in one folder name; the sync target ends in it exactly when the volume is namespaced or its resource namespace is the operation namespace |
| `UpdateAdmission.ValidateSourceSpec` | internal/webhook/validation/common.go:102-141 | No error exactly when at most one source is given and a single one is well-formed |
| `UpdateAdmission.ValidateSyncConfig` | internal/webhook/validation/common.go:469-507 | No error exactly when durations come with a source, and two given durations can be read with the timeout below the interval |
| `UpdateAdmission.ValidateVolumeSpec` | internal/webhook/validation/common.go:34-60 | Each kind of error is reported exactly when its condition fails |
| `UpdateAdmission.ValidateVolumeObjectUpdate` | internal/webhook/validation/common.go:529-595 | Accepts exactly the updates that are admitted and complete the frozen part; every violated field is reported and no other |
| `UpdateAdmission.AdmittedIff` | internal/webhook/validation/common.go:34-141 | Without both durations given, a spec with a mount path is admitted exactly when durations come with a source, no two sources are named, and a named one is well-formed |
| `UpdateAdmission.GivenDurationsAdmittedIff` | internal/webhook/validation/common.go:469-507 | With both durations given and readable exactly when the timeout is strictly below the interval: equal ones are refused |
| `UpdateAdmission.ServerChangesOnlyWhatIsMissing` | internal/webhook/validation/common.go:610-668 | An accepted update of a given server changes only a missing URL and a missing path, which becomes / |
| `UpdateAdmission.StorageChangesOnlyItsMode` | internal/webhook/validation/common.go:558-586 | And of the storage only a missing access mode, which becomes ReadOnly |
| `UpdateAdmission.CompletesAntisymmetric` | internal/webhook/validation/common.go:558-586 | Two frozen parts that complete each other are equal |
| `UpdateAdmission.CompletesTransitive` | internal/webhook/validation/common.go:558-586 | Completing twice is completing |
| `UpdateAdmission.RankGrows` | internal/webhook/validation/common.go:610-668 | A change of the frozen part raises a rank that is at most 8 |
| `UpdateAdmission.FrozenChangesBounded` | internal/webhook/validation/common.go:558-586 | Any run of admitted updates changes the frozen part at most 8 times, 7 after an admitted create, and not at all exactly when its ends are equal |
| `UpdateAdmission.BoundsAreReached` | internal/webhook/validation/common.go:558-586 | Both bounds are attained |
| `UpdateAdmission.WriteAccepted` | internal/webhook/validation/common.go:469-595 | The verdict on a defaulted spec that differs in reference and server only |
| `UpdateAdmission.ControllerWriteAccepted` | internal/controller/volume_controller_base.go:223-247 | The controller's own write of an admitted spec passes exactly when there is no source, or both defaulted durations can be read and the timeout is below the interval |
| `UpdateAdmission.StoredDurationsDecide` | internal/controller/volume_controller_base.go:105-121 | In terms of the stored spec: its own durations, or 60s and 120s for missing ones, decide the verdict on the controller's write |
| `UpdateAdmission.DefaultDurationsRejected` | internal/controller/volume_controller_base.go:114-121 | A source with no durations of its own always makes the controller's write fail, as 120s is not below 60s |
| `VolumeController.Controller.EnsureControllerNamespace` | internal/controller/volume_controller_base.go:260-287 | Creates the namespace when it is missing, and nothing else |
| `VolumeController.Controller.EnsureFinalizer` | internal/controller/volume_controller_base.go:2319-2335 | Adds a missing finalizer through an update that the webhook judges; the spec stays, and on failure everything does |
| `VolumeController.Controller.CreateAndOwnNfsServer` | internal/controller/volume_controller_base.go:147-209 | Creates a managed server that does not exist yet, unready, or nothing on failure; an external one never, whatever fails |
| `VolumeController.Controller.GenerateAndCreateNfsServer` | internal/controller/volume_controller_base.go:223-257 | Stores the generated spec first and creates the server after: a failure leaves nothing done or the spec stored and no server; success asks for another call |
| `VolumeController.Controller.CheckNfsServerStatus` | internal/controller/volume_controller_base.go:391-439 | The answer of one look, at its own moment: ready exactly for external servers and for existing ones that say so |
| `VolumeController.Controller.ReconcileNfsServer` | internal/controller/volume_controller_base.go:290-349 | Refuses to generate; else goes on exactly as far as its look allows: with no server, or one that is external, nameless or found ready, its address taken over in memory; it ends with a failure, or with a requeue only if the server was not ready |
| `VolumeController.Controller.ReconcilePersistentVolume` | internal/controller/volume_controller_base.go:698-809 | Creates a missing volume with the resolved address; any failure, an unreadable capacity or an empty address leaves everything as it was |
| `VolumeController.Controller.ReconcilePersistentVolumeClaim` | internal/controller/volume_controller_base.go:812-885 | Creates a missing claim, unbound, or nothing on failure |
| `VolumeController.Controller.ReconcileReplicaSet` | internal/controller/volume_controller_base.go:888-1038 | Creates a missing ReplicaSet; replaces one whose first port is not 8080; a failure leaves the old one, or none if it had a wrong port |
| `VolumeController.Controller.ReconcileService` | internal/controller/volume_controller_base.go:1041-1130 | Creates a missing Service; replaces one whose first port is not 8080; a failure leaves the old one, or none if it had a wrong port |
| `VolumeController.Controller.ReconcileRequiredResources` | internal/controller/volume_controller_base.go:666-695 | Success means that all four are there; whatever fails, existing volumes and claims, everything under a foreign name and ReplicaSets and Services with the right port are kept; without a reference nothing happens |
| `VolumeController.Controller.UpdateStatusWithRetry` | internal/controller/volume_controller_base.go:626-663 | Against writers that get in between read and write: at most four reads and four writes; on success exactly one status is written, on failure none; it fails only for a fault or after four overtaken writes |
| `VolumeController.Controller.UpdateReadinessStatus` | internal/controller/volume_controller_base.go:1909-2001 | On success the given phase is stored; on failure that status or the old one |
| `VolumeController.Controller.CheckResourceReadiness` | internal/controller/volume_controller_base.go:2035-2113 | Does nothing without a reference; else on success the stored phase is the one that its own looks at server, claim and ReplicaSet call for, each at its own moment while readiness changes in between; on failure that one or the old one |
| `VolumeController.Controller.ReconcileNfsServerComplete` | internal/controller/volume_controller_base.go:2117-2190 | Everything after defaulting: no phase is stored but the old one or the one that its own looks call for, a server is created only for a generated spec that is stored, and resources are kept; whatever fails, it ends without asking for another call only if Ready is stored |
| `VolumeController.Controller.ReconcileVolume` | internal/controller/volume_controller_base.go:2230-2258 | Whatever fails and however readiness changes in between: no phase is stored but the old one or the one that its own three looks call for, a server is created only for a generated spec that is stored, and resources are kept; it is done only if Ready is stored, and otherwise asks for another call or fails; when it is alone and nothing fails, its whole effect on every stored object |
| `VolumeController.ReadyWasSeen` | internal/controller/volume_controller_base.go:1898-2113 | Over all runs: a volume that is Ready has been so from the start, or since a reconcile whose own looks saw the server ready, then the claim bound, then all wanted replicas ready |
| `VolumeController.EveryReadyHadMomentIff` | internal/controller/volume_controller_base.go:2047-2095 | Every volume that becomes Ready, in every run, had server, claim and replicas all ready at some moment from the first look to the last, exactly where neither a ready server nor a bound claim can be lost meanwhile; whether replicas can does not matter |
| `VolumeController.LostServerRun` | internal/controller/volume_controller_base.go:2047-2095 | The failing input where a server can be lost: a run of one reconcile that stores Ready, with no moment from its first look to its last at which all three were ready |
| `VolumeController.LostClaimRun` | internal/controller/volume_controller_base.go:2047-2095 | The failing input where a claim can be lost, in the same terms |
| `VolumeController.ReadyHeldAtLastLook` | internal/controller/volume_controller_base.go:2047-2095 | Where neither can be lost, all three were ready at the moment of the last look |
| `VolumeReconcile.GenerationAccepted` | internal/controller/volume_controller_base.go:244-247 | For a valid volume without server the write of the generated spec is admitted exactly when the durations are |
| `VolumeReconcile.ReferenceAccepted` | internal/controller/volume_controller_base.go:2144-2153 | For a valid volume without reference the write of a new one is admitted exactly when durations and written-back URL are |
| `VolumeReconcile.RoundDescends` | internal/controller/volume_controller_base.go:2230-2258 | One round (the environment catches up, then one reconcile) lowers the stage, or changes nothing at all |
| `VolumeReconcile.ReadyWithinThree` | internal/controller/volume_controller_base.go:2230-2258 | A valid, serviceable volume is Ready after three rounds, and every later round writes nothing |
| `VolumeReconcile.DoneMeansReady` | internal/controller/volume_controller_base.go:2117-2190 | A fault-free reconcile ends without asking for another call only if it leaves the volume Ready |
| `VolumeReconcile.RoundAsks` | internal/controller/volume_controller_base.go:2117-2190 | Which call each round of a valid, serviceable volume asks for: after 2s while its server is generated, 1s while its reference is, 30s until it is Ready, then none |
| `VolumeReconcile.ReadyByAskedRounds` | internal/controller/volume_controller_base.go:2117-2190 | With further calls only where the last one asked for them, such a volume is Ready after three |
| `VolumeEffects.ReconcileCreates` | internal/controller/volume_controller_base.go:147-1130 | All that one reconcile makes of the stored objects: nothing new is ready or has capacity or server other than the spec says, what exists stays except a ReplicaSet or Service with a wrong port, which is made anew with port 8080, and the status address is set only once |
| `VolumeEffects.ReconcileInOrder` | internal/controller/volume_controller_base.go:666-695 | Whatever ends a reconcile, no claim is new without its volume, and no ReplicaSet or Service without both |
| `VolumeEffects.StaleAddressIsNeverMended` | internal/controller/volume_controller_base.go:468-503 | A Ready volume whose status address differs from its managed one keeps it, though every reconcile writes the status again |
| `VolumeReconcile.BecomesReadyIff` | internal/controller/volume_controller_base.go:2117-2190 | A valid volume that is not Ready can become Ready exactly when its server is to be generated, external, or named and existing, and the spec write that is due passes the webhook |
| `VolumeReconcile.NewVolumeMountsServer` | internal/controller/volume_controller_base.go:739-753 | A persistent volume that a round creates mounts the address that the stored server resolves to |
| `VolumeReconcile.UnreadyServerKeepsStatus` | internal/controller/volume_controller_base.go:2134-2142 | The failing input of PhaseTrackedIff: a managed server that is not ready ends the reconcile early, so a stored Ready is not withdrawn although Pending would be called for |
| `VolumeReconcile.UnreadyServerExample` | internal/controller/volume_controller_base.go:2134-2142 | A concrete volume of that kind: Ready, valid, and its named server is not ready any more |
| `VolumeReconcile.PhaseTrackedIff` | internal/controller/volume_controller_base.go:2117-2190 | With a reference and an external or named server, a reconcile leaves the phase that the stored objects call for exactly when the server is ready or the phase was Pending before |
| `VolumeReconcile.AddressesAgreeIff` | internal/controller/volume_controller_base.go:442-503 | Once any valid, serviceable volume has become Ready, its pods and the controller mount the same server exactly when, at the start, the server was to be generated, was external or had its managed address as URL, or neither a reference nor a status address was there |
| `VolumeReconcile.NamedServerIsNotWritten` | internal/webhook/v1/pod_webhook.go:456-463 | The failing input: a volume with a reference and an existing managed server without a URL becomes Ready, the written-back URL is never stored, and its pods mount the empty server name |
| `VolumeReconcile.LostServerIsNotRetried` | internal/controller/volume_controller_base.go:244-253 | If the creation of a generated server fails after its spec was stored, no number of rounds makes the volume Ready |
| `FinalizerRemoval.RemoveString` | internal/controller/volume_controller_base.go:2271-2279 | All occurrences of one string removed |
| `FinalizerRemoval.RemovedKeepsOthers` | internal/controller/volume_controller_base.go:2271-2279 | Exactly the other strings remain, each as often as before |
| `FinalizerRemoval.RemovedInOrder` | internal/controller/volume_controller_base.go:2271-2279 | Removal distributes over concatenation, so the order of what remains is kept |
| `FinalizerRemoval.RemovalLosesNothing` | internal/controller/volume_controller_base.go:567-623 | Removing a finalizer changes nothing else in the object or beside it; the object goes only when it was terminating and had no other finalizer |
| `FinalizerRemoval.RemoveFinalizerWithRetry` | internal/controller/volume_controller_base.go:567-623 | Against arbitrary writers and failures: at most 4 reads and 4 writes, and the whole effect is one atomic removal from a state made by the others alone, or nothing on failure; a conflict is given up after exactly 4 of each, and without faults 3 rivals cannot stop it |
| `FinalizerRemoval.RemoveAllFinalizersWithRetry` | internal/controller/pod_cleanup_controller.go:797-944 | At most 6 reads, 6 writes and 5 patches; the whole effect is one atomic clearing, or nothing on failure; a conflict is given up after exactly 6 writes, without faults 5 rivals cannot stop it, and no patch overwrites what a rival wrote |
| `FinalizerRemoval.ApiServer.PatchFinalizersNull` | internal/controller/pod_cleanup_controller.go:947-1001 | The merge patch with a null member (section 2 of RFC 7396) clears the finalizers without a version check |
| `FinalizerRemoval.ForceDelete` | internal/controller/pod_cleanup_controller.go:624-761 | Success means the object is absent if nobody recreates it; other keys are changed by others only; it fails only after asking for the deletion, or on its first read; at most 14 reads, 12 writes, 10 patches and 1 deletion |
| `CleanupNames.RandString` | internal/controller/volume_controller_base.go:212-220 | n characters of a-z and 0-9 |
| `CleanupNames.NewReference` | internal/controller/volume_controller_base.go:227-229 | A new reference is sv- and 12 such characters, so all have one length |
| `CleanupNames.WrittenReferenceIsGenerated` | internal/controller/volume_controller_base.go:227-229 | The reference that the controller writes is of that form, and ends in the random letters |
| `CleanupNames.CleanupAllPVCs` | internal/controller/volume_controller_base.go:1333-1365 | Deletes, each once, exactly the stored claims that the two name tests select |
| `CleanupNames.CleanupAllPVs` | internal/controller/volume_controller_base.go:1416-1469 | Deletes, each once, exactly the stored volumes that the name and label tests select |
| `CleanupNames.ReferencePrefix` | internal/controller/volume_controller_base.go:1352-1354 | References have one length, so no name made from one reference passes a test made from another |
| `CleanupNames.ClaimCleanupIsExact` | internal/controller/volume_controller_base.go:1333-1365 | Among all operator-made claims of any volumes the tests select exactly the volume's own |
| `CleanupNames.OwnerLabelMatches` | internal/controller/volume_controller_base.go:1432 | Owner labels are equal exactly when name and namespace are: the last dot splits them |
| `CleanupNames.VolumeCleanupExactIff` | internal/controller/volume_controller_base.go:1416-1469 | Among all operator-made persistent volumes the tests select exactly the volume's own, if and only if it is not a SharedVolume in the operation namespace beside a ClusterSharedVolume of its name |
| `Teardown.Cleaner.CleanupAllPVsWithWait` | internal/controller/volume_controller_base.go:1368-1413 | Deletes what the tests select, then waits: at most 24 polls of two reads each, with others at work before each read, ending with one that saw nothing or after two minutes |
| `Teardown.Cleaner.CleanupResourcesInNamespace` | internal/controller/volume_controller_base.go:1160-1211 | The trace is in order, the timer stop comes first and is applied; pods, ReplicaSet, claims, volumes, Service and managed server are each looked for and deleted if found, exactly those selected; the wait is over before Service and NfsServer go; without a reference only the timer is touched |
| `Teardown.Cleaner.HandleDeletion` | internal/controller/volume_controller_base.go:2294-2316 | The finalizer of the volume goes after everything else is done, and success means that the stored object lacks it; without faults three rivals cannot make it fail |
| `Teardown.TeardownOrder` | internal/controller/volume_controller_base.go:1160-1211 | In every such trace: timer stop before all deletions, claims before volumes, Service and NfsServer after the end of the wait |
| `PodSweeps.Choose` | internal/controller/volume_controller_base.go:1228-1265 | The keys of exactly the listed pods that a sweep takes, in order |
| `PodSweeps.MarkedIff` | internal/controller/volume_controller_base.go:1232-1252 | The sweep of users takes exactly the pods that a key with the volume's namespace and name, or in that namespace its name alone, marks as true |
| `PodSweeps.ListedUserIsMissed` | internal/controller/volume_controller_base.go:1214-1266 | So a pod that names its volume in the annotation that the webhook reads is never taken, although all users of the volume are meant |
| `PodSweeps.ReplicaSweepIsExact` | internal/controller/volume_controller_base.go:1284-1294 | Among all pods of ReplicaSets the sweeps by label take exactly those of their own volume |
| `Teardown.PollTells` | internal/controller/volume_controller_base.go:1384-1400 | What a poll that sees nothing tells: about each read that did not fail, at the moment of that read, and nothing else |
| `Teardown.WaitWatchesOwnVolumes` | internal/controller/volume_controller_base.go:1384-1400 | Among operator-made volumes the wait watches exactly those of its own volume |
| `Teardown.WaitOverMeansGone` | internal/controller/volume_controller_base.go:1368-1413 | With fault-free reads the wait ends when the main volume was not stored at the moment of the Get and none of its own others at the moment of the List, or after two minutes |
| `Teardown.WaitOverMeansAllGone` | internal/controller/volume_controller_base.go:1384-1400 | Provided nobody stores a watched name between the two reads, all of them were gone at the moment of the List |
| `PodAnnotations.NamesOfJoin` | internal/controller/pod_cleanup_controller.go:254-266 | Reading an annotation gives back exactly the names joined into it, whatever spaces surround them |
| `PodAnnotations.ExtractForController` | internal/controller/pod_cleanup_controller.go:246-286 | The references of both annotations in order; cluster volumes carry the operation namespace |
| `PodAnnotations.ExtractForWebhook` | internal/webhook/v1/pod_webhook.go:134-176 | The references of both annotations in order; cluster volumes carry a flag |
| `PodAnnotations.IsPodUsingVolumeByRef` | internal/controller/pod_cleanup_controller.go:582-621 | True exactly when the pod is not terminating and the reference is among its extracted ones |
| `PodAnnotations.IsVolumeStillInUseByRef` | internal/controller/pod_cleanup_controller.go:538-579 | True exactly when some pod of the cluster uses the reference, although only one namespace is listed; no answer when the list fails |
| `PodAnnotations.IsVolumeStillInUseByOtherPods` | internal/webhook/v1/pod_webhook.go:845-879 | True exactly when another pod that is not terminating names the volume; no answer when the list fails |
| `PodAnnotations.ScansAgreeIff` | internal/controller/pod_cleanup_controller.go:538-621 | For a terminating pod both scans agree exactly when no SharedVolume and ClusterSharedVolume of one name are confused in the operation namespace |
| `PodAnnotations.ScansAgree` | internal/webhook/v1/pod_webhook.go:845-879 | With no pod in the operation namespace both scans always agree |
| `PodMutation.PodObject.AddVolumeToPod` | internal/webhook/v1/pod_webhook.go:646-705 | The pod with one mount more per container that lacks one of that name, and one volume more if there is none |
| `PodMutation.PodObject.AddSharedVolumeFinalizer` | internal/webhook/v1/pod_webhook.go:708-718 | The cleanup finalizer is appended unless it is there |
| `PodMutation.MutationIsExact` | internal/webhook/v1/pod_webhook.go:646-705 | With distinct new names every container gets exactly one mount per volume, in order, after those it had |
| `PodMutation.MutationIsIdempotent` | internal/webhook/v1/pod_webhook.go:646-718 | Whatever the pod, applying the mutation again changes nothing |
| `PodMutation.FinalizerIsUnique` | internal/webhook/v1/pod_webhook.go:708-718 | At most one cleanup finalizer becomes exactly one, after the others |
| `PodOperator.Operator.ValidateUniqueMountPaths` | internal/webhook/v1/pod_webhook.go:179-223 | Accepts only when every reference is stored and all mount paths are pairwise different, and then always unless a read fails |
| `PodOperator.Operator.ProcessSharedVolume` | internal/webhook/v1/pod_webhook.go:226-291 | The stored volume and claim and the mutated pod after one reference; a failure leaves nothing done, or the volume created and its claim not |
| `PodOperator.Operator.EnsurePersistentVolumeClaim` | internal/webhook/v1/pod_webhook.go:477-530 | An existing claim is accepted unless it is terminating; a missing one is created; a failed call changes nothing |
| `PodOperator.Operator.Handle` | internal/webhook/v1/pod_webhook.go:60-124 | The answer to an admission request and everything it did: all of it, or on failure exactly the first n references and perhaps the volume of the next; for a terminating pod with the cleanup finalizer a whole exit or an error after a prefix; live pods stay served |
| `PodOperator.Operator.HandleLivePod` | internal/webhook/v1/pod_webhook.go:81-124 | Creation or update of a live pod: the whole admission, or a denial or error that leaves the first n references processed and perhaps half of the next |
| `PodAdmission.AdmissionMutatesExactly` | internal/webhook/v1/pod_webhook.go:106-114 | An allowed admission passed the path check and appended to every container exactly one mount per named volume, in annotation order, with distinct names and paths |
| `PodAdmission.AnsweredIff` | internal/webhook/v1/pod_webhook.go:81-124 | Which of the four answers a pod gets, each with its exact condition; what a patched pod makes of the cluster: live claims and volumes of its references where missing, and nothing else |
| `PodMounts.ProcessMountsLiveClaim` | internal/webhook/v1/pod_webhook.go:226-291 | A processed reference appends a volume whose claim is stored in the pod's namespace and not terminating, and every container mounts it at the volume's path with its access mode |
| `PodMounts.PatchedIsMounted` | internal/webhook/v1/pod_webhook.go:60-124 | So does an allowed admission, for every reference |
| `PodMounts.LivePodsMountLiveClaims` | internal/webhook/v1/pod_webhook.go:646-705 | Over all runs in which pods bring no mounts or volumes of the webhook's names: every stored pod that is not being deleted mounts each volume it names through a claim of its namespace that exists and is not terminating |
| `PodAdmission.AdmittedAgain` | internal/webhook/v1/pod_webhook.go:60-124 | Admitting the result once more changes neither cluster nor pod: an update is waved through, a creation is patched to the same pod |
| `PodOperator.Operator.CleanupPodSpecificResourcesByRef` | internal/controller/pod_cleanup_controller.go:429-478 | Nothing while a live pod uses the reference or the pods cannot be listed; else claim first, volume only if the claim is gone: a claim that is left keeps its volume |
| `PodOperator.Operator.CleanupSharedVolumeResources` | internal/controller/pod_cleanup_controller.go:289-375 | Keeps every live pod served whatever fails, reads included; without failures it is the whole cleanup |
| `PodOperator.Operator.ReconcileTerminating` | internal/controller/pod_cleanup_controller.go:131-156 | Whatever fails every live pod stays served; without failures all finalizers are stripped first and the cleanup is complete, and the reconcile ends in success exactly if the stripped pod lingers, in an error if it is gone when its finalizer is to be taken off |
| `PodOperator.Operator.ForceDeletePod` | internal/controller/pod_cleanup_controller.go:764-794 | Strips a terminating pod of all its finalizers, upon which it is gone, or lingers through its grace period |
| `PodOperator.Operator.RemoveFinalizer` | internal/controller/pod_cleanup_controller.go:171-211 | Only the cleanup finalizer of the latest version goes; a terminating pod whose last finalizer it was is gone or lingers; a pod that is not stored is an error |
| `PodOperator.Operator.CleanupSharedVolumeIfUnused` | internal/webhook/v1/pod_webhook.go:754-812 | Nothing while another live pod names the volume; an error when volume or pods cannot be read; else a plain deletion of the claim, then of the volume, and on failure nothing or the claim alone; what has finalizers is left terminating |
| `PodOperator.Operator.DeletePVC` | internal/webhook/v1/pod_webhook.go:882-896 | A plain deletion: the claim is gone, or left terminating exactly if it has finalizers; a missing one is no error |
| `PodOperator.Operator.DeletePV` | internal/webhook/v1/pod_webhook.go:899-912 | The same for the persistent volume |
| `PodOperator.Operator.HandlePodDeletion` | internal/webhook/v1/pod_webhook.go:731-751 | Success is a whole exit: every volume found and cleaned up, then the finalizer off the pod as the request has it; on failure a prefix of the volumes is cleaned up, perhaps with the claim of the next, and no pod has changed; every live pod stays served; it fails only for a fault, a missing volume or a stale pod |
| `PodOperator.Operator.RemovePodFinalizer` | internal/webhook/v1/pod_webhook.go:915-932 | An update of the version in the request: any other stored version, or none, is an error; on success only the cleanup finalizer goes, and a terminating pod without others is gone or lingers |
| `PodProtocol.LivePodsKeepTheirClaims` | internal/webhook/v1/pod_webhook.go:60-124 | Over all runs, with faults and admissions that fail anywhere, between a volume and its claim too: every stored pod not being deleted has, for each volume it names, an existing claim that is not terminating |
| `PodRaces.SafeThroughoutIff` | internal/controller/pod_cleanup_controller.go:429-478 | With scan and deletion, and admission and storing, as separate events that are remembered in between: every live pod keeps its claims throughout a run exactly when no deletion is carried out while a pod that was stored since its scan needs the claim, and no pod is stored of which a claim was deleted since its admission and not made anew |
| `PodRaces.DeletionIff` | internal/controller/pod_cleanup_controller.go:446-478 | A deletion leaves every live pod served exactly when no pod that was stored since the scan that decided it is live and names the volume in that namespace |
| `PodRaces.StoringIff` | internal/webhook/v1/pod_webhook.go:60-124 | Storing an admitted pod leaves every live pod served exactly when no claim that it names was deleted since its admission without being made anew |
| `PodRaces.SecondOneHarms` | internal/controller/pod_cleanup_controller.go:446-478 | The failing inputs: where both are to come, whichever comes second breaks safety, whichever comes first does not |
| `PodRaces.AdmittedAfterScan` | internal/controller/pod_cleanup_controller.go:446-478 | A pod that is admitted after the scan that found its volume unused leads to a state in which the deletion and the storing are both to come |
| `PodExamples.BothAreToCome` | internal/controller/pod_cleanup_controller.go:446-478 | A concrete run from the empty cluster to such a state: a volume is created, a scan finds it unused, and a pod that names it is admitted |
| `PodRaces.ScanAndDeletionAreOneStep` | internal/controller/pod_cleanup_controller.go:429-478 | With nothing in between, a scan of the controller and its deletion are the one step that they are in PodProtocol |
| `PodRaces.AdmissionAndStoringAreOneStep` | internal/webhook/v1/pod_webhook.go:60-124 | So are an admission and the storing of the pod |
| `PodLeaks.CleanedAllExactly` | internal/controller/pod_cleanup_controller.go:289-375 | The fault-free cleanup of a pod removes exactly the pairs of its namespace that no live pod uses |
| `PodLeaks.NamespacedPairsDoNotLeak` | internal/controller/pod_cleanup_controller.go:72-159 | Over all orderly runs, with pods that leave through the controller or through the webhook: a claim or volume of a namespaced volume that is not being deleted exists only while a stored pod of that namespace names it and has the cleanup finalizer |
| `PodLeaks.StoredPodsPassedPathCheck` | internal/webhook/v1/pod_webhook.go:179-223 | Over all runs, every stored pod names stored volumes with pairwise different mount paths |
| `PodLeaks.NothingIsLeftIff` | internal/webhook/v1/pod_webhook.go:731-812 | In an orderly run any claim or volume of a namespaced volume, being deleted or not, is stored only while such a pod is, throughout, exactly when the webhook never lets the last of these pods go while the claim or the volume has finalizers |
| `PodExamples.ClaimIsLeftBehind` | internal/webhook/v1/pod_webhook.go:880-896 | The failing input: an orderly run of five steps after which a claim is being deleted and no pod is stored |
| `PodLeaks.ExitSweepsExactly` | internal/webhook/v1/pod_webhook.go:731-812 | The fault-free cleanup by the webhook sweeps exactly the pairs that no other live pod names: of those it leaves what has finalizers, terminating, and nothing else |
| `PodLeaks.ExitReleasesOnly` | internal/webhook/v1/pod_webhook.go:915-932 | The pod that exits loses the cleanup finalizer alone: it is gone only if it had no other, and no other pod changes |
| `PodLeaks.ClusterClaimStaysIff` | internal/controller/pod_cleanup_controller.go:429-478 | The claim of a cluster volume survives the cleanup of its pod exactly when a live pod in any namespace still uses the volume |
| `PodLeaks.ClusterClaimLeaks` | internal/controller/pod_cleanup_controller.go:547-550 | So the last pod of a namespace leaves its claim behind while another namespace uses the volume |

## Left out

- SyncTimers.SyncController.StartSyncCommon: a Start is one step of a method; what may happen between its uses of the lock is the subject of SyncRaces, on values.
- SyncTimers.SyncController.ScheduledSyncEnd: the sync itself (HTTP request, secrets, request bodies) is an event without content; only whether it is due is stated.
- PodProtocol.LivePodsKeepTheirClaims: needs admission and storing, and a scan with its deletions, to be one step each; PodRaces takes them apart and states when the guarantee remains.
- PodLeaks.NamespacedPairsDoNotLeak: says nothing of admissions that end in an error or of cleanups by the controller that fail: its strip of all finalizers comes before its cleanup, so nothing retries that.
- PodOperator.Operator.Handle: decoding and encoding of requests are left out.
- PodOperator.Operator.DeleteClaim: how a forced deletion proceeds is the subject of FinalizerRemoval; here it only ends in one of three ways.
- FinalizerRemoval.RemoveFinalizerWithRetry: back-off delays are left out, and a read sees the stored object, not a cache.
- UpdateAdmission.ValidateSourceSpec: the field checks of the four source kinds are one flag.
- CleanupNames.RandString: the random source is any choice of letters.
- Teardown.Cleaner.DeletePods: a forced deletion of a pod is one event, whatever becomes of the pod.
- Teardown.Cleaner.CleanupAllPVCs: a forced deletion is one event; what the volume controller's own finalizer stripping adds is left out, as its loops repeat those of the pod cleanup.
- VolumeController.Controller.ReconcileVolume: the sync callbacks on Ready and not Ready are left out here; between its calls others change the readiness of stored objects and parts of the volume object that are not modelled, but create and delete nothing and leave the spec alone.
- VolumeReconcile.Settled: the environment makes everything ready at once; partial progress only delays the rounds.
- PodProtocol.Step: updates that change annotations, and deletion of volumes, do not occur in its runs.
- The branch of the pod controller for live pods, orphaned by a ReplicaSet or lacking a finalizer.
- Superseded or unused twins: scheduledSync, triggerSync, cleanupPodSpecificResources, isSharedVolumeStillInUse, the non-generic ensure functions, isPVCStillInUse, WaitForPodsToTerminate.
- Kubernetes detail without logic: images, mount options, owner references, RBAC, manager setup, generated copies.
