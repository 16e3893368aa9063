# Cluster API and its KubeVirt provider: a Dafny model

A model of the parts of Cluster API and of its KubeVirt infrastructure provider that are hard to get right by
reading, with proofs of what they guarantee over all inputs, all interleavings and all sequences of passes, and,
where a guarantee fails, of exactly when it holds.

| module | what it models |
|---|---|
| `TrackerProtocol`, `TrackerInvariant`, `TrackerTheorems`, `TrackerAnswers` | the cluster cache tracker as a state machine: any number of goroutines calling GetClient and Watch, health checkers, the cache reconciler, and parent contexts being cancelled, interleaved between critical sections |
| `Remote` | those critical sections as the objects the code updates in place, each tied to the protocol's effect |
| `HealthCheck` | the polling loop of a health checker |
| `ObjectTracker` | concurrent calls of the external object tracker's Watch |
| `Drain` | draining the node of an evacuated VMI against a persisted deadline |
| `MachineController`, `MachineReconciler`, `MachinePasses`, `MachineRuns` | the KubevirtMachine controller: one pass as a function, the same pass as code on an object updated in place, what one pass does exactly, and properties of sequences of passes |
| `OrphanFreedom` | passes, user deletion, lost requests and vanishing VMs interleaved around the finalizer |
| `CloudInit` | injecting the capk user into cloud-config node trees |
| `DataVolumes` | prefixing the DataVolumes of a VM |
| `SshKeys` | the ssh key pair of a cluster, with stale reads and lost writes |
| `OwnerRefs` | owner-reference lists as Go slices edited in place |
| `Common` | shared datatypes |

`dafny verify dfyconfig.toml` checks everything.

API calls, clocks, random generators and contexts are parameters: each pass or step takes an environment that says
what its reads see and which of its requests succeed, fail, or take effect although they are reported as failed.
In `TrackerProtocol` one step is one critical section of the code or one call into a library; everything between
two of them may interleave with everybody else.

## What does not hold

- A failed etcd key generation returns without stopping the cache it has started. That cache is live for ever
  (`LeakIsForever`), and a second attempt gives the cluster a second live cache (`TwoLiveCaches`). A cluster has at most
  one live cache throughout a run exactly when no cache is started for it after one of its key generations has failed
  (`AtMostOneLiveCacheIff`).
- A health checker starts before its accessor is stored. If it is told in between that the Cluster is gone, or its
  parent context is cancelled, the accessor stored afterwards has no checker (`UncheckedAccessor`); a stored accessor
  has one exactly when no earlier step was its checker's last deleteAccessor (`StoredHasChecker`, `CheckedIff`).
- A nil result of the object tracker's Watch promises nothing to a concurrent caller (`NilIsNoPromise`); it means an
  established watch exactly when no other call for the kind is under way (`NilMeansWatchIff`).
- If removing the drain deadline fails after a VMI was deleted, a later evacuation that meets the old deadline
  deletes without draining (`StaleDeadlineSkipsDrain`). A deadline is left behind exactly when it was written and no
  removal has gone through since (`LeftBehindIff`), and exactly the evacuations that meet such a deadline in the past
  are deleted without an attempt to drain (`UndrainedRunIff`, and for controller passes `PassSkipsDrainIff`).
- The controller dereferences a nil provider id in exactly one situation (`PanicsExactly`), which a fresh object can
  meet in its second pass (`FreshObjectPanics`).
- Fetching the ssh keys ignores the error of its second read of the secret: it dereferences nil exactly when that read
  fails, or goes back to before the secret, after the first one has seen the keys (`FetchPanicsIff`, `FetchPanics`).
- A VM can be orphaned exactly when the machine takes its infra cluster reference over from the KubevirtCluster and
  that reference leads elsewhere than no reference at all (`NoOrphanIff`): the reference is defaulted in memory, and
  the deleting pass does not default it again if the patch was lost.
- A secret that already has a private but no public key keeps the cluster without usable keys for ever
  (`FetchableIff`).
- The comment on `EnsureOwnerRef` promises that the list contains the reference; a reference whose API version does
  not parse is appended again on each call and is never found (`EnsureIdempotentIff`, with `UnparsedIsAppended` for
  "a/b/c").
- The comment on `prefixDataVolumeTemplates` says that a prefix makes each DataVolume unique per VM; two machines can
  still collide exactly when one's name is the other's followed by a dash and more (`MachinesCollideIff`).

## Model

| member | source | states |
|---|---|---|
| `TrackerTheorems.MutualExclusion` | cluster-api/controllers/remote/keyedmutex.go:43-66 | in every reachable state of any interleaving a key is in the lock set if and only if a goroutine is inside a locked region for it, and never two are, although Unlock does not check its caller |
| `TrackerTheorems.RegionNeverBlocks` | cluster-api/controllers/remote/cluster_cache_tracker.go:303-323 | a goroutine inside a locked region can always take its next step, so a held key is never held up by others |
| `TrackerTheorems.RegionIsLeft` | cluster-api/controllers/remote/cluster_cache_tracker.go:303-323 | each own step, at most six, brings it nearer its exit, and the last one frees the key on every path |
| `TrackerTheorems.RegionUndisturbed` | cluster-api/controllers/remote/cluster_cache_tracker.go:291-324 | no step of anybody else moves a goroutine inside a region |
| `TrackerTheorems.LiveCaches` | cluster-api/controllers/remote/cluster_cache_tracker.go:493-564 | the live caches of a cluster are, disjointly, its leaked ones and at most one current one; a stored accessor's cache is live; exact condition for at most one live cache |
| `TrackerTheorems.AtMostOneLiveCacheIff` | cluster-api/controllers/remote/cluster_cache_tracker.go:291-407 | a cluster has at most one started and not stopped cache at every moment of a run, whatever happens to other clusters, if and only if no cache is started for it after one of its key generations has failed |
| `TrackerTheorems.LiveCacheCount` | cluster-api/controllers/remote/cluster_cache_tracker.go:291-407 | after any run the number of live caches of a cluster is the number of its failed key generations plus its current cache; exact condition for at most one |
| `TrackerTheorems.LeaksAreKeyFailures` | cluster-api/controllers/remote/cluster_cache_tracker.go:395-398 | over any run each failed key generation of a cluster leaks exactly one of its caches, and nothing else leaks one |
| `TrackerTheorems.LeakIsForever` | cluster-api/controllers/remote/cluster_cache_tracker.go:395-398 | a leaked cache is live after every continuation |
| `TrackerTheorems.TwoLiveCaches` | cluster-api/controllers/remote/cluster_cache_tracker.go:395-398 | a run with one key generation failure that leaves two live caches for one cluster |
| `TrackerTheorems.StoreNeverOverwrites` | cluster-api/controllers/remote/cluster_cache_tracker.go:279-284 | storeAccessor never overwrites an entry, in any interleaving with deleteAccessor, which ignores the cluster lock |
| `TrackerTheorems.StoredHasChecker` | cluster-api/controllers/remote/cluster_cache_tracker.go:675-746 | an accessor in the map has a live health checker if and only if that checker had not run its last deleteAccessor before the accessor was stored |
| `TrackerTheorems.CheckedIff` | cluster-api/controllers/remote/cluster_cache_tracker.go:675-746 | in terms of the steps of the run: a stored accessor has a live checker if and only if no step was that checker's last deleteAccessor with the accessor not stored yet |
| `TrackerTheorems.EveryAccessorIsChecked` | cluster-api/controllers/remote/cluster_cache_tracker.go:555-558 | if the checker of an accessor being created is not told that its Cluster is gone and its parent context is not cancelled meanwhile, then whenever the accessor is in the map it has its own live checker, whatever happens to other accessors and despite the gap between the absent-check and TryLock |
| `TrackerTheorems.UncheckedAccessor` | cluster-api/controllers/remote/cluster_cache_tracker.go:555-558 | without the hypothesis, for every cluster, there is a run that stores an accessor of it no checker looks after |
| `TrackerTheorems.WatchOnce` | cluster-api/controllers/remote/cluster_cache_tracker.go:613-644 | the underlying watch call succeeds at most once per accessor and name; outside the locked region a name is recorded if and only if the call has succeeded |
| `TrackerTheorems.WatchRetried` | cluster-api/controllers/remote/cluster_cache_tracker.go:624-643 | from any reachable state with the cluster unlocked, a name not recorded is attempted by the next caller |
| `TrackerAnswers.GetAnswers` | cluster-api/controllers/remote/cluster_cache_tracker.go:291-324 | in every interleaving a call for an accessor fails if and only if it found none at first and then found the cluster locked, or found none again and failed to create one; it delivers an accessor if and only if that was in the map at one of its loads or was stored by the call itself |
| `TrackerAnswers.WatchAnswers` | cluster-api/controllers/remote/cluster_cache_tracker.go:613-644 | in every interleaving Watch returns an error if and only if it has no name, gets no accessor, finds the cluster locked, or the watch call fails; nil means that the watch is established and recorded on the accessor it got |
| `TrackerAnswers.VisitRun` | cluster-api/controllers/remote/cluster_cache_tracker.go:291-644 | over any run what a caller has met at its own steps agrees with where it is and with what it returned |
| `TrackerAnswers.SecondLoadDelivers` | cluster-api/controllers/remote/cluster_cache_tracker.go:308-312 | an accessor found under the lock is the one the watch goes on with |
| `TrackerAnswers.ReconcilerDeletes` | cluster-api/controllers/remote/cluster_cache_reconciler.go:59-79 | the reconciler that saw the Cluster gone removes its accessor, stops its cache, and touches no other |
| `TrackerAnswers.ReconcilerStarts` | cluster-api/controllers/remote/cluster_cache_reconciler.go:59-79 | being told that a Cluster is gone always leads there |
| `TrackerAnswers.CheckerDeletes` | cluster-api/controllers/remote/cluster_cache_tracker.go:742-746 | so does the last step of a health checker |
| `TrackerAnswers.CheckerFollows` | cluster-api/controllers/remote/cluster_cache_tracker.go:675-746 | in every interleaving a health checker is the polling loop of its own polls: it goes on with the loop's counter while no poll ends the loop, and comes to its last deleteAccessor only at the first poll that does, or with its context done |
| `TrackerAnswers.ProbeEndsIff` | cluster-api/controllers/remote/cluster_cache_tracker.go:710-731 | a probe ends a checker if and only if it is unauthorized, or fails as the tenth in a row |
| `TrackerAnswers.ProbesIffLoaded` | cluster-api/controllers/remote/cluster_cache_tracker.go:697-708 | a poll probes the cluster if and only if it finds the accessor in the map, and otherwise goes for the cluster lock |
| `TrackerAnswers.PollingGoesOn` | cluster-api/controllers/remote/cluster_cache_tracker.go:681-697 | a poll of a ready Cluster looks for the accessor; the checker can end without a poll if and only if its context is done |
| `TrackerInvariant.StepInv` | cluster-api/controllers/remote/cluster_cache_tracker.go:291-746 | every step of every goroutine and every cancellation keeps the invariant on locks, cache lifetimes, checkers and watches |
| `TrackerInvariant.RunInv` | cluster-api/controllers/remote/cluster_cache_tracker.go:291-746 | so does every run, of any length and interleaving |
| `Remote.KeyedMutex.TryLock` | cluster-api/controllers/remote/keyedmutex.go:43-57 | succeeds if and only if the key is free, and takes it |
| `Remote.KeyedMutex.Unlock` | cluster-api/controllers/remote/keyedmutex.go:60-66 | frees the key, whoever calls |
| `Remote.StoppableCache.Stop` | cluster-api/controllers/remote/stoppable_cache.go:36-46 | the cancel function is called exactly once however often the cache is stopped |
| `Remote.ClusterCacheTracker.LoadAccessor` | cluster-api/controllers/remote/cluster_cache_tracker.go:270-276 | finds an accessor if and only if the shared state has one, and that one |
| `Remote.ClusterCacheTracker.LockCluster` | cluster-api/controllers/remote/cluster_cache_tracker.go:303-306 | the objects afterwards are those of the protocol's Lock effect, or unchanged on failure |
| `Remote.ClusterCacheTracker.UnlockCluster` | cluster-api/controllers/remote/cluster_cache_tracker.go:306-306 | the objects afterwards are those of the protocol's Unlock effect |
| `Remote.ClusterCacheTracker.StartNewCache` | cluster-api/controllers/remote/cluster_cache_tracker.go:530-537 | a new cache that is not stopped, as in the protocol's StartCache effect |
| `Remote.ClusterCacheTracker.Store` | cluster-api/controllers/remote/cluster_cache_tracker.go:279-284 | the objects afterwards are those of the protocol's StoreAccessor effect |
| `Remote.ClusterCacheTracker.DeleteClusterAccessor` | cluster-api/controllers/remote/cluster_cache_tracker.go:567-583 | the objects afterwards are those of the protocol's DeleteAccessor effect: the entry is gone, its cache and no other is stopped |
| `HealthCheck.CounterCountsUnhealedFailures` | cluster-api/controllers/remote/cluster_cache_tracker.go:681-731 | for every poll sequence the counter is the number of failed probes since the last successful one, counting only polls that reached the probe |
| `HealthCheck.BelowThresholdWhilePolling` | cluster-api/controllers/remote/cluster_cache_tracker.go:681-731 | with a positive threshold the counter stays below it as long as the loop goes on |
| `HealthCheck.ThresholdExit` | cluster-api/controllers/remote/cluster_cache_tracker.go:721-731 | the threshold exit fires if and only if this is the first poll at which the count reaches the threshold, at equality, after a failed probe, with a non-nil error |
| `HealthCheck.NegativeThreshold` | cluster-api/controllers/remote/cluster_cache_tracker.go:657-670 | a negative threshold, which the defaulting lets through, ends the loop at every failed probe and at no successful one |
| `HealthCheck.HealthCheckCluster` | cluster-api/controllers/remote/cluster_cache_tracker.go:675-746 | the loop stops at the first ending poll and nowhere else; its counter is the number of unhealed failures; both directions of when it returns an error, with threshold 10 for 0, and when it is done |
| `ObjectTracker.StepInv` | cluster-api/controllers/external/tracker.go:44-68 | every step of every caller keeps the relation between stored keys, calls in flight and successes |
| `ObjectTracker.WatchOncePerKind` | cluster-api/controllers/external/tracker.go:44-68 | per kind at most one controller watch in flight, at most one success ever and none in flight after it; the key is stored if and only if one is in flight, awaits clean-up, or has succeeded |
| `ObjectTracker.QuiescentKeyMeansWatch` | cluster-api/controllers/external/tracker.go:44-68 | once no call for the kind is under way, a stored key is an established watch |
| `ObjectTracker.SuccessIsForever` | cluster-api/controllers/external/tracker.go:54-67 | a success is never repeated or forgotten in any continuation |
| `ObjectTracker.OwnCallReturns` | cluster-api/controllers/external/tracker.go:54-67 | the call that made the controller watch returns nil if and only if that watch succeeded |
| `ObjectTracker.NilIsNoPromise` | cluster-api/controllers/external/tracker.go:50-53 | a run in which a concurrent caller gets nil and no watch is ever established |
| `ObjectTracker.NilMeansWatchIff` | cluster-api/controllers/external/tracker.go:50-53 | a caller that finds the key stored gets nil, and a watch is established at that moment if and only if no other call for the kind is under way |
| `ObjectTracker.Tracker.Watch` | cluster-api/controllers/external/tracker.go:44-68 | an uninterrupted call: when the controller is called, when it errs, and that the key stays exactly on success |
| `Drain.RemoveIsApplicable` | cluster-api-provider-kubevirt/pkg/kubevirt/machine.go:414-466 | over every run and whatever is in the annotation at first, each JSON patch that removes the annotation is sent while it is there, as section 4.2 of RFC 6902 requires; on the deletion path because the deadline check has found or written it |
| `Drain.DeadlineNeverMoves` | cluster-api-provider-kubevirt/pkg/kubevirt/machine.go:490-507 | any number of calls on an evacuating VMI of which none removes the deadline leave a readable deadline exactly as it is and write no other |
| `Drain.DeletionClearsDeadline` | cluster-api-provider-kubevirt/pkg/kubevirt/machine.go:440-453 | after a deletion the deadline is gone if and only if its removal went through |
| `Drain.CallOutcome` | cluster-api-provider-kubevirt/pkg/kubevirt/machine.go:414-454 | a call fails if and only if a request of it fails; otherwise it lets the caller go on if and only if there is nothing to drain, asks for one second while the node is not empty, and for ten seconds if and only if it has deleted the VMI |
| `Drain.TriedIff` | cluster-api-provider-kubevirt/pkg/kubevirt/machine.go:424-436 | an attempt to drain is made if and only if the VMI is evacuating and a deadline is written now or found not to be over |
| `Drain.StaleDeadlineSkipsDrain` | cluster-api-provider-kubevirt/pkg/kubevirt/machine.go:440-453 | a deadline left behind makes a later evacuation delete without one attempt to drain |
| `Drain.UndrainedIff` | cluster-api-provider-kubevirt/pkg/kubevirt/machine.go:424-442 | a call deletes the VMI without an attempt to drain if and only if the VMI is evacuating, a deadline that has passed is found, and the delete request succeeds |
| `Drain.LeftBehindIff` | cluster-api-provider-kubevirt/pkg/kubevirt/machine.go:414-466 | after any run a deadline is left behind if and only if some call wrote it and no removal has gone through since |
| `Drain.UndrainedRunIff` | cluster-api-provider-kubevirt/pkg/kubevirt/machine.go:414-454 | after any run an evacuation is answered by deletion without an attempt to drain if and only if its delete request succeeds and a deadline written by an earlier call, for whichever VMI, has passed and not been removed since |
| `Drain.AnnotationIsLastWrite` | cluster-api-provider-kubevirt/pkg/kubevirt/machine.go:509-520 | over any sequence of calls the annotation is the text form of the last write plus ten minutes |
| `Drain.DeletedDrainedOrLate` | cluster-api-provider-kubevirt/pkg/kubevirt/machine.go:414-454 | over any sequence of calls on a clock that does not go back, a VMI that is deleted was reported drained, or its node gone, in the same call, or is deleted strictly more than 599 seconds after the deadline was written |
| `Drain.GraceBoundIsTight` | cluster-api-provider-kubevirt/pkg/kubevirt/machine.go:490-520 | two calls that delete an undrained VMI two nanoseconds after the 599 seconds, so 600 would be false |
| `Drain.TriesUntil` | cluster-api-provider-kubevirt/pkg/kubevirt/machine.go:527-588 | with a deadline in place at most one attempt per second is left until it |
| `Drain.AtMost601Tries` | cluster-api-provider-kubevirt/pkg/kubevirt/machine.go:580-584 | at most 601 drain attempts on an evacuating VMI with calls at least a second apart |
| `Drain.TriesBoundIsReached` | cluster-api-provider-kubevirt/pkg/kubevirt/machine.go:580-584 | 601 attempts are possible |
| `Drain.PastDeadlineDeletes` | cluster-api-provider-kubevirt/pkg/kubevirt/machine.go:424-442 | a call after the deadline goes straight to deletion |
| `Drain.Machine.ShouldGracefulDeleteVmi` | cluster-api-provider-kubevirt/pkg/kubevirt/machine.go:468-487 | true if and only if the VMI is not being deleted, has the External eviction strategy, and names an evacuation node |
| `Drain.Machine.RemoveGracePeriodAnnotation` | cluster-api-provider-kubevirt/pkg/kubevirt/machine.go:456-466 | fails unless the annotation is there and the request goes through; the annotation is gone exactly otherwise |
| `Drain.Machine.SetVmiDeletionGraceTime` | cluster-api-provider-kubevirt/pkg/kubevirt/machine.go:509-520 | writes the deadline ten minutes ahead, or nothing on failure |
| `Drain.Machine.DrainGracePeriodExceeded` | cluster-api-provider-kubevirt/pkg/kubevirt/machine.go:490-507 | exceeded if and only if a readable deadline has passed; a missing or unreadable one is written first |
| `Drain.Machine.DrainNode` | cluster-api-provider-kubevirt/pkg/kubevirt/machine.go:527-588 | which outcomes are errors, which one asks for a retry, which end the drain |
| `Drain.Machine.DrainNodeIfNeeded` | cluster-api-provider-kubevirt/pkg/kubevirt/machine.go:414-454 | does what the decision table says: result, annotation, attempt, deletion and patches sent |
| `MachineController.MachineHasKnownInternalIP` | cluster-api-provider-kubevirt/controllers/kubevirtmachine_controller.go:381-388 | true if and only if a non-empty internal IP is recorded |
| `MachineController.HasReadyCondition` | cluster-api-provider-kubevirt/pkg/kubevirt/machine.go:210-224 | true if and only if the VMI is there and some condition of it is a true Ready condition |
| `MachineController.FindLiveMigratable` | cluster-api-provider-kubevirt/pkg/kubevirt/machine.go:241-258 | the status of the live-migratable condition at the first position that has one, and none if and only if no position has one |
| `MachineController.IsTerminalIff` | cluster-api-provider-kubevirt/pkg/kubevirt/machine.go:116-173 | a VM is terminal if and only if its VMI is evicted without a way out, one of them is labelled, or the run strategy gives up on the phase; it cannot be told if and only if the run strategy is unknown and no earlier reason applies |
| `MachineController.CheckTerminal` | cluster-api-provider-kubevirt/pkg/kubevirt/machine.go:116-173 | the code with its early returns gives that answer |
| `MachineReconciler.KubevirtMachine.ReconcileNormal` | cluster-api-provider-kubevirt/controllers/kubevirtmachine_controller.go:189-379 | the object updated in place, the way out and whether a create request was sent are those of the functional pass; nothing latched is undone, the finalizer stays, and a VM is only created where none is seen |
| `MachineReconciler.KubevirtMachine.ReconcileVm` | cluster-api-provider-kubevirt/controllers/kubevirtmachine_controller.go:255-378 | the same object, way out and create request as in the functional pass, from the point where the VM is looked at |
| `MachineReconciler.KubevirtMachine.PrepareMachine` | cluster-api-provider-kubevirt/controllers/kubevirtmachine_controller.go:189-253 | the object and the way out are those of the functional pass for the steps before the VM is looked at |
| `MachineReconciler.KubevirtMachine.FinishMachine` | cluster-api-provider-kubevirt/controllers/kubevirtmachine_controller.go:290-378 | the same for the steps after the VMI has been found ready |
| `MachineReconciler.KubevirtMachine.UpdateNodeProviderID` | cluster-api-provider-kubevirt/controllers/kubevirtmachine_controller.go:390-435 | the same for the node update, including the nil dereference |
| `MachineReconciler.KubevirtMachine.ReconcileDelete` | cluster-api-provider-kubevirt/controllers/kubevirtmachine_controller.go:437-493 | as in the functional pass; the finalizer goes only when no VM is seen, it is found gone, or a request to delete it was sent and accepted, and otherwise nothing changes |
| `MachineReconciler.KubevirtMachine.DeleteVm` | cluster-api-provider-kubevirt/pkg/kubevirt/machine.go:396-412 | a request is sent if and only if the VM is read again and still there; an error if and only if the read or the request fails |
| `MachineReconciler.KubevirtMachine.Reconcile` | cluster-api-provider-kubevirt/controllers/kubevirtmachine_controller.go:72-187 | as in the functional pass; nothing latched is undone, a VM is only created under a finalizer that stays, and the finalizer only goes in a deletion with the VM absent, found gone, or its deletion requested and accepted |
| `MachineRuns.ReadyMeansUsable` | cluster-api-provider-kubevirt/controllers/kubevirtmachine_controller.go:315-362 | after any sequence of passes on a fresh object, with any failed patches, Ready implies a non-empty provider id and a recorded non-empty internal IP |
| `MachineRuns.LatchesHold` | cluster-api-provider-kubevirt/controllers/kubevirtmachine_controller.go:259-362 | provider id, known internal IP, BootstrapExecSucceeded and failure reason are never undone |
| `MachineRuns.ReadyIsLostExactly` | cluster-api-provider-kubevirt/controllers/kubevirtmachine_controller.go:266-334 | a ready object, in whatever state, loses Ready in a pass if and only if the pass looks at the VM and has to create one, finds its VMI not ready, finds no address where none was ever known, or finds a guest that should be bootstrapped and is not |
| `MachinePasses.ReadyIsGainedExactly` | cluster-api-provider-kubevirt/controllers/kubevirtmachine_controller.go:277-362 | an object gains Ready if and only if the pass finds the VM up and addressed, nothing to drain, and the guest bootstrapped where that is checked |
| `MachinePasses.ThroughLeaves` | cluster-api-provider-kubevirt/controllers/kubevirtmachine_controller.go:315-378 | such a pass leaves one address of each kind (names, and the IP of the VMI's first interface), a provider id of the machine's name unless there was one, and no deadline |
| `MachinePasses.DrainPassesIff` | cluster-api-provider-kubevirt/controllers/kubevirtmachine_controller.go:307-313 | a pass gets past the drain if and only if the VMI is not evacuating and no deadline is left on the object |
| `MachinePasses.DrainingPassLeaves` | cluster-api-provider-kubevirt/controllers/kubevirtmachine_controller.go:307-313 | a pass that does not get past it leaves ready, addresses, provider id and node mark as they were |
| `MachinePasses.DeletingCallStops` | cluster-api-provider-kubevirt/controllers/kubevirtmachine_controller.go:307-313 | a pass that deletes the VMI or tries to drain its node never gets past it |
| `MachinePasses.FailureIsSetExactly` | cluster-api-provider-kubevirt/controllers/kubevirtmachine_controller.go:255-263 | a pass sets the failure reason if and only if it looks at a VM and VMI that are terminal, spelled out over their fields |
| `MachinePasses.NodeIsMarkedExactly` | cluster-api-provider-kubevirt/controllers/kubevirtmachine_controller.go:390-435 | the node is marked if and only if a completed pass finds it with another provider id and patches it |
| `MachinePasses.NodeExits` | cluster-api-provider-kubevirt/controllers/kubevirtmachine_controller.go:390-435 | exactly when the node update asks to be called again, fails, or dereferences nil |
| `MachinePasses.ProvisionedIsSaidExactly` | cluster-api-provider-kubevirt/controllers/kubevirtmachine_controller.go:169-288 | exactly when a pass reports the VM as provisioned, as not provisioned, or says nothing |
| `MachinePasses.BootstrapIsSaidExactly` | cluster-api-provider-kubevirt/controllers/kubevirtmachine_controller.go:315-326 | bootstrapping is reported as succeeded if and only if it was before or a pass that checks it gets through |
| `MachinePasses.MigratableIsSaid` | cluster-api-provider-kubevirt/controllers/kubevirtmachine_controller.go:364-376 | what is reported about live migration is what the first such condition of the VMI says |
| `MachinePasses.CreatesExactly` | cluster-api-provider-kubevirt/controllers/kubevirtmachine_controller.go:265-274 | a request to create a VM is sent if and only if a pass that is ready for it finds none |
| `MachinePasses.AddressIs` | cluster-api-provider-kubevirt/pkg/kubevirt/machine.go:227-233 | the address is the one of the first interface |
| `MachinePasses.NormalExits` | cluster-api-provider-kubevirt/controllers/kubevirtmachine_controller.go:189-379 | exactly when reconcileNormal waits, fails, or completes |
| `MachinePasses.EarlyExits` | cluster-api-provider-kubevirt/controllers/kubevirtmachine_controller.go:72-175 | exactly when a pass that comes to neither handler fails, and when it adds the finalizer |
| `MachinePasses.DeletionEnds` | cluster-api-provider-kubevirt/controllers/kubevirtmachine_controller.go:437-493 | exactly when a deleting pass sends a delete request and when it removes the finalizer |
| `MachinePasses.ReferenceIsDefaulted` | cluster-api-provider-kubevirt/controllers/kubevirtmachine_controller.go:218-222 | the infra cluster reference is taken over if and only if the object has none and the keys are there |
| `MachineRuns.EmptyAddressKeepsReady` | cluster-api-provider-kubevirt/controllers/kubevirtmachine_controller.go:290-305 | an empty address report after the first full pass never clears Ready |
| `MachineRuns.DeadlineOfRun` | cluster-api-provider-kubevirt/controllers/kubevirtmachine_controller.go:307-313 | from any object, over any sequence of passes with any failed patches, the deadline on the object is the one left by the drain calls of the passes that reach the drain |
| `MachineRuns.PassDeletesDrainedOrLate` | cluster-api-provider-kubevirt/controllers/kubevirtmachine_controller.go:307-313 | so a pass that deletes a VMI through the drain, after any sequence of passes, had it reported drained or its node gone, or comes strictly more than 599 seconds after the deadline was written |
| `MachineRuns.PassSkipsDrainIff` | cluster-api-provider-kubevirt/controllers/kubevirtmachine_controller.go:307-313 | and deletes it without an attempt to drain if and only if the delete succeeds on an evacuating VMI and a deadline written by an earlier pass has passed and still stands |
| `MachineRuns.PassesTryAtMost601` | cluster-api-provider-kubevirt/controllers/kubevirtmachine_controller.go:307-313 | after any history of passes of a machine (healthy ones, other evacuations, failed patches), passes at least a second apart make at most 601 attempts on a VMI that stays evacuating, if the clock has not gone back up to the first of them |
| `MachineRuns.OnePassSettles` | cluster-api-provider-kubevirt/controllers/kubevirtmachine_controller.go:176-379 | one healthy pass makes any object Ready, and a second one in the same environment changes nothing |
| `MachineRuns.PanicsExactly` | cluster-api-provider-kubevirt/controllers/kubevirtmachine_controller.go:390-435 | a pass dereferences a nil provider id if and only if there is no bootstrap data yet but a node of the machine's name, and neither provider id nor node mark |
| `MachineRuns.FreshObjectPanics` | cluster-api-provider-kubevirt/controllers/kubevirtmachine_controller.go:390-435 | at the latest the second pass on a fresh object panics when a node of its name has joined before there is bootstrap data |
| `OrphanFreedom.PassFacts` | cluster-api-provider-kubevirt/controllers/kubevirtmachine_controller.go:163-187 | a VM is only created under a finalizer that stays, and the finalizer only goes when the VM is absent, found gone, or a request to delete it was sent and accepted |
| `OrphanFreedom.LooksWhereItSays` | cluster-api-provider-kubevirt/controllers/kubevirtmachine_controller.go:216-225 | a pass that comes to the VM looks for it where the reference it leaves on the object leads |
| `OrphanFreedom.RunInv` | cluster-api-provider-kubevirt/controllers/kubevirtmachine_controller.go:437-493 | under the condition every interleaving keeps each undeleted VM at the machine's own place and under its finalizer |
| `OrphanFreedom.Orphan` | cluster-api-provider-kubevirt/controllers/kubevirtmachine_controller.go:218-227 | whenever the condition fails there is an interleaving that orphans a VM |
| `OrphanFreedom.NoOrphanIff` | cluster-api-provider-kubevirt/controllers/kubevirtmachine_controller.go:437-493 | no interleaving, in which VMs change only by the requests that passes send or by going away, orphans a VM if and only if the machine has its own infra cluster reference or the one it takes over leads where none leads |
| `CloudInit.SearchUsers` | cluster-api-provider-kubevirt/controllers/kubevirtmachine_controller.go:668-674 | the loop finds the first odd position with a sequence whose key is "users", and none if and only if there is none |
| `CloudInit.FindUsersFirst` | cluster-api-provider-kubevirt/controllers/kubevirtmachine_controller.go:668-674 | it is a users section and no earlier position is one; none is found only if there is none |
| `CloudInit.FindCapkFirst` | cluster-api-provider-kubevirt/controllers/kubevirtmachine_controller.go:688-699 | the same for the first capk user of a list |
| `CloudInit.IsCapkIff` | cluster-api-provider-kubevirt/controllers/kubevirtmachine_controller.go:688-699 | a user is the capk user if and only if its first field called "name" has the value "capk" |
| `CloudInit.FieldFirst` | cluster-api-provider-kubevirt/controllers/kubevirtmachine_controller.go:689-697 | a field is the first odd position that follows its name |
| `CloudInit.MarkerIsALine` | cluster-api-provider-kubevirt/controllers/kubevirtmachine_controller.go:664-666 | the regular expression matches if and only if some line starts with "#cloud-config" |
| `CloudInit.IsCloudConfigIff` | cluster-api-provider-kubevirt/controllers/kubevirtmachine_controller.go:648-666 | a document is a cloud-config if and only if the first non-empty of its three comments has such a line |
| `CloudInit.OverrideCapk` | cluster-api-provider-kubevirt/controllers/kubevirtmachine_controller.go:688-701 | the loop replaces the first capk user, or appends one |
| `CloudInit.AddCapkUser` | cluster-api-provider-kubevirt/controllers/kubevirtmachine_controller.go:634-706 | an input that is not a cloud-config comes back unchanged and unmarked; an unusable key is the only error; otherwise the result is the injection |
| `CloudInit.LastKeyWinsIff` | cluster-api-provider-kubevirt/controllers/kubevirtmachine_controller.go:634-727 | injecting one key and then another equals injecting the other alone, for all keys, if and only if there is a users section already or every key of the document has a value |
| `CloudInit.LastKeyWins` | cluster-api-provider-kubevirt/controllers/kubevirtmachine_controller.go:634-727 | so for every parsed document, and with equal keys injection is idempotent |
| `CloudInit.OnlyCapkChanges` | cluster-api-provider-kubevirt/controllers/kubevirtmachine_controller.go:634-706 | all other sections, and all users other than the first capk user, keep content and place |
| `CloudInit.OneCapkUser` | cluster-api-provider-kubevirt/controllers/kubevirtmachine_controller.go:680-706 | the first capk user of the result has the name, gecos, sudo and groups of the source and exactly the new key as its authorized keys, and at most one capk user before means exactly one after |
| `CloudInit.CapkUserFields` | cluster-api-provider-kubevirt/controllers/kubevirtmachine_controller.go:710-727 | the rendered user, looked up field by field |
| `CloudInit.InjectionKeepsKey` | cluster-api-provider-kubevirt/controllers/kubevirtmachine_controller.go:634-727 | different keys give different documents |
| `DataVolumes.PrefixDataVolumeTemplates` | cluster-api-provider-kubevirt/pkg/kubevirt/utils.go:39-68 | both arrays, edited in place, hold the renamed templates and the volumes that follow them |
| `DataVolumes.PrefixNames` | cluster-api-provider-kubevirt/pkg/kubevirt/utils.go:44-51 | the first loop renames every template and remembers exactly the old names |
| `DataVolumes.NewVirtualMachine` | cluster-api-provider-kubevirt/pkg/kubevirt/utils.go:71-106 | a fresh VM with the renamed templates and the renamed volumes plus, last, the cloud-init volume of the bootstrap secret's name with "-userdata", while the KubevirtMachine stays as it is |
| `DataVolumes.RebuildsTheSame` | cluster-api-provider-kubevirt/pkg/kubevirt/utils.go:71-106 | building twice gives the same templates and volumes, prefixed once |
| `DataVolumes.RenamingPreservesResolution` | cluster-api-provider-kubevirt/pkg/kubevirt/utils.go:53-65 | a volume resolves to the same templates before and after if and only if the reference that is followed does not name an outside claim equal to a new name and there is no second reference that meets a template |
| `DataVolumes.OnlyNamesChange` | cluster-api-provider-kubevirt/pkg/kubevirt/utils.go:39-68 | nothing but template names and followed references changes, and nothing moves |
| `DataVolumes.SameName` | cluster-api-provider-kubevirt/pkg/kubevirt/utils.go:44-51 | when exactly two prefixed names are equal |
| `DataVolumes.MachinesCollideIff` | cluster-api-provider-kubevirt/pkg/kubevirt/utils.go:34-39 | two different machines can share a DataVolume name, from templates with non-empty names, if and only if one's name is the other's followed by a dash and more |
| `DataVolumes.EqualLengthDisjoint` | cluster-api-provider-kubevirt/pkg/kubevirt/utils.go:34-39 | machines with names of equal length never share one |
| `SshKeys.ClusterNodeSshKeys.GenerateNewKeys` | cluster-api-provider-kubevirt/pkg/ssh/cluster_node_ssh_keys.go:52-60 | both keys are set from one pair, or nothing changes |
| `SshKeys.ClusterNodeSshKeys.PersistKeysToSecret` | cluster-api-provider-kubevirt/pkg/ssh/cluster_node_ssh_keys.go:63-107 | nil keys are refused; otherwise the secret and the result are those of create-or-update, which never replaces a key |
| `SshKeys.ClusterNodeSshKeys.GetKeysDataSecret` | cluster-api-provider-kubevirt/pkg/ssh/cluster_node_ssh_keys.go:110-122 | the version that is read, or none when the name is not recorded, the read fails or the secret is absent |
| `SshKeys.ClusterNodeSshKeys.IsPersistedToSecret` | cluster-api-provider-kubevirt/pkg/ssh/cluster_node_ssh_keys.go:125-131 | true if and only if the version read has both keys |
| `SshKeys.ClusterNodeSshKeys.FetchPersistedKeysFromSecret` | cluster-api-provider-kubevirt/pkg/ssh/cluster_node_ssh_keys.go:136-154 | the fetch of the model, including the nil dereference when only the second read fails |
| `SshKeys.ReconcileSshKeys` | cluster-api-provider-kubevirt/controllers/kubevirtcluster_controller.go:206-226 | the ssh part of a cluster pass does what the functional pass does |
| `SshKeys.RunKeepsChain` | cluster-api-provider-kubevirt/pkg/ssh/cluster_node_ssh_keys.go:63-107 | over any sequence of passes each version of the secret came from the one before by writing a generated pair |
| `SshKeys.KeyIsFinal` | cluster-api-provider-kubevirt/pkg/ssh/cluster_node_ssh_keys.go:86-90 | once a version has a key every later one is that version |
| `SshKeys.KeyIsGenerated` | cluster-api-provider-kubevirt/pkg/ssh/cluster_node_ssh_keys.go:86-90 | both halves of a stored pair come from one generated pair |
| `SshKeys.AllFetchesAgree` | cluster-api-provider-kubevirt/pkg/ssh/cluster_node_ssh_keys.go:136-154 | any two successful machine fetches, at any two moments of any sequence of passes and through any stale reads, give the same pair, a generated one unless the secret came with a key |
| `SshKeys.FetchPanicsIff` | cluster-api-provider-kubevirt/pkg/ssh/cluster_node_ssh_keys.go:136-154 | after any sequence of passes a fetch whose check has seen the keys dereferences nil if and only if its second read fails or goes back to before the secret; a second read that does not go back delivers the keys |
| `SshKeys.FetchPanics` | cluster-api-provider-kubevirt/pkg/ssh/cluster_node_ssh_keys.go:136-154 | one pass without failures and a failing second read are enough for that |
| `SshKeys.GoodPassDelivers` | cluster-api-provider-kubevirt/controllers/kubevirtcluster_controller.go:206-226 | from any state one pass without failures makes the keys available, and the next one changes nothing |
| `SshKeys.FetchableIff` | cluster-api-provider-kubevirt/pkg/ssh/cluster_node_ssh_keys.go:86-131 | machines can ever fetch keys if and only if the secret did not start with a key but no public key |
| `SshKeys.RecordedMeansSecret` | cluster-api-provider-kubevirt/pkg/ssh/cluster_node_ssh_keys.go:63-107 | over any sequence of passes the name of the secret is only recorded once the secret is there |
| `SshKeys.PersistsIff` | cluster-api-provider-kubevirt/pkg/ssh/cluster_node_ssh_keys.go:63-107 | persisting succeeds if and only if the secret can be read and needs no change, or is written from a current read with an answer that arrives |
| `SshKeys.RecordsIff` | cluster-api-provider-kubevirt/controllers/kubevirtcluster_controller.go:206-226 | a pass records the name if and only if it had to persist keys, persisted them, and its patch went through |
| `OwnerRefs.IndexOwnerRef` | cluster-api/util/util.go:338-345 | the index of the first reference to the same object, or -1 if there is none |
| `OwnerRefs.HasOwnerRef` | cluster-api/util/util.go:294-296 | true if and only if some reference of the slice is to the same object |
| `OwnerRefs.EnsureOwnerRef` | cluster-api/util/util.go:300-307 | overwrites the first match in place or appends; the result is in a new array exactly when it has to append and the capacity is used up |
| `OwnerRefs.RemoveOwnerRef` | cluster-api/util/util.go:330-335 | the elements behind move up in the same array; the slice passed in ends in a duplicate |
| `OwnerRefs.VersionDoesNotMatter` | cluster-api/util/util.go:368-380 | references of the form group/version are to the same object if and only if group, kind and name agree |
| `OwnerRefs.SameObjectIsEquivalence` | cluster-api/util/util.go:368-380 | an equivalence on references that parse, and reflexive only there |
| `OwnerRefs.EnsureKeepsUnique` | cluster-api/util/util.go:300-307 | a list without two references to one object stays so, and holds the reference as given |
| `OwnerRefs.EnsureKeepsOthers` | cluster-api/util/util.go:300-307 | references to other objects keep content and order; a match is added only where there was none |
| `OwnerRefs.EnsureIdempotentIff` | cluster-api/util/util.go:300-307 | ensuring twice equals ensuring once, and the reference is found afterwards, if and only if it parses |
| `OwnerRefs.UnparsedIsAppended` | cluster-api/util/util.go:300-307 | a reference with API version "a/b/c" does not parse, is appended once more by each call and is never found |
| `OwnerRefs.RemoveKeepsUnique` | cluster-api/util/util.go:330-335 | removing keeps uniqueness |
| `OwnerRefs.RemoveTakesOne` | cluster-api/util/util.go:330-335 | one match goes, if there is one, and nothing else |
| `OwnerRefs.RemoveClearsIff` | cluster-api/util/util.go:330-335 | the reference is gone afterwards if and only if it was there at most once |
| `OwnerRefs.UniqueMatches` | cluster-api/util/util.go:338-345 | in a list without two references to one object that is always so |
| `OwnerRefs.RemoveUndoesEnsureIff` | cluster-api/util/util.go:300-335 | removing a reference just ensured restores the list if and only if it parses and was new |

## Left out

- Building REST clients, kubeconfigs, rest mappers and caches, ssh dialing, and generating or encoding keys: each is an outcome in the environment.
- The tracker's indexes, user agents, uncached-object list and controller-pod detection, and the worker pool in front of the cache reconciler: configuration that no property here depends on.
- A cache whose parent context is cancelled counts as not stopped until Stop is called on it, as in the code's own flag.
- The two writes of a patch helper (spec and status) are one atomic step, and decoding a patch response into memory is not modelled; the condition that summarises the others is left out, and conditions are a map from type to status without reasons and messages.
- The infra cluster client used inside the drain, the kubectl drain itself with its filters and timeouts, and the cordon request: one outcome.
- Times are integers in nanoseconds; the RFC 3339 text of a deadline is its value in whole seconds, and a text that does not parse is one constructor.
- In `OrphanFreedom` reads of the VM are current, one worker handles an object, and where an infra secret reference leads does not change during a run.
- `CloudInit` works on node trees as values: pointers into the tree, line, column and comment re-association, and parsing and printing YAML are not captured, nor is a key whose text would break out of its YAML scalar.
- `DataVolumes` models names, claims and the cloud-init volume; labels, annotations, disks and the rest of the VM spec are copied by the code and left out here.
- In `SshKeys` a secret value that is present is not nil, nobody else writes or deletes the secret, a recorded name is the name of the cluster's own secret, and labels and owners of the secret are reduced to whether they need an update.
- ReplaceOwnerRef, IsOwnedByObject, IsControlledBy, template cloning, the bootstrap and control plane controllers, clusterctl and the runtime extensions: not part of this model.
- Load balancer, infra cluster and node role code, and the webhooks: straight-line field assignments and defaulting that touch no state modelled here.
