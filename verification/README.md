# Verified model of the node-health control plane

This project models the controllers that decide whether a Kubernetes node is healthy, and proves
what they guarantee over whole runs.

- **The CheckNodeHealth protocol** (`CheckProtocol`, `CheckSafety`, `CheckTheorems`, `CheckCleanup`,
  `CheckDraining`, `CheckStalePod`, `CheckOrder`, `CheckDecisions`, `CheckOutcomes`). Controller workers, checker pods, users and the kubelet
  share one API server.
  Every API call is one step, so any interleaving is a run. Reads may be as stale as any version
  ever stored, writes carry the resource version that was read, a call may fail before or after it
  took effect, processes may crash, and resources may be deleted and re-created under their names.
  `Reconciler`, `ApiServer` and `NodeCheckerRunner` hold the reconciler and the checker pod in their
  own form, as methods that change a private copy in place and send it; each is proved to be a run
  of the protocol, with arbitrary steps of everyone else between two calls.
- **The verdict** (`Verdicts`, `ConditionMessage`): what the results of a check come to, and what can
  be read back from the condition's message.
- **The circuit breaker** (`CircuitBreaker`, `BlastRadius`): the class with its lazily pruned list,
  against a specification over the full history of calls, and the bound it exists for.
- **The NodeHealthy condition** (`NodeConditions`), written by one controller and collected by another.
- **Reboot detection** (`NodeReboot`, `RebootAnnotation`, `RebootLog`, `RebootLedger`, `RebootTheorems`,
  `RebootOutcomes`, `RebootReconciler`): create a check, then move the annotation, with failures and a lagging cache in between.
- **Requests and signals** (`HealthRequest`, `RequestTheorems`, `RequestOutcomes`, `RequestReconciler`): the chain that
  carries a verdict outward. The CheckNodeHealth protocol runs underneath, unchanged.
- **Retries** (`RequeueBounds`): how often the controllers requeue on their own.
- **The pod-startup checker** (`SyntheticObjects`, `Volumes`, `PodStartup`, `Validation`, `TcpRetry`, `Int64`):
  bounds on the objects it creates, what a run leaves behind, its result and its time budget. A script holds
  everything the cluster decides in a run, so any failure of any call is one of its values.

The theorems say what can happen in a run; `CheckOutcomes`, `RequestOutcomes` and `RebootOutcomes` say what a
reconcile comes to when it reads what is stored and no call fails, and `CheckDecisions` what must have been seen for
what is stored. They are stated over the objects themselves, with the durations written out. The reconcilers return an
error only after a call of theirs has failed, and give up only then.

Histories (`commits`, `feeds`, `log`, `madeFor`) are history variables of the models; no step reads them.

Six claims that the code might be expected to meet hold only under a condition, which is stated in
the lemma, with runs or inputs that show why it is needed:

- a completion that saw its pod Succeeded has judged `PodNetwork`, if the pod belongs to the resource
  being completed and not to a predecessor of the same name (`NoLostResult`, `ForeignPodLosesResult`);
- the boot annotation of a node moves only for a check or as the first annotation of a node that is no longer
  new, if the copy that was read has the node's creation time and annotation. It has not if the cache lags
  behind the node, or if the node was replaced under its name (`AnnotatedOnlyWhenChecked`, `UnjustifiedIff`,
  `LaggingCacheMovesBack`, `ReplacedNodeMisannotated`);
- a boot that the annotation has reached is not checked again, if the cache does not lag and boot IDs do not
  recur; what decides is the annotation of the copy that was read (`AtMostOneCheckPerBoot`,
  `CreatedForTheCopy`, `LaggingCacheChecksTwice`);
- a checker pod exists only while its resource does, if it is not being stopped already (`NoOrphanPods`,
  `DrainingPodOutlives`, `DrainingPodLeftBehind`);
- the checker timeout exceeds the time budget of an accepted configuration exactly if nothing overflows
  (`BudgetFitsIff`, `OverflowAccepted`, `OverflowRunsLate`);
- the waits for a rebooted node are bounded, if it is not Ready; a Ready node that waits for CoreDNS
  alone is retried for ever (`RebootedWaitsAtMost21`, `ReadyNodeWaitsForever`).

Where the comments of the source and its code disagree, the model follows the code. The comment on
`isKarpenterManaged` names the nodepool label; the code reads the capacity-type label. The comment on
`updateNodeCondition` says that the condition is set when the verdict is False; the code sets it for
every verdict. The comments on the configuration limit it to 20 checkers and their names to DNS labels; the
code checks neither.

## Model

| member | source | states |
|---|---|---|
| Verdicts.DetermineHealthyCondition | pkg/controller/checknodehealth/controller.go:340-365 | The cascade of rules gives False exactly if some result is Unhealthy, True exactly if all are Healthy and both PodStartup and PodNetwork are there, else Unknown, each with its reason; its default case adds nothing |
| Verdicts.VerdictMeans | pkg/controller/checknodehealth/controller.go:340-365 | The same of the verdict on which the theorems rest |
| Verdicts.HasResultWithStatus | pkg/controller/checknodehealth/controller.go:385-412 | True exactly if some result has that status |
| Verdicts.AllResultsHealthy | pkg/controller/checknodehealth/controller.go:415-422 | True exactly if every result is Healthy |
| Verdicts.FindResult | pkg/controller/checknodehealth/controller.go:425-432 | Finds a result of that name exactly if there is one |
| Verdicts.FindMissingResult | pkg/controller/checknodehealth/controller.go:394-402 | The required names without a result, in order; none exactly if all are present |
| Verdicts.FormatResultsMessage | pkg/controller/checknodehealth/controller.go:372-381 | A line with name and status for each result in order, then one for each required result that is missing |
| Verdicts.VerdictIgnoresOrder | pkg/nodecheckerrunner/runner.go:123-131 | The verdict is the same for every order of the results, so map iteration order cannot change it |
| Verdicts.VerdictUnderAppend | pkg/controller/checknodehealth/controller.go:340-365 | Appended results never turn False into anything else |
| ConditionMessage.MessageReadsBack | pkg/controller/checknodehealth/controller.go:372-402 | For names of the CRD's pattern, splitting the message gives back the exact results, then exactly the missing names |
| ConditionMessage.MessageInjective | pkg/controller/checknodehealth/controller.go:372-402 | Two result lists have the same message exactly if they agree on names and statuses in order; the message determines the verdict |
| CircuitBreaker.NodeConditionCircuitBreaker.Allow | pkg/controller/checknodehealth/circuit_breaker.go:65-90 | Refuses exactly if the breaker opened less than the cooldown ago; keeps the list equal to the history's |
| CircuitBreaker.NodeConditionCircuitBreaker.RecordUnhealthyNode | pkg/controller/checknodehealth/circuit_breaker.go:94-120 | Appends even while open, prunes, and moves openedAt forward at the threshold, as the full history says |
| CircuitBreaker.NodeConditionCircuitBreaker.RecordHealthyNode | pkg/controller/checknodehealth/circuit_breaker.go:124-134 | Ends the streak and never closes the breaker |
| CircuitBreaker.PruneExpiredEvents | pkg/controller/checknodehealth/circuit_breaker.go:139-146 | Keeps exactly the events not before the cutoff, in order |
| CircuitBreaker.StreakMeaning | pkg/controller/checknodehealth/circuit_breaker.go:94-134 | The streak is all failing times since the last healthy record or cooldown reset |
| CircuitBreaker.OpenedAtMeaning | pkg/controller/checknodehealth/circuit_breaker.go:65-120 | openedAt is the last record since the last reset at which the threshold was reached in the window |
| CircuitBreaker.LazyPruning | pkg/controller/checknodehealth/circuit_breaker.go:101-112 | Pruning the list at every call leaves what filtering the full streak would leave |
| CircuitBreaker.RecentAfterFailing | pkg/controller/checknodehealth/circuit_breaker.go:94-120 | One failing record: the pruned list of the old list and now is the list of the longer history |
| BlastRadius.BlastRadiusBound | pkg/controller/checknodehealth/controller.go:194-206 | From any state of the breaker, a stretch of failing completions shorter than window and cooldown condemns at most threshold nodes |
| BlastRadius.BlastRadiusInAnyRun | pkg/controller/checknodehealth/controller.go:194-206 | The same for every such stretch of every serial run |
| BlastRadius.NoneWhileOpen | pkg/controller/checknodehealth/controller.go:285-292 | While the breaker stays open nothing is written; failures only push openedAt forward |
| BlastRadius.BlastRadiusTight | pkg/controller/checknodehealth/circuit_breaker.go:94-120 | The bound is attained |
| CheckTheorems.VerdictWrittenOnce | pkg/controller/checknodehealth/controller.go:223-267 | Once finished in the store, start, finish and condition never change; results are only appended |
| CheckTheorems.StoredStatusMeaning | pkg/controller/checknodehealth/controller.go:223-267 | At any moment: not started, or started with exactly the interim condition, or finished after the start with the verdict on a prefix of its results; PodStartup occurs at most once |
| CheckTheorems.ResultsConserved | pkg/nodecheckerrunner/runner.go:115-139 | Names of results only grow at the end; a stored result other than PodStartup is never changed |
| CheckTheorems.StatusEvolves | pkg/controller/checknodehealth/pod.go:198-231 | Between any two moments of a run a stored status has only moved forward |
| CheckTheorems.NoLostResult | pkg/controller/checknodehealth/controller.go:112-192 | A completion that took effect after seeing the check's own pod Succeeded has judged PodNetwork, although the resource was read before the pod |
| CheckStalePod.ForeignPodMisleads | pkg/controller/checknodehealth/pod.go:52-72 | Whenever a Succeeded pod was seen for a name without a resource, a new resource of that name can be completed on its sight without PodNetwork |
| CheckStalePod.ForeignPodLosesResult | pkg/controller/checknodehealth/pod.go:52-72 | Such a run exists from the start for every name |
| CheckTheorems.BreakerFedOnce | pkg/controller/checknodehealth/controller.go:187-206 | Each check feeds the breaker at most once, only after its commit, and as a failure exactly if the committed verdict is False |
| CheckTheorems.CommitIsStored | pkg/controller/checknodehealth/controller.go:247-267 | A check is committed exactly if it is stored as finished, with the committed verdict |
| CheckDecisions.DeletesOnlyExpired | pkg/controller/checknodehealth/controller.go:122-135 | In every run, a worker asks to delete a check only because the copy it has just read is not being deleted and was more than six hours old |
| CheckDecisions.ExpiredIff | pkg/controller/checknodehealth/controller.go:122-135 | The call after a read is a deletion exactly for such a copy |
| CheckDecisions.ExpiredIsDeleted | pkg/controller/checknodehealth/controller.go:127-135 | From any state, a reconcile that reads such a check as it is and whose deletion is acknowledged leaves none of that name, or one that is being deleted |
| CheckDecisions.StartupResultSeen | pkg/controller/checknodehealth/pod.go:150-195 | Every stored PodStartup result was reported by a worker that saw a pod of the check: Healthy with all containers started, Unhealthy Pending for more than two minutes |
| CheckDecisions.FinishSeen | pkg/controller/checknodehealth/controller.go:176-192 | Every stored finish was written, at the time it says, by a worker that saw a pod of the check through or more than two minutes old |
| CheckDecisions.FinishedMeans | pkg/controller/checknodehealth/controller.go:340-365 | The condition of a finished check judges a prefix of its results: True only if both required results are in it and all are Healthy, False exactly if one is Unhealthy |
| CheckOutcomes.OpenCheckReconciled | pkg/controller/checknodehealth/controller.go:154-221 | One reconcile of an open check that sees its pod: started, startup reported, and finished with the judgement on its results exactly if the pod is through or more than two minutes old; else run again |
| CheckOutcomes.ReportsStartup | pkg/controller/checknodehealth/pod.go:150-231 | The report on a pod: Healthy exactly if it has containers and all have started, Unhealthy if not and it is Pending for more than two minutes, nothing else changed |
| CheckOutcomes.DecidesCheck | pkg/controller/checknodehealth/controller.go:176-192 | The decision: finished and judged, or run again |
| CheckOutcomes.CompletionSettled | pkg/controller/checknodehealth/controller.go:194-216 | After a completion the breaker is told, as a failure exactly if the condition is False, and the pod is deleted |
| CheckOutcomes.FinishedCheckReconciled | pkg/controller/checknodehealth/controller.go:147-152 | A reconcile of a finished check deletes its pod |
| CheckOutcomes.PodlessCheckReconciled | pkg/controller/checknodehealth/pod.go:52-92 | A reconcile of an open check without a pod creates one, named and labelled after it and owned by it, and goes on with it |
| CheckOutcomes.UnprotectedCheckReconciled | pkg/controller/checknodehealth/controller.go:137-145 | A reconcile of a check without the finalizer adds it and changes nothing else |
| CheckSafety.CurrentIsStored | pkg/controller/checknodehealth/controller.go:262-266 | A version that passes the resource-version comparison is the stored object itself |
| CheckSafety.StepKeeps | pkg/controller/checknodehealth/controller.go:112-174 | Every step of every process keeps the invariant and moves stored statuses forward only |
| CheckSafety.WithResultFacts | pkg/controller/checknodehealth/pod.go:219-231 | Updating a result keeps all names in place, changes only that name's entry, and appends it exactly if it was absent |
| CheckCleanup.NoOrphanPods | pkg/controller/checknodehealth/controller.go:455-474 | With current reads and one reconcile per resource, a pod that is not being stopped exists only while its own resource does and carries the finalizer |
| CheckDraining.DrainingPodOutlives | pkg/controller/checknodehealth/controller.go:122-145 | Why only those: a reconcile of that kind in which no call fails removes a resource that is being deleted, and its pod stays, being stopped, exactly if it had not completed |
| CheckDraining.DrainingPodLeftBehind | pkg/controller/checknodehealth/pod.go:24-50 | For every name there is such a run from the start that leaves a pod without its resource |
| CheckOrder.FinalizerGoesLast | pkg/controller/checknodehealth/controller.go:455-474 | In every run, a reconcile that comes to removing the finalizer has listed the pods and then deleted every listed one, in order and acknowledged |
| CheckCleanup.AtMostOnePod | pkg/controller/checknodehealth/pod.go:52-92 | In every run, a resource has at most one pod |
| CheckCleanup.StepClean | pkg/controller/checknodehealth/controller.go:122-145 | Every step keeps live pods protected by the finalizer |
| Reconciler.CheckNodeHealth.SetStarted | pkg/controller/checknodehealth/controller.go:229-238 | Only the start and the interim condition change |
| Reconciler.CheckNodeHealth.SetCompleted | pkg/controller/checknodehealth/controller.go:247-259 | The finish and the verdict on the results as they are now |
| Reconciler.CheckNodeHealth.UpdateCheckResult | pkg/controller/checknodehealth/pod.go:219-231 | The in-place loop overwrites the first result of that name or appends |
| Reconciler.AreAllContainersStarted | pkg/controller/checknodehealth/pod.go:178-195 | True exactly if there are containers and each runs or terminated after a start |
| Reconciler.CheckNodeHealthReconciler.Reconcile | pkg/controller/checknodehealth/controller.go:112-174 | One reconcile is a run of the protocol up to the end of the worker's program, and its result is what the worker came to; an error only after a failed call |
| Reconciler.CheckNodeHealthReconciler.DetermineCheckResult | pkg/controller/checknodehealth/controller.go:176-221 | The breaker is asked and then told exactly if the completion was acknowledged; the node is written if the breaker grants it and no call on the node fails, and only if it grants it; a wait is returned only for an uncompleted pod |
| Reconciler.CheckNodeHealthReconciler.UpdateNodeCondition | pkg/controller/checknodehealth/controller.go:271-335 | Refused by the breaker: succeeds without a write. Granted: succeeds only with the node written as specified, and a failure without a write or after it |
| Reconciler.CheckNodeHealthReconciler.ReconcileRepeatedly | pkg/controller/checknodehealth/controller.go:112-206 | Over any number of reconciles, each failing stretch shorter than window and cooldown gave at most threshold nodes NodeHealthy=False |
| BlastRadius.WritesInAnyStretch | pkg/controller/checknodehealth/controller.go:194-206 | Among writes that the breaker granted, at most threshold lie in such a stretch |
| Reconciler.CheckNodeHealthReconciler.MarkStarted | pkg/controller/checknodehealth/controller.go:223-245 | Sends the started status once, under compare-and-swap |
| Reconciler.CheckNodeHealthReconciler.MarkCompleted | pkg/controller/checknodehealth/controller.go:247-267 | Sends the completed status; the verdict returned is the one sent |
| Reconciler.CheckNodeHealthReconciler.UpdatePodstartCheckerResult | pkg/controller/checknodehealth/pod.go:150-216 | Records PodStartup Healthy, Unhealthy after the timeout while Pending, or nothing |
| Reconciler.CheckNodeHealthReconciler.EnsureHealthCheckPod | pkg/controller/checknodehealth/pod.go:52-92 | Returns the first listed pod, or the one just created and fetched |
| Reconciler.CheckNodeHealthReconciler.CleanupPod | pkg/controller/checknodehealth/pod.go:24-50 | Deletes every listed pod, in order, stopping at the first failure |
| Reconciler.CheckNodeHealthReconciler.HandleDeletion | pkg/controller/checknodehealth/controller.go:455-474 | From the listing on, a run of the protocol to the end of the worker's program, with the matching result |
| NodeCheckerRunner.RunChecker | pkg/nodecheckerrunner/runner.go:77-98 | The first of three attempts that returns decides; otherwise the result is Unknown |
| NodeCheckerRunner.AppendResults | pkg/nodecheckerrunner/runner.go:122-131 | Appends exactly one converted result per checker, in whatever order |
| NodeCheckerRunner.Runner.UpdateCheckNodeHealthStatus | pkg/nodecheckerrunner/runner.go:115-139 | Get, append, update: a run of the protocol that succeeds exactly if the server acknowledged the update |
| NodeCheckerRunner.SettledReflects | pkg/nodecheckerrunner/runner.go:77-98 | The result of a checker is that of its first attempt that returned, Healthy and Unhealthy as it said and else Unknown, with its message and code |
| NodeCheckerRunner.Runner.Run | pkg/nodecheckerrunner/runner.go:70-139 | Stores that result after the others exactly if the resource was read and is unchanged and the update is not refused; exits 0 exactly if that was acknowledged |
| NodeConditions.Node.SetNodeHealthy | pkg/controller/checknodehealth/controller.go:302-327 | The loop makes the first NodeHealthy condition, or a new one, say status, reason and message of the verdict as of now; all else stays |
| NodeConditions.ReportedShows | pkg/controller/checknodehealth/controller.go:302-327 | The same of every report |
| NodeConditions.Node.RemoveStaleNodeCondition | pkg/controller/node/controller.go:332-355 | The loop removes the first NodeHealthy condition exactly if its status has not changed for more than thirty minutes |
| NodeConditions.CollectedDrops | pkg/controller/node/controller.go:332-355 | The same of every collection |
| NodeConditions.ReportedMeaning | pkg/controller/checknodehealth/controller.go:302-327 | A report changes only the first NodeHealthy condition; all others keep value and order |
| NodeConditions.CollectedMeaning | pkg/controller/node/controller.go:332-355 | A collection removes at most that condition; all others keep value and order |
| NodeConditions.ListRefinesRecord | pkg/controller/node/controller.go:332-355 | In any interleaving of both controllers the list is one optional record beside the other conditions, so there is never a second one |
| NodeConditions.TransitionTime | pkg/controller/checknodehealth/controller.go:306-308 | The transition time is that of the last report that changed the status or re-added the entry |
| NodeConditions.HeartbeatAfterTransition | pkg/controller/checknodehealth/controller.go:304-327 | The transition time is never after the heartbeat |
| NodeConditions.RemovedIffStale | pkg/controller/node/controller.go:338-346 | A node reconcile removes the condition exactly if it is past its TTL, and else leaves the list as it is |
| NodeReboot.NamesCoincide | pkg/controller/node/controller.go:375-382 | Two checks share a name exactly if the hashes agree and the node names agree in 239 characters |
| NodeReboot.NamesInjective | pkg/controller/node/controller.go:375-382 | Names of up to 239 characters and distinct hashes give distinct check names |
| NodeReboot.LongNamesCollide | pkg/controller/node/controller.go:375-382 | Every longer node name has another with the same check names |
| NodeReboot.RebootsStayDetectable | pkg/controller/node/controller.go:107-178 | Whatever the cache serves and whatever fails between create and patch: the annotation becomes b only if the check named for (node, b) has existed, or the copy that was read had no annotation and was no longer new; else it stays |
| RebootAnnotation.UnjustifiedIff | pkg/controller/node/controller.go:127-178 | In every run, exactly this moves the annotation to a boot that was never checked, other than as the first annotation of an old node: an unrefused patch for a copy that looked unannotated and old, while the node has another annotation or is new, and no such check has existed |
| RebootAnnotation.AnnotatedOnlyWhenChecked | pkg/controller/node/controller.go:127-178 | In every run no such move happens, provided the copy that was read has the creation time and the annotation that the node has now |
| RebootTheorems.CurrentReadsAnnotateOnlyWhenChecked | pkg/controller/node/controller.go:127-178 | With current reads that is so if the node patched is the node read |
| RebootAnnotation.LaggingCopyInitialises | pkg/controller/node/controller.go:132-153 | From any state with an idle worker, a copy without annotation that is old enough gives the node its boot ID, whatever the annotation is by now |
| RebootAnnotation.LaggingCacheMovesBack | pkg/controller/node/controller.go:132-153 | A run from the start with past versions of one node: its annotation goes back to an earlier boot, and no check has ever existed |
| NodeReboot.StepKeepsInv | pkg/controller/node/controller.go:107-220 | Every step keeps what the reconciles rely on |
| RebootAnnotation.ReplacedNodeMisannotated | pkg/controller/node/controller.go:358-368 | A node replaced between read and patch gets its predecessor's boot ID while new and unchecked |
| RebootAnnotation.ReplacedNodeMisannotatedIff | pkg/controller/node/controller.go:358-368 | Whenever a reconcile is about to initialise the annotation of a node that was replaced by a new and unchecked one, the patch mis-annotates it exactly if it is not refused |
| RebootLog.CreatedAgainOnlyAfterRemoval | pkg/controller/node/controller.go:155-220 | In every run, with any cache and any boot IDs, a check for (node, boot) is created again only after it was removed |
| RebootLog.CreatedForTheCopy | pkg/controller/node/controller.go:155-220 | A check for (node, boot) is created exactly by an unrefused create of a worker whose copy calls for it while no such check is there; the copy then had another annotation |
| RebootLog.LaggingCopyChecksAgain | pkg/controller/node/controller.go:107-220 | From any state with an idle worker and no such check, a copy that calls for a check gets one, whatever the annotation is by now |
| RebootLog.LaggingCacheChecksTwice | pkg/controller/node/controller.go:107-220 | A run from the start for every node and boot: with a cache that serves past versions, created, annotated, removed, created again |
| RebootTheorems.AtMostOneCheckPerBoot | pkg/controller/node/controller.go:155-220 | With current reads and boot IDs that do not recur, a check is moreover never created once the annotation has reached its boot |
| RebootLedger.NoBootMissed | pkg/controller/node/controller.go:127-178 | With any cache that serves past versions, a boot that no reconcile looks at again had a check of its own created, or the node was initialised as an old one |
| RebootReconciler.NodeRebootReconciler.Reconcile | pkg/controller/node/controller.go:107-178 | One reconcile is a run of the reboot protocol to the end of its program, and its result is what it came to |
| RebootReconciler.NodeRebootReconciler.CheckThenAnnotate | pkg/controller/node/controller.go:162-178 | From the readiness check on, a run of the protocol to the end of its program, with the matching result |
| RebootOutcomes.ReadinessIff | pkg/controller/node/controller.go:232-328 | The readiness check over labels, conditions and replicas: go on, error, give up and wait are told apart exactly |
| RebootOutcomes.DecisionIff | pkg/controller/node/controller.go:127-160 | The comparison of boot IDs: leave alone, initialise after five minutes, or check, told apart exactly |
| RebootOutcomes.CreatedWasReady | pkg/controller/node/controller.go:155-178 | In every run, every check created was created for a copy found ready - initialised by Karpenter, or with a first Ready condition that is True - while CoreDNS had as many ready replicas as it wanted |
| RebootOutcomes.RebootChecked | pkg/controller/node/controller.go:107-178 | A reconcile that reads a ready node with an unchecked boot leaves the check named for it and the annotation at that boot |
| RebootOutcomes.UnreadyNodeDeferred | pkg/controller/node/controller.go:162-175 | If the node or CoreDNS is not ready, no check is created and the annotation stays; it waits, gives up after ten minutes, or errs |
| RebootOutcomes.OldNodeInitialised | pkg/controller/node/controller.go:132-153 | An old node without annotation gets its boot ID without a check |
| RebootOutcomes.SettledNodeLeft | pkg/controller/node/controller.go:127-131 | A node without boot ID, or with that of its annotation, is left alone but for a stale condition |
| RebootAnnotation.PatchFollowsCreate | pkg/controller/node/controller.go:155-178 | In every run, a reconcile that found the boot ID changed comes to the patch only after its create call was acknowledged |
| RebootReconciler.IsReady | pkg/controller/node/controller.go:284-291 | True exactly if the first Ready condition is True |
| RebootReconciler.HasBeenNotReadyFor | pkg/controller/node/controller.go:311-328 | Compares with the creation of an uninitialised Karpenter node or of a node without Ready condition, else with the transition of a Ready condition that is not True |
| RequeueBounds.WaitsIff | pkg/controller/checknodehealth/controller.go:180-220 | The wait result is returned exactly if the pod has neither completed nor timed out |
| RequeueBounds.PodWaitsAtMostFive | pkg/controller/checknodehealth/pod.go:234-237 | A checker pod yields at most five waits |
| RequeueBounds.PodCanWaitFiveTimes | pkg/controller/checknodehealth/pod.go:234-237 | Five are possible |
| RequeueBounds.RebootedWaitsAtMost21 | pkg/controller/node/controller.go:162-175 | A rebooted node with an unchanged reference time is requeued at most 21 times |
| RequeueBounds.RebootedCanWait21Times | pkg/controller/node/controller.go:162-175 | 21 are possible for every node found not ready |
| RequeueBounds.ReadyNodeWaitsForever | pkg/controller/node/controller.go:318-326 | A Ready node waiting for CoreDNS alone is requeued without bound |
| RequeueBounds.FirstSeenWaitsAtMost10 | pkg/controller/node/controller.go:132-147 | A first-seen node is requeued at most ten times, whatever CoreDNS does |
| RequeueBounds.FirstSeenCanWait10Times | pkg/controller/node/controller.go:132-147 | Ten are possible |
| RequeueBounds.FirstSeenNeverGivesUp | pkg/controller/node/controller.go:139-144 | Its give-up branch is unreachable if the Ready condition did not change before creation |
| HealthRequest.SignalNameInjective | pkg/controller/healthcheckrequest/controller.go:190 | Different requests have different signal names |
| HealthRequest.RunProjects | pkg/controller/healthcheckrequest/controller.go:225-259 | For the checks, every run of the chain is a run of the CheckNodeHealth protocol |
| RequestTheorems.EndToEndVerdict | pkg/controller/healthcheckrequest/controller.go:161-172 | A signal is empty or carries the committed verdict of a finished check it owns, never the interim condition, and equals that check's conditions while it is stored |
| RequestTheorems.OneSignalPerRequest | pkg/controller/healthcheckrequest/controller.go:177-221 | At most one signal per request name |
| RequestTheorems.MapsBackToRequest | pkg/controller/healthcheckrequest/controller.go:95-126 | The event of a check made for a request maps to exactly that request, whatever version of the signal the cache serves, or to none if it serves none |
| RequestTheorems.StepKeepsEvolving | pkg/controller/healthcheckrequest/controller.go:262-273 | Every version of a check that was ever readable has only evolved since |
| RequestReconciler.HealthCheckRequestReconciler.Reconcile | pkg/controller/healthcheckrequest/controller.go:131-174 | One reconcile is a run of the chain to the end of its program, and its result is what it came to; an error only after a failed call, and a wait of five seconds exactly if the check is in progress |
| RequestOutcomes.FinishedCheckDelivered | pkg/controller/healthcheckrequest/controller.go:161-172 | Whenever a request owns a signal that owns a finished check, a reconcile ends without requeue and the stored signal has that check's conditions |
| RequestOutcomes.UnfinishedCheckAwaited | pkg/controller/healthcheckrequest/controller.go:161-172 | For an unfinished check it waits and changes nothing |
| RequestOutcomes.MissingCheckCreated | pkg/controller/healthcheckrequest/controller.go:225-259 | Without a check one is made, under the signal's name, for the requested node, owned by the signal |
| RequestOutcomes.MissingSignalCreated | pkg/controller/healthcheckrequest/controller.go:177-221 | Without a signal one is made, for the request, with its target and without conditions |
| RequestOutcomes.WithdrawnRequestLeft | pkg/controller/healthcheckrequest/controller.go:131-160 | A request that is being deleted is left alone |
| RequestOutcomes.WaitsIff | pkg/controller/healthcheckrequest/controller.go:161-172 | A worker comes to wait exactly by finding an unfinished owned check or by an acknowledged creation |
| RequestReconciler.HealthCheckRequestReconciler.EnsureHealthSignal | pkg/controller/healthcheckrequest/controller.go:177-221 | The first signal owned by the request, or the one just created for it |
| RequestReconciler.HealthCheckRequestReconciler.EnsureCheckNodeHealth | pkg/controller/healthcheckrequest/controller.go:225-259 | The first check owned by the signal, or a new one under the signal's name |
| RequestReconciler.HealthCheckRequestReconciler.SyncHealthSignalStatus | pkg/controller/healthcheckrequest/controller.go:262-273 | Sends the check's conditions under compare-and-swap |
| SyntheticObjects.CollectGarbage | pkg/checker/podstartup/pods.go:177-194 | Asks to delete exactly the own objects found older than the timeout, whether or not other deletions fail: each that was older at the start is being deleted unless refused, each that is not older at the end is untouched; succeeds exactly if all deletions do |
| SyntheticObjects.DeleteAll | pkg/checker/podstartup/nodepools.go:64-96 | Asks to delete every own node pool, however old |
| PodStartup.Checker.GarbageCollect | pkg/checker/podstartup/podstartup.go:240-258 | Collects outdated pods, all node pools if they are tested, and outdated claims, each whether or not another collection fails; succeeds exactly if all of them do |
| Volumes.CreateCsiResources | pkg/checker/podstartup/storage.go:108-131 | Succeeds exactly if no type is repeated or unsupported, no name is taken and no call fails; else leaves exactly the claims before the first obstacle, and perhaps that one |
| Volumes.DeleteCsiResources | pkg/checker/podstartup/storage.go:133-156 | Marks exactly the claims up to the first entry that is unsupported or whose deletion fails |
| Volumes.CollisionLeaks | pkg/checker/podstartup/podstartup.go:135-142 | With a repeated or unsupported type the failed creation leaves claims behind although every call succeeds |
| Volumes.PvcNameInjective | pkg/checker/podstartup/storage.go:17-21 | Claim names differ exactly if the types do; the storage class plays no part |
| PodStartup.Checker.CheckCsiResourceLimit | pkg/checker/podstartup/storage.go:180-198 | Passes exactly without claims to make, or if they were listed and are fewer than the wrapped product of M and n |
| PodStartup.ValidateStorageClasses | pkg/checker/podstartup/storage.go:98-106 | Passes exactly if every storage class is found; else the first lookup that is not decides |
| PodStartup.Checker.Check | pkg/checker/podstartup/podstartup.go:115-237 | Keeps the bounds at every moment; if its calls succeed and its claims can be created, all it leaves is being deleted. Unless others take objects away, storage classes, limits, names and replies decide the result, in the order of the code; with free names and below the limits it is that of the pod phase even then |
| PodStartup.Checker.CheckPod | pkg/checker/podstartup/podstartup.go:144-192 | Never lets the pods exceed M; an error at the limit or without a list; else the result of the node pool, the pod or the measurement. Pod and pool are deleted again, but a pool without a pod stays |
| PodStartup.Measure | pkg/checker/podstartup/podstartup.go:194-237 | Healthy exactly if the container ran in time, has an address and connects; the other results are told apart exactly |
| PodStartup.MeasuredByTimes | pkg/checker/podstartup/podstartup.go:194-218 | The results over the times as measured: the time to the running container less the time to pull the image, in whole seconds, against the timeout |
| PodStartup.PodPhaseMeans | pkg/checker/podstartup/podstartup.go:156-179 | Skipped, timed-out and failed creations, and errors, by what the server answered |
| PodStartup.CondemnedHalfASecondEarly | pkg/checker/podstartup/podstartup.go:206-218 | For a timeout of whole seconds, the rounded duration exceeds it exactly from half a second before it |
| PodStartup.Checker.RunRepeatedly | pkg/scheduler/scheduler.go:56-63 | Over any number of serial runs, whatever fails: never more than M pods nor L + n - 1 claims at any moment, L being the limit as it is computed |
| PodStartup.Checker.MaxPvcsIs | pkg/checker/podstartup/storage.go:192-195 | That bound never exceeds (M+1)n - 1, and equals it exactly if M times n does not overflow |
| PodStartup.Checker.AttainClaimBound | pkg/checker/podstartup/podstartup.go:115-154 | It is attained: runs of `Check` lead from no claims to exactly that many |
| PodStartup.Checker.LeaksUpTo | pkg/checker/podstartup/storage.go:108-131 | A run whose k-th create is refused and whose deletions fail leaves exactly k claims |
| Validation.ValidatePodStartup | pkg/config/validation.go:105-182 | Reports every problem of the configuration and nothing else |
| Validation.AcceptedIff | pkg/config/validation.go:105-182 | An accepted configuration, over its fields |
| Validation.ValidateCsis | pkg/config/validation.go:161-179 | Reports exactly the unsupported types, bad class names and repeated classes |
| Validation.ValidateDns | pkg/config/validation.go:76-103 | Accepts exactly a configuration with a domain, a known target and a positive query timeout below the checker's |
| Validation.ValidateApiServer | pkg/config/validation.go:184-212 | Accepts exactly valid names, both timeouts below the checker's, and a positive limit |
| Validation.ValidateChecker | pkg/config/validation.go:37-73 | Accepts exactly a named checker of a supported type with positive times whose own configuration is acceptable |
| Validation.ValidateConfig | pkg/config/validation.go:13-34 | Accepts exactly a non-empty list of acceptable checkers with distinct names; reports each one that is not acceptable and each repeated name, and nothing else |
| Validation.AcceptedConfigMeans | pkg/config/validation.go:13-73 | What an accepted configuration as a whole says of each of its checkers, over their fields |
| Validation.BudgetFitsIff | pkg/config/validation.go:142-151 | For an accepted configuration, startup timeout and true budget fit in the checker timeout exactly if nothing overflows |
| Validation.OverflowAccepted | pkg/config/validation.go:145-146 | An accepted configuration whose true budget exceeds every 64-bit duration |
| Validation.CollidingCsisAccepted | pkg/config/validation.go:161-179 | Configurations with colliding claims are accepted |
| TcpRetry.ConnectWithRetry | pkg/checker/podstartup/podstartup.go:336-356 | Stops with the first attempt that connects, is the last, or is cancelled; reports all failed attempts numbered from one; takes exactly the time of its dials and waits |
| TcpRetry.BudgetIsBound | pkg/config/validation.go:142-145 | No run of the retry loop takes longer than the budget |
| TcpRetry.BudgetIsAttained | pkg/config/validation.go:142-145 | The slowest network takes exactly the budget |
| TcpRetry.CheckEndsInTime | pkg/config/validation.go:145-151 | If the phase before it stayed within the startup timeout, the check ends before the checker timeout |
| TcpRetry.OverflowRunsLate | pkg/config/validation.go:145-151 | With an overflow the slowest network runs past the timeout |
| TcpRetry.AllErrorsAreDeadlineExceeded | pkg/checker/podstartup/podstartup.go:358-379 | True exactly if there is an error and every one is a deadline |
| TcpRetry.CheckTcp | pkg/checker/podstartup/podstartup.go:226-236 | A timeout is reported exactly if every attempt timed out, and the context too if it ended the loop |

## Left out

- Timestamps: times are nanoseconds throughout; that stored timestamps are cut to seconds is not modelled.
- Logging, metrics, flags, manager and cache wiring, RBAC and YAML parsing.
- DNS, API server, metrics server, Azure Policy and PodNetwork checkers: a checker's outcome is an input.
- Pod, NodePool and claim specifications beyond name, label, owner, phase and container states; the
  service-account annotation.
- CheckNodeHealth resources carry no finalizers other than the controller's own.
- Merge-patch races on node conditions with the kubelet: each read-modify-patch of a node is one step.
- SHA-256 is a function to eight characters, assumed injective on the boots of a run only in `NoBootMissed`.
- Node names and CheckNodeHealth names are not checked against the API server's naming rules, except that
  names of requests are lower case.
- HealthSignals that other sources create for the same request.
- Node pools of other checkers that share the label key: the collection deletes them too.
- What others do between two calls of one phase of the pod-startup checker: they act between the phases.
- `parseImagePullDuration` and the polling of the pod: the two durations, or their failure, are inputs.
- The retry library's check of a context that is already done before the first dial.
- Liveness beyond the requeue bounds: nothing is said about when an event arrives.
- RebootTheorems.AtMostOneCheckPerBoot: assumes current reads and boot IDs that do not recur, because its claim
  about the annotation is false of a lagging cache (`LaggingCacheChecksTwice`); its other half holds of every run.
- CheckCleanup.NoOrphanPods: says nothing about pods whose containers are being stopped, because the API server
  keeps them after a delete call until the kubelet is done (`DrainingPodOutlives`, `DrainingPodLeftBehind`).
- CheckDecisions.StartupResultSeen: for names of 235 characters or more, whose pod names can be cut, it says of
  the pod only that it has the pod name of the check.
- CheckDecisions.FinishSeen: the same.
- PodStartup.Checker.Check: the error value of a failed run is not modelled beyond its kind.
